/** What the billing engine promises: units and money are conserved by the
    slab walk, each unit is billed at the rate of its own slab, the fixed
    charge is that of the slab holding the month's total, the bill grows
    with consumption, and the result's fields agree with each other. */
module SlabWalkLaws {
  import opened Types
  import opened Tariffs
  import opened Billing

  // ---------------------------------------------------------------------------
  // Decimal labels.
  // ---------------------------------------------------------------------------

  predicate IsDigit(c: char)
  {
    '0' <= c <= '9'
  }

  function DigitValue(c: char): nat
    requires IsDigit(c)
  {
    (c as int) - ('0' as int)
  }

  /** The number a string of decimal digits denotes. */
  function DecimalValue(s: string): nat
    requires forall k :: 0 <= k < |s| ==> IsDigit(s[k])
  {
    if s == [] then 0
    else DecimalValue(s[..|s| - 1]) * 10 + DigitValue(s[|s| - 1])
  }

  /** The slab labels print unit counts in plain decimal: digits only, no
      leading zero, denoting exactly the count. */
  lemma {:induction false} NatToStringDecimal(n: nat)
    ensures forall k :: 0 <= k < |NatToString(n)| ==> IsDigit(NatToString(n)[k])
    ensures NatToString(n)[0] != '0' || n == 0
    ensures DecimalValue(NatToString(n)) == n
  {
    if n >= 10 {
      NatToStringDecimal(n / 10);
      var s := NatToString(n);
      assert s[..|s| - 1] == NatToString(n / 10);
    }
  }

  // ---------------------------------------------------------------------------
  // The slab walk.
  // ---------------------------------------------------------------------------

  lemma SingletonTotals(x: LineItem)
    ensures TotalUnits([x]) == x.units && TotalCost([x]) == x.cost
  {
    assert [x][1..] == [];
  }

  /** The walk loses no unit and no money: the units on its lines plus those
      left over are all the units, and its lines' costs sum to its charge. */
  lemma {:induction false} SlabWalkConserves(slabs: seq<TariffSlab>, labels: seq<string>, i: nat, remaining: nat)
    requires ValidSlabs(slabs) && |labels| == |slabs| && i <= |slabs|
    ensures TotalUnits(SlabLines(slabs, labels, i, remaining)) + Leftover(slabs, i, remaining) == remaining
    ensures TotalCost(SlabLines(slabs, labels, i, remaining)) == ChargeFrom(slabs, i, remaining)
    decreases |slabs| - i
  {
    if remaining > 0 && i < |slabs| {
      var t := Take(remaining, slabs[i]);
      var line := SlabLine(labels[i], slabs[i], t);
      SlabWalkConserves(slabs, labels, i + 1, remaining - t);
      TotalsOfConcat([line], SlabLines(slabs, labels, i + 1, remaining - t));
      SingletonTotals(line);
    }
  }

  /** The "Extra" line, if any, holds exactly the leftover units, billed at
      the last slab's rate. */
  lemma ExtraLinesTotals(slabs: seq<TariffSlab>, kind: string, units: nat)
    requires |slabs| > 0 && ValidSlabs(slabs)
    ensures TotalUnits(ExtraLines(slabs, kind, units)) == Leftover(slabs, 0, units)
    ensures TotalCost(ExtraLines(slabs, kind, units)) == Amount(Leftover(slabs, 0, units), slabs[|slabs| - 1].rate)
  {
    var extra := ExtraLines(slabs, kind, units);
    if extra != [] {
      SingletonTotals(extra[0]);
      assert extra == [extra[0]];
    }
  }

  /** The breakdown accounts for every imported unit and its costs sum to the
      energy charge. */
  lemma BreakdownCoversAllUnits(slabs: seq<TariffSlab>, kind: string, units: nat)
    requires |slabs| > 0 && ValidSlabs(slabs)
    ensures TotalUnits(EnergyLines(slabs, kind, units)) == units
    ensures TotalCost(EnergyLines(slabs, kind, units)) == EnergyCharge(slabs, units)
  {
    var labels := SlabLabels(slabs, kind);
    SlabWalkConserves(slabs, labels, 0, units);
    ExtraLinesTotals(slabs, kind, units);
    TotalsOfConcat(SlabLines(slabs, labels, 0, units), ExtraLines(slabs, kind, units));
  }

  /** Line `j` belongs to slab `i + j`: it carries that slab's label, at
      least one unit and no more than the slab's width, and costs its units
      at that slab's rate. */
  predicate LinesFollowSlabs(lines: seq<LineItem>, slabs: seq<TariffSlab>, labels: seq<string>, i: nat)
  {
    forall j :: 0 <= j < |lines| ==>
      i + j < |slabs| && i + j < |labels| && lines[j] == SlabLine(labels[i + j], slabs[i + j], lines[j].units) && lines[j].units > 0 &&
      (slabs[i + j].max.Finite? ==> lines[j].units <= slabs[i + j].max.n - slabs[i + j].min + 1)
  }

  /** Every line but the last is billed its slab's full width. */
  predicate FullBeforeLast(lines: seq<LineItem>, slabs: seq<TariffSlab>, i: nat)
  {
    forall j :: 0 <= j < |lines| - 1 ==>
      i + j < |slabs| && slabs[i + j].max.Finite? &&
      lines[j].units == slabs[i + j].max.n - slabs[i + j].min + 1
  }

  /** Prepending slab `i`'s line to lines that follow the slabs from `i + 1`
      gives lines that follow the slabs from `i`. */
  lemma LinesFollowSlabsCons(line: LineItem, rest: seq<LineItem>, slabs: seq<TariffSlab>, labels: seq<string>, i: nat)
    requires LinesFollowSlabs(rest, slabs, labels, i + 1)
    requires i < |slabs| && i < |labels| && line == SlabLine(labels[i], slabs[i], line.units) && line.units > 0
    requires slabs[i].max.Finite? ==> line.units <= slabs[i].max.n - slabs[i].min + 1
    ensures LinesFollowSlabs([line] + rest, slabs, labels, i)
  {
    var lines := [line] + rest;
    forall j | 0 <= j < |lines|
      ensures i + j < |slabs| && i + j < |labels| && lines[j] == SlabLine(labels[i + j], slabs[i + j], lines[j].units) && lines[j].units > 0 &&
        (slabs[i + j].max.Finite? ==> lines[j].units <= slabs[i + j].max.n - slabs[i + j].min + 1)
    {
      if j > 0 {
        assert lines[j] == rest[j - 1];
        assert (i + 1) + (j - 1) == i + j;
      }
    }
  }

  /** The walk from slab `i` emits one line per slab it reaches, in slab order. */
  lemma {:induction false} SlabLinesShape(slabs: seq<TariffSlab>, labels: seq<string>, i: nat, remaining: nat)
    requires ValidSlabs(slabs) && |labels| == |slabs| && i <= |slabs|
    ensures LinesFollowSlabs(SlabLines(slabs, labels, i, remaining), slabs, labels, i)
    decreases |slabs| - i
  {
    if remaining > 0 && i < |slabs| {
      var t := Take(remaining, slabs[i]);
      SlabLinesShape(slabs, labels, i + 1, remaining - t);
      LinesFollowSlabsCons(SlabLine(labels[i], slabs[i], t), SlabLines(slabs, labels, i + 1, remaining - t), slabs, labels, i);
    }
  }

  /** A slab that takes fewer units than remain is finite and taken in full. */
  lemma TakeShort(remaining: nat, s: TariffSlab)
    requires ValidSlab(s) && Take(remaining, s) < remaining
    ensures s.max.Finite? && Take(remaining, s) == s.max.n - s.min + 1
  {
  }

  /** Prepending a slab's line keeps every line but the last full, provided
      the new line is full whenever lines follow it. */
  lemma FullBeforeLastCons(line: LineItem, rest: seq<LineItem>, slabs: seq<TariffSlab>, i: nat)
    requires FullBeforeLast(rest, slabs, i + 1)
    requires |rest| > 0 ==> i < |slabs| && slabs[i].max.Finite? && line.units == slabs[i].max.n - slabs[i].min + 1
    ensures FullBeforeLast([line] + rest, slabs, i)
  {
    var lines := [line] + rest;
    forall j | 0 <= j < |lines| - 1
      ensures i + j < |slabs| && slabs[i + j].max.Finite? &&
              lines[j].units == slabs[i + j].max.n - slabs[i + j].min + 1
    {
      if j > 0 {
        assert lines[j] == rest[j - 1];
        assert (i + 1) + (j - 1) == i + j;
      }
    }
  }

  /** Slabs are filled in ascending order: every slab before the last one
      reached is billed in full. */
  lemma {:induction false} SlabsFilledInOrder(slabs: seq<TariffSlab>, labels: seq<string>, i: nat, remaining: nat)
    requires ValidSlabs(slabs) && |labels| == |slabs| && i <= |slabs|
    ensures FullBeforeLast(SlabLines(slabs, labels, i, remaining), slabs, i)
    decreases |slabs| - i
  {
    if remaining > 0 && i < |slabs| {
      var t := Take(remaining, slabs[i]);
      var rest := SlabLines(slabs, labels, i + 1, remaining - t);
      SlabsFilledInOrder(slabs, labels, i + 1, remaining - t);
      if |rest| > 0 {
        assert remaining - t != 0;
        TakeShort(remaining, slabs[i]);
      }
      FullBeforeLastCons(SlabLine(labels[i], slabs[i], t), rest, slabs, i);
    }
  }

  /** Units are left over only once the walk has reached every slab from `i` on. */
  lemma {:induction false} LeftoverOnlyPastLastSlab(slabs: seq<TariffSlab>, labels: seq<string>, i: nat, remaining: nat)
    requires ValidSlabs(slabs) && |labels| == |slabs| && i <= |slabs|
    ensures Leftover(slabs, i, remaining) > 0 ==> |SlabLines(slabs, labels, i, remaining)| == |slabs| - i
    decreases |slabs| - i
  {
    if remaining > 0 && i < |slabs| {
      var t := Take(remaining, slabs[i]);
      LeftoverOnlyPastLastSlab(slabs, labels, i + 1, remaining - t);
      assert SlabLines(slabs, labels, i, remaining) == [SlabLine(labels[i], slabs[i], t)] + SlabLines(slabs, labels, i + 1, remaining - t);
    }
  }

  /** An open-ended slab absorbs whatever reaches it, so the walk leaves nothing over. */
  lemma {:induction false} OpenTopAbsorbsAll(slabs: seq<TariffSlab>, i: nat, remaining: nat)
    requires ValidSlabs(slabs) && i < |slabs| && slabs[|slabs| - 1].max.Unbounded?
    ensures Leftover(slabs, i, remaining) == 0
    decreases |slabs| - i
  {
    if remaining > 0 && i < |slabs| - 1 {
      OpenTopAbsorbsAll(slabs, i + 1, remaining - Take(remaining, slabs[i]));
    }
  }

  /** Units a finite slab holds. */
  function Width(s: TariffSlab): nat
    requires s.max.Finite? && ValidSlab(s)
  {
    s.max.n - s.min + 1
  }

  predicate AllFinite(slabs: seq<TariffSlab>)
  {
    forall j :: 0 <= j < |slabs| ==> slabs[j].max.Finite?
  }

  /** Units the slabs from `i` on can hold when none of them is open-ended. */
  function Capacity(slabs: seq<TariffSlab>, i: nat): nat
    requires ValidSlabs(slabs) && AllFinite(slabs) && i <= |slabs|
    decreases |slabs| - i
  {
    if i == |slabs| then 0 else Width(slabs[i]) + Capacity(slabs, i + 1)
  }

  /** For a table that tops out, the units left for the fallback are exactly
      those beyond the table's capacity. */
  lemma {:induction false} LeftoverBeyondCapacity(slabs: seq<TariffSlab>, i: nat, remaining: nat)
    requires ValidSlabs(slabs) && AllFinite(slabs) && i <= |slabs|
    ensures Leftover(slabs, i, remaining) ==
      if remaining > Capacity(slabs, i) then remaining - Capacity(slabs, i) else 0
    decreases |slabs| - i
  {
    if remaining > 0 && i < |slabs| {
      LeftoverBeyondCapacity(slabs, i + 1, remaining - Take(remaining, slabs[i]));
    }
  }

  /** With an open top slab there is no fallback: the breakdown is the slab
      lines alone and the energy charge is the walk's charge. */
  lemma NoExtraWithOpenTop(slabs: seq<TariffSlab>, kind: string, units: nat)
    requires WellFormedTable(slabs)
    ensures EnergyLines(slabs, kind, units) == SlabLines(slabs, SlabLabels(slabs, kind), 0, units)
    ensures EnergyCharge(slabs, units) == ChargeFrom(slabs, 0, units)
  {
    OpenTopAbsorbsAll(slabs, 0, units);
    var lines := SlabLines(slabs, SlabLabels(slabs, kind), 0, units);
    assert lines + [] == lines;
  }

  // ---------------------------------------------------------------------------
  // Progressive rating.
  // ---------------------------------------------------------------------------

  /** While the walk stays inside slab `i`, each unit costs that slab's rate. */
  lemma WalkWithinSlab(slabs: seq<TariffSlab>, i: nat, remaining: nat)
    requires ValidSlabs(slabs) && i < |slabs|
    requires slabs[i].max.Finite? ==> remaining <= slabs[i].max.n - slabs[i].min + 1
    ensures ChargeFrom(slabs, i, remaining) == Amount(remaining, slabs[i].rate)
  {
    if remaining > 0 {
      assert Take(remaining, slabs[i]) == remaining;
      assert ChargeFrom(slabs, i + 1, 0) == 0.0;
    }
  }

  /** Once slab `i` is full, the rest of the walk starts at slab `i + 1`. */
  lemma WalkPastSlab(slabs: seq<TariffSlab>, i: nat, remaining: nat)
    requires ValidSlabs(slabs) && i < |slabs| && slabs[i].max.Finite?
    requires remaining >= slabs[i].max.n - slabs[i].min + 1
    ensures var w := slabs[i].max.n - slabs[i].min + 1;
      ChargeFrom(slabs, i, remaining) == Amount(w, slabs[i].rate) + ChargeFrom(slabs, i + 1, remaining - w)
  {
    assert ValidSlab(slabs[i]);
  }

  /** Inside slab `i`, one more unit costs that slab's rate. */
  lemma WalkStepWithinSlab(slabs: seq<TariffSlab>, i: nat, remaining: nat)
    requires ValidSlabs(slabs) && i < |slabs|
    requires slabs[i].max.Finite? ==> remaining + 1 <= slabs[i].max.n - slabs[i].min + 1
    ensures ChargeFrom(slabs, i, remaining + 1) == ChargeFrom(slabs, i, remaining) + slabs[i].rate
  {
    WalkWithinSlab(slabs, i, remaining);
    WalkWithinSlab(slabs, i, remaining + 1);
    AmountStep(remaining, slabs[i].rate);
  }

  /** Along a well-formed table, the walk from slab `i` bills one more unit
      at the rate of the slab holding that unit. */
  lemma {:induction false} WalkMarginalUnit(slabs: seq<TariffSlab>, i: nat, remaining: nat, j: nat)
    requires WellFormedTable(slabs) && i < |slabs| && j < |slabs|
    requires Contains(slabs[j], slabs[i].min + remaining)
    ensures ChargeFrom(slabs, i, remaining + 1) == ChargeFrom(slabs, i, remaining) + slabs[j].rate
    decreases |slabs| - i
  {
    var s := slabs[i];
    assert ValidSlab(s);
    if s.max.Unbounded? || remaining + 1 <= s.max.n - s.min + 1 {
      assert Contains(s, s.min + remaining);
      SlabIndexMonotone(slabs, i, j, s.min + remaining, s.min + remaining);
      SlabIndexMonotone(slabs, j, i, s.min + remaining, s.min + remaining);
      WalkStepWithinSlab(slabs, i, remaining);
    } else {
      var w := s.max.n - s.min + 1;
      assert i < |slabs| - 1 && slabs[i + 1].min == s.max.n + 1;
      WalkPastSlab(slabs, i, remaining);
      WalkPastSlab(slabs, i, remaining + 1);
      assert remaining + 1 - w == (remaining - w) + 1;
      WalkMarginalUnit(slabs, i + 1, remaining - w, j);
    }
  }

  /** Progressive billing: the unit that takes a month from `units` to
      `units + 1` is billed at the rate of the slab that holds it. */
  lemma MarginalUnitRate(slabs: seq<TariffSlab>, units: nat, j: nat)
    requires WellFormedTable(slabs) && j < |slabs| && Contains(slabs[j], units + 1)
    ensures EnergyCharge(slabs, units + 1) == EnergyCharge(slabs, units) + slabs[j].rate
  {
    OpenTopAbsorbsAll(slabs, 0, units);
    OpenTopAbsorbsAll(slabs, 0, units + 1);
    WalkMarginalUnit(slabs, 0, units, j);
  }

  /** In a well-formed table with no negative rate, more units never cost
      less energy. */
  lemma {:induction false} EnergyChargeMonotone(slabs: seq<TariffSlab>, n: nat, m: nat)
    requires WellFormedTable(slabs) && NonNegativeCharges(slabs) && n <= m
    ensures EnergyCharge(slabs, n) <= EnergyCharge(slabs, m)
    decreases m - n
  {
    if n < m {
      EnergyChargeMonotone(slabs, n, m - 1);
      WellFormedCovers(slabs, m);
      var j :| 0 <= j < |slabs| && Contains(slabs[j], m);
      MarginalUnitRate(slabs, m - 1, j);
    }
  }

  /** Rates that rise between neighbours rise along the whole table. */
  lemma {:induction false} RateOrdered(slabs: seq<TariffSlab>, j: nat, l: nat)
    requires RatesStrictlyIncreasing(slabs)
    requires j <= l < |slabs|
    ensures slabs[j].rate <= slabs[l].rate
  {
    if j < l {
      RateOrdered(slabs, j, l - 1);
    }
  }

  /** With rising rates, a later unit is never billed below an earlier one:
      the energy charge is convex in the units. */
  lemma MarginalRateRises(slabs: seq<TariffSlab>, n: nat, m: nat)
    requires WellFormedTable(slabs) && RatesStrictlyIncreasing(slabs) && n <= m
    ensures EnergyCharge(slabs, n + 1) - EnergyCharge(slabs, n) <= EnergyCharge(slabs, m + 1) - EnergyCharge(slabs, m)
  {
    WellFormedCovers(slabs, n + 1);
    var j :| 0 <= j < |slabs| && Contains(slabs[j], n + 1);
    WellFormedCovers(slabs, m + 1);
    var l :| 0 <= l < |slabs| && Contains(slabs[l], m + 1);
    MarginalUnitRate(slabs, n, j);
    MarginalUnitRate(slabs, m, l);
    SlabIndexMonotone(slabs, j, l, n + 1, m + 1);
    RateOrdered(slabs, j, l);
  }

  // ---------------------------------------------------------------------------
  // Fixed charges.
  // ---------------------------------------------------------------------------

  /** In a well-formed table the lookup finds the one slab that holds the
      month's total, and the fixed charge is that slab's. */
  lemma FixedChargeOfContainingSlab(slabs: seq<TariffSlab>, j: nat, units: nat)
    requires WellFormedTable(slabs) && j < |slabs| && Contains(slabs[j], units)
    ensures FindIndex(slabs, units, 0) == Some(j)
    ensures FixedChargeFor(slabs, units) == slabs[j].fixedCharge
  {
    var r := FindIndex(slabs, units, 0);
    assert r.Some?;
    SlabIndexMonotone(slabs, r.value, j, units, units);
    SlabIndexMonotone(slabs, j, r.value, units, units);
  }

  /** No slab of a well-formed table holds zero units, so a month without
      import carries no fixed charge. */
  lemma FixedChargeAtZero(slabs: seq<TariffSlab>)
    requires WellFormedTable(slabs)
    ensures FindIndex(slabs, 0, 0) == None
    ensures FixedChargeFor(slabs, 0) == 0.0
  {
    forall l | 0 <= l < |slabs|
      ensures !Contains(slabs[l], 0)
    {
      if l > 0 {
        SlabsAscending(slabs, 0, l);
        assert ValidSlab(slabs[0]);
      }
    }
  }

  /** With fixed charges that never decrease along the table, a bigger month
      never carries a smaller fixed charge. */
  lemma FixedChargeMonotone(slabs: seq<TariffSlab>, n: nat, m: nat)
    requires WellFormedTable(slabs) && FixedChargesNondecreasing(slabs) && NonNegativeCharges(slabs)
    requires n <= m
    ensures FixedChargeFor(slabs, n) <= FixedChargeFor(slabs, m)
  {
    if m > 0 {
      WellFormedCovers(slabs, m);
      var l :| 0 <= l < |slabs| && Contains(slabs[l], m);
      FixedChargeOfContainingSlab(slabs, l, m);
      if n == 0 {
        FixedChargeAtZero(slabs);
      } else {
        WellFormedCovers(slabs, n);
        var j :| 0 <= j < |slabs| && Contains(slabs[j], n);
        FixedChargeOfContainingSlab(slabs, j, n);
        SlabIndexMonotone(slabs, j, l, n, m);
        FixedChargeOrdered(slabs, j, l);
      }
    }
  }
}
