/** The regulator's residential rate tables (A-1 general supply tariff) and
    the properties a rate table must have for progressive billing. */
module Tariffs {
  import opened Types

  /** Protected residential slabs; the 201-and-above slab is a what-if fallback. */
  const ProtectedSlabs: seq<TariffSlab> := [
    TariffSlab(1, Finite(100), 10.54, 0.0),
    TariffSlab(101, Finite(200), 13.01, 0.0),
    TariffSlab(201, Unbounded, 22.44, 0.0)
  ]

  /** Unprotected residential slabs. */
  const ResidentialSlabs: seq<TariffSlab> := [
    TariffSlab(1, Finite(100), 22.44, 0.0),
    TariffSlab(101, Finite(200), 28.91, 0.0),
    TariffSlab(201, Finite(300), 33.10, 0.0),
    TariffSlab(301, Finite(400), 37.99, 200.0),
    TariffSlab(401, Finite(500), 40.20, 400.0),
    TariffSlab(501, Finite(600), 41.62, 600.0),
    TariffSlab(601, Finite(700), 42.76, 800.0),
    TariffSlab(701, Unbounded, 47.69, 1000.0)
  ]

  /** Flat time-of-use rates and the monthly fixed charge. */
  datatype TouTariff = TouTariff(peak: real, offPeak: real, fixedMonthly: real)

  const TouRates: TouTariff := TouTariff(46.85, 40.53, 1000.0)

  /** Default buy-back price (national average energy purchase price). */
  const DefaultNaepp: real := 27.0

  /** A finite slab holds at least one unit. */
  predicate ValidSlab(s: TariffSlab)
  {
    s.max.Finite? ==> s.min <= s.max.n
  }

  predicate ValidSlabs(slabs: seq<TariffSlab>)
  {
    forall j :: 0 <= j < |slabs| ==> ValidSlab(slabs[j])
  }

  /** Contiguous, ascending, starting at 1, open-ended at the top:
      the table covers [1, infinity) without overlap. */
  predicate WellFormedTable(slabs: seq<TariffSlab>)
  {
    |slabs| > 0 &&
    ValidSlabs(slabs) &&
    slabs[0].min == 1 &&
    (forall j :: 0 <= j < |slabs| - 1 ==>
       slabs[j].max.Finite? && slabs[j].max.n + 1 == slabs[j + 1].min) &&
    slabs[|slabs| - 1].max.Unbounded?
  }

  predicate RatesStrictlyIncreasing(slabs: seq<TariffSlab>)
  {
    forall j :: 0 <= j < |slabs| - 1 ==> slabs[j].rate < slabs[j + 1].rate
  }

  predicate FixedChargesNondecreasing(slabs: seq<TariffSlab>)
  {
    forall j :: 0 <= j < |slabs| - 1 ==> slabs[j].fixedCharge <= slabs[j + 1].fixedCharge
  }

  predicate NonNegativeCharges(slabs: seq<TariffSlab>)
  {
    forall j :: 0 <= j < |slabs| ==> slabs[j].rate >= 0.0 && slabs[j].fixedCharge >= 0.0
  }

  /** The protected table is well formed, its rates strictly increase and
      all its fixed charges are zero. */
  lemma ProtectedTableShape()
    ensures WellFormedTable(ProtectedSlabs)
    ensures RatesStrictlyIncreasing(ProtectedSlabs)
    ensures NonNegativeCharges(ProtectedSlabs)
    ensures forall j :: 0 <= j < |ProtectedSlabs| ==> ProtectedSlabs[j].fixedCharge == 0.0
  {
  }

  /** The unprotected table is well formed. */
  lemma ResidentialWellFormed()
    ensures WellFormedTable(ResidentialSlabs)
  {
    var s := ResidentialSlabs;
    assert s[0].max.n + 1 == s[1].min && s[1].max.n + 1 == s[2].min && s[2].max.n + 1 == s[3].min;
    assert s[3].max.n + 1 == s[4].min && s[4].max.n + 1 == s[5].min && s[5].max.n + 1 == s[6].min;
    assert s[6].max.n + 1 == s[7].min;
  }

  /** The unprotected table's rates strictly increase. */
  lemma ResidentialRatesIncrease()
    ensures RatesStrictlyIncreasing(ResidentialSlabs)
  {
  }

  /** The unprotected table's fixed charges never decrease and no charge is negative. */
  lemma ResidentialCharges()
    ensures FixedChargesNondecreasing(ResidentialSlabs)
    ensures NonNegativeCharges(ResidentialSlabs)
  {
  }

  /** The time-of-use peak rate exceeds the off-peak rate; the fixed charge is 1000. */
  lemma TouRatesShape()
    ensures TouRates.peak > TouRates.offPeak > 0.0
    ensures TouRates.fixedMonthly == 1000.0
  {
  }

  /** In a well-formed table every earlier slab ends below every later slab's start. */
  lemma {:induction false} SlabsAscending(slabs: seq<TariffSlab>, j: nat, l: nat)
    requires WellFormedTable(slabs)
    requires j < l < |slabs|
    ensures slabs[j].max.Finite? && slabs[j].max.n < slabs[l].min
  {
    if l > j + 1 {
      SlabsAscending(slabs, j, l - 1);
      assert ValidSlab(slabs[l - 1]);
    }
  }

  /** Every unit count from 1 upwards lies in some slab of a well-formed table. */
  lemma {:induction false} WellFormedCovers(slabs: seq<TariffSlab>, units: nat)
    requires WellFormedTable(slabs)
    requires units >= 1
    ensures exists j :: 0 <= j < |slabs| && Contains(slabs[j], units)
  {
    var j := 0;
    while j < |slabs| - 1 && !Contains(slabs[j], units)
      invariant 0 <= j < |slabs|
      invariant slabs[j].min <= units
    {
      j := j + 1;
    }
    assert Contains(slabs[j], units);
  }

  /** A unit count lies in at most one slab, and a later count never lies
      in an earlier slab. */
  lemma SlabIndexMonotone(slabs: seq<TariffSlab>, j: nat, l: nat, n: nat, m: nat)
    requires WellFormedTable(slabs)
    requires j < |slabs| && l < |slabs|
    requires Contains(slabs[j], n) && Contains(slabs[l], m) && n <= m
    ensures j <= l
  {
    if l < j {
      SlabsAscending(slabs, l, j);
    }
  }

  /** Fixed charges that never decrease between neighbours never decrease at all. */
  lemma {:induction false} FixedChargeOrdered(slabs: seq<TariffSlab>, j: nat, l: nat)
    requires FixedChargesNondecreasing(slabs)
    requires j <= l < |slabs|
    ensures slabs[j].fixedCharge <= slabs[l].fixedCharge
  {
    if j < l {
      FixedChargeOrdered(slabs, j, l - 1);
    }
  }
}
