/**
 * The graduated-percentage charge model: usage is split over ordered tiers,
 * each tier adds a flat fee (when there is usage at all) and a percentage of
 * the units it bills; the tier in which usage ends also adds a fixed fee per
 * event and stops the walk.
 */
module GraduatedPercentage {
  import opened Wrappers

  /**
   * One entry of `graduated_percentage_ranges`. `toValue == None` is the
   * open-ended last tier; `rate` is in percentage points.
   */
  datatype PricingRange = PricingRange(
    fromValue: int,
    toValue: Option<int>,
    flatAmount: real,
    fixedAmount: real,
    rate: real)

  /** The walk stops at this tier: it is open-ended or its upper bound reaches the usage. */
  predicate Terminates(range: PricingRange, units: real)
  {
    range.toValue.None? || range.toValue.value as real >= units
  }

  /** The first unit a tier bills: a tier starting at 0 is taken to start at unit 1. */
  function FirstBilledUnit(fromValue: int): int
  {
    if fromValue == 0 then 1 else fromValue
  }

  /** The highest unit a tier bills: its upper bound, or the usage if that is lower. */
  function LastBilledUnit(toValue: Option<int>, units: real): real
  {
    if toValue.Some? && toValue.value as real <= units then toValue.value as real else units
  }

  /**
   * Units billed by one tier. Every branch bills the inclusive span from the
   * tier's first billable unit up to the highest unit reached in it; the second
   * branch repeats the guard of the first and is never taken.
   */
  function RangeUnits(fromValue: int, toValue: Option<int>, units: real): (r: real)
    ensures r == LastBilledUnit(toValue, units) - FirstBilledUnit(fromValue) as real + 1.0
  {
    var bounded := toValue.Some?;
    var to := if bounded then toValue.value else 0;
    if bounded && units >= to as real then
      (to - (if fromValue == 0 then 1 else fromValue) + 1) as real
    else if bounded && units >= to as real then
      assert false; (to - fromValue) as real
    else if fromValue == 0 then
      units
    else
      units - fromValue as real + 1.0
  }

  /** What one visited tier adds before the fixed fee: its flat fee if there is usage, plus its rate on its units. */
  function TierCharge(range: PricingRange, units: real): real
  {
    (if units != 0.0 then range.flatAmount else 0.0)
      + RangeUnits(range.fromValue, range.toValue, units) * range.rate / 100.0
  }

  /**
   * The amount of the charge, as the reduction over the tiers with its early
   * exit. It equals the closed form: each visited tier's flat fee exactly once
   * (and none at all without usage), each visited tier's rate on its units, and
   * the fixed fee of the terminating tier alone.
   */
  function Amount(ranges: seq<PricingRange>, units: real, count: int): (r: real)
    ensures r == ClosedForm(ranges, units, count)
  {
    if ranges == [] then 0.0
    else if Terminates(ranges[0], units) then
      ClosedFormAtTerminatingHead(ranges, units, count);
      TierCharge(ranges[0], units) + count as real * ranges[0].fixedAmount
    else
      ClosedFormStep(ranges, units, count);
      TierCharge(ranges[0], units) + Amount(ranges[1..], units, count)
  }

  /** The index of the tier the walk stops at, or `|ranges|` when no tier stops it. */
  function TerminatingIndex(ranges: seq<PricingRange>, units: real): (k: nat)
    ensures k <= |ranges|
    ensures k < |ranges| ==> Terminates(ranges[k], units)
    ensures forall j :: 0 <= j < k ==> !Terminates(ranges[j], units)
  {
    if ranges == [] then 0
    else if Terminates(ranges[0], units) then 0
    else 1 + TerminatingIndex(ranges[1..], units)
  }

  /** The tiers the walk visits: up to and including the terminating one. */
  function VisitedTiers(ranges: seq<PricingRange>, units: real): seq<PricingRange>
  {
    var k := TerminatingIndex(ranges, units);
    if k < |ranges| then ranges[..k + 1] else ranges
  }

  function FlatSum(ranges: seq<PricingRange>): real
  {
    if ranges == [] then 0.0 else ranges[0].flatAmount + FlatSum(ranges[1..])
  }

  function RateSum(ranges: seq<PricingRange>, units: real): real
  {
    if ranges == [] then 0.0
    else
      RangeUnits(ranges[0].fromValue, ranges[0].toValue, units) * ranges[0].rate / 100.0
        + RateSum(ranges[1..], units)
  }

  function BilledUnits(ranges: seq<PricingRange>, units: real): real
  {
    if ranges == [] then 0.0
    else RangeUnits(ranges[0].fromValue, ranges[0].toValue, units) + BilledUnits(ranges[1..], units)
  }

  /** `count` times the fixed fee of the terminating tier; nothing when no tier terminates. */
  function FixedFee(ranges: seq<PricingRange>, units: real, count: int): real
  {
    var k := TerminatingIndex(ranges, units);
    if k < |ranges| then count as real * ranges[k].fixedAmount else 0.0
  }

  /** `compute_amount`: walks the tiers, accumulating, and leaves the loop at the terminating tier. */
  method ComputeAmount(ranges: seq<PricingRange>, units: real, count: int) returns (amount: real)
    ensures amount == Amount(ranges, units, count)
  {
    amount := 0.0;
    var i := 0;
    ghost var total := Amount(ranges, units, count);
    ghost var rest := ranges;
    while i < |ranges|
      invariant 0 <= i <= |ranges|
      invariant rest == ranges[i..]
      invariant amount + Amount(rest, units, count) == total
    {
      var range := ranges[i];
      ghost var before := amount;
      if units != 0.0 {
        amount := amount + range.flatAmount;
      }
      ghost var flat := amount - before;
      var rangeUnits := RangeUnits(range.fromValue, range.toValue, units);
      amount := amount + rangeUnits * range.rate / 100.0;
      TierChargeParts(range, units, flat, rangeUnits);
      AmountUnfold(rest, units, count);
      if range.toValue.None? || range.toValue.value as real >= units {
        Rebalance(before, amount, TierCharge(range, units), count as real * range.fixedAmount, total);
        amount := amount + count as real * range.fixedAmount;
        return;
      }
      Rebalance(before, amount, TierCharge(range, units), Amount(rest[1..], units, count), total);
      rest := rest[1..];
      i := i + 1;
    }
  }

  /** What the walk adds up: flat fees (only with usage) and rates over the visited tiers, and the fixed fee. */
  function ClosedForm(ranges: seq<PricingRange>, units: real, count: int): real
  {
    var visited := VisitedTiers(ranges, units);
    (if units != 0.0 then FlatSum(visited) else 0.0) + RateSum(visited, units) + FixedFee(ranges, units, count)
  }

  /** A tier's charge is its flat part plus its rate on its units. */
  lemma TierChargeParts(range: PricingRange, units: real, flat: real, rangeUnits: real)
    requires flat == if units != 0.0 then range.flatAmount else 0.0
    requires rangeUnits == RangeUnits(range.fromValue, range.toValue, units)
    ensures TierCharge(range, units) == flat + rangeUnits * range.rate / 100.0
  {
  }

  /** Moving one tier's charge from the rest of the walk into the running amount keeps the sum. */
  lemma Rebalance(before: real, after: real, charge: real, tail: real, total: real)
    requires before + (charge + tail) == total
    requires after == before + charge
    ensures after + tail == total
  {
  }

  /** The reduction's first step: the first tier's charge, then its fixed fee or the rest of the walk. */
  lemma AmountUnfold(ranges: seq<PricingRange>, units: real, count: int)
    requires ranges != []
    ensures Amount(ranges, units, count)
      == TierCharge(ranges[0], units)
       + if Terminates(ranges[0], units) then count as real * ranges[0].fixedAmount
         else Amount(ranges[1..], units, count)
  {
  }

  lemma ClosedFormAtTerminatingHead(ranges: seq<PricingRange>, units: real, count: int)
    requires ranges != [] && Terminates(ranges[0], units)
    ensures ClosedForm(ranges, units, count)
      == TierCharge(ranges[0], units) + count as real * ranges[0].fixedAmount
  {
    var visited := VisitedTiers(ranges, units);
    assert visited == [ranges[0]] && visited[1..] == [];
    assert FlatSum(visited) == ranges[0].flatAmount;
    assert RateSum(visited, units)
      == RangeUnits(ranges[0].fromValue, ranges[0].toValue, units) * ranges[0].rate / 100.0;
    assert FixedFee(ranges, units, count) == count as real * ranges[0].fixedAmount;
  }

  lemma ClosedFormStep(ranges: seq<PricingRange>, units: real, count: int)
    requires ranges != [] && !Terminates(ranges[0], units)
    ensures ClosedForm(ranges, units, count)
      == TierCharge(ranges[0], units) + ClosedForm(ranges[1..], units, count)
  {
    var visited := VisitedTiers(ranges, units);
    var rest := ranges[1..];
    VisitedTiersStep(ranges, units);
    assert visited[0] == ranges[0] && visited[1..] == VisitedTiers(rest, units);
    assert FixedFee(ranges, units, count) == FixedFee(rest, units, count);
  }

  /** Without usage no flat fee is added, whatever the tiers' flat amounts. */
  lemma {:induction false} ZeroUsageAddsNoFlatFee(ranges: seq<PricingRange>, units: real, count: int)
    requires units == 0.0
    ensures Amount(ranges, units, count)
      == RateSum(VisitedTiers(ranges, units), units) + FixedFee(ranges, units, count)
  {
  }

  /** With usage, the flat fee of every visited tier, the terminating one included, is added once. */
  lemma {:induction false} UsageAddsEachVisitedFlatFee(ranges: seq<PricingRange>, units: real, count: int)
    requires units != 0.0
    ensures Amount(ranges, units, count)
      == FlatSum(VisitedTiers(ranges, units)) + RateSum(VisitedTiers(ranges, units), units)
       + FixedFee(ranges, units, count)
  {
  }

  /** When no tier terminates the walk, every tier is visited and no fixed fee is added. */
  lemma {:induction false} NoTerminatingTier(ranges: seq<PricingRange>, units: real, count: int)
    requires forall j :: 0 <= j < |ranges| ==> !Terminates(ranges[j], units)
    ensures Amount(ranges, units, count)
      == (if units != 0.0 then FlatSum(ranges) else 0.0) + RateSum(ranges, units)
  {
  }

  /** Tiers after the terminating one contribute nothing. */
  lemma {:induction false} LaterTiersIgnored(ranges: seq<PricingRange>, later: seq<PricingRange>, units: real, count: int)
    requires TerminatingIndex(ranges, units) < |ranges|
    ensures Amount(ranges + later, units, count) == Amount(ranges, units, count)
  {
    if !Terminates(ranges[0], units) {
      assert (ranges + later)[1..] == ranges[1..] + later;
      LaterTiersIgnored(ranges[1..], later, units, count);
    }
  }

  /** Tiers whose fees and rates are all zero cost nothing. */
  lemma {:induction false} FreeTiersCostNothing(ranges: seq<PricingRange>, units: real, count: int)
    requires forall j :: 0 <= j < |ranges| ==>
      ranges[j].flatAmount == 0.0 && ranges[j].fixedAmount == 0.0 && ranges[j].rate == 0.0
    ensures Amount(ranges, units, count) == 0.0
  {
    if ranges != [] && !Terminates(ranges[0], units) {
      FreeTiersCostNothing(ranges[1..], units, count);
    }
  }

  /**
   * Tiers starting at `fromValue`, each upper bound the next tier's lower bound,
   * strictly ascending, the last one open-ended.
   */
  predicate ContiguousTiers(ranges: seq<PricingRange>)
  {
    |ranges| > 0
    && ranges[|ranges| - 1].toValue.None?
    && (forall i :: 0 <= i < |ranges| - 1 ==>
          ranges[i].toValue == Some(ranges[i + 1].fromValue) && ranges[i].fromValue < ranges[i + 1].fromValue)
  }

  /** A well-formed tier table: contiguous tiers whose first one starts at 0. */
  predicate WellFormed(ranges: seq<PricingRange>)
  {
    ContiguousTiers(ranges) && ranges[0].fromValue == 0
  }

  lemma {:induction false} ContiguousTail(ranges: seq<PricingRange>)
    requires ContiguousTiers(ranges) && |ranges| > 1
    ensures ContiguousTiers(ranges[1..])
    ensures ranges[1..][0].fromValue == ranges[0].toValue.value
  {
    var tail := ranges[1..];
    forall i | 0 <= i < |tail| - 1
      ensures tail[i].toValue == Some(tail[i + 1].fromValue) && tail[i].fromValue < tail[i + 1].fromValue
    {
      assert tail[i] == ranges[i + 1] && tail[i + 1] == ranges[i + 2];
    }
  }

  /** Contiguous tiers starting above 0 bill `units - from + 1` over the tiers visited, plus one per boundary crossed. */
  lemma {:induction false} ContiguousBilledUnits(ranges: seq<PricingRange>, units: real)
    requires ContiguousTiers(ranges) && ranges[0].fromValue > 0
    ensures BilledUnits(VisitedTiers(ranges, units), units)
      == units - ranges[0].fromValue as real + (|VisitedTiers(ranges, units)| - 1) as real + 1.0
  {
    var visited := VisitedTiers(ranges, units);
    if Terminates(ranges[0], units) {
      assert visited == [ranges[0]];
      assert visited[1..] == [];
    } else {
      assert |ranges| > 1;
      var rest := ranges[1..];
      ContiguousTail(ranges);
      ContiguousBilledUnits(rest, units);
      VisitedTiersStep(ranges, units);
    }
  }

  lemma {:induction false} VisitedTiersStep(ranges: seq<PricingRange>, units: real)
    requires ranges != [] && !Terminates(ranges[0], units)
    ensures VisitedTiers(ranges, units) == [ranges[0]] + VisitedTiers(ranges[1..], units)
  {
    var rest := ranges[1..];
    var k := TerminatingIndex(rest, units);
    if k < |rest| {
      assert ranges[..k + 2] == [ranges[0]] + rest[..k + 1];
    } else {
      assert ranges == [ranges[0]] + rest;
    }
  }

  /**
   * The boundary arithmetic bills `units` once plus one extra unit for every
   * tier boundary the usage crosses: a boundary unit is counted in both tiers.
   */
  lemma {:induction false} BoundaryUnitsCountedTwice(ranges: seq<PricingRange>, units: real)
    requires WellFormed(ranges)
    ensures |VisitedTiers(ranges, units)| >= 1
    ensures BilledUnits(VisitedTiers(ranges, units), units)
      == units + (|VisitedTiers(ranges, units)| - 1) as real
  {
    var visited := VisitedTiers(ranges, units);
    if Terminates(ranges[0], units) {
      assert visited == [ranges[0]];
      assert visited[1..] == [];
    } else {
      assert |ranges| > 1;
      ContiguousTail(ranges);
      ContiguousBilledUnits(ranges[1..], units);
      VisitedTiersStep(ranges, units);
    }
  }

  /**
   * Tiers 0..10 at 5% and 10.. at 3%, no flat or fixed fees, 15 units and one
   * event: 10 units at 5% plus 6 units at 3%.
   */
  lemma WorkedExample()
    ensures RangeUnits(0, Some(10), 15.0) == 10.0
    ensures RangeUnits(10, None, 15.0) == 6.0
    ensures Amount([PricingRange(0, Some(10), 0.0, 0.0, 5.0), PricingRange(10, None, 0.0, 0.0, 3.0)], 15.0, 1) == 0.68
  {
  }
}
