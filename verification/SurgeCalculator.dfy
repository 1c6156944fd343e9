/** The surge multiplier as a function of occupancy and configuration. */
module SurgeCalculator {
  import opened Outcomes
  import opened Rounding
  import opened SurgeConfig
  import opened Quotes

  datatype SurgeInput = SurgeInput(
    occupiedSlots: nat,
    totalSlots: int,
    isPeakHour: bool,
    isWeekend: bool,
    isHolidayOrEvent: bool,
    config: Config)

  datatype SurgeResult = SurgeResult(
    multiplierBp: int,
    badge: Option<Badge>,
    occupancyBp: nat,
    appliedModifiers: seq<Modifier>)

  function OccupancyBpOf(occupied: nat, total: int): nat
  {
    if total <= 0 then 0 else RoundHalfUp(occupied * BASIS_POINTS, total)
  }

  function ApplyModifier(multiplierBp: nat, modifierBp: nat): nat
  {
    RoundHalfUp(multiplierBp * modifierBp, BASIS_POINTS)
  }

  // ----- The two scanning loops

  /** Occupancy strictly above the tier's threshold, compared without dividing. */
  predicate Reached(occupied: nat, total: int, t: Tier)
  {
    occupied * BASIS_POINTS > t.minOccupancyBp * total
  }

  /** The highest tier, among the first `n`, that occupancy has reached; the floor if none. */
  function LastReached(occupied: nat, total: int, ladder: seq<Tier>, n: nat): (k: nat)
    requires n <= |ladder| && ladder != []
    ensures k < |ladder|
  {
    if n == 0 then 0
    else if Reached(occupied, total, ladder[n - 1]) then n - 1
    else LastReached(occupied, total, ladder, n - 1)
  }

  /** The highest tier, among the first `n`, at or below a value; the floor if none. */
  function LastAtOrBelow(value: int, ladder: seq<Tier>, n: nat): (k: nat)
    requires n <= |ladder| && ladder != []
    ensures k < |ladder|
  {
    if n == 0 then 0
    else if ladder[n - 1].multiplierBp <= value then n - 1
    else LastAtOrBelow(value, ladder, n - 1)
  }

  function BaseTier(occupied: nat, total: int, ladder: seq<Tier>): Tier
    requires ladder != []
  {
    if total <= 0 then ladder[0] else ladder[LastReached(occupied, total, ladder, |ladder|)]
  }

  function SnappedTier(value: int, ladder: seq<Tier>): Tier
    requires ladder != []
  {
    ladder[LastAtOrBelow(value, ladder, |ladder|)]
  }

  method TierForOccupancy(occupied: nat, total: int, ladder: seq<Tier>) returns (tier: Tier)
    requires ladder != []
    ensures tier == BaseTier(occupied, total, ladder)
  {
    var floor := ladder[0];
    if total <= 0 {
      return floor;
    }
    tier := floor;
    for i := 0 to |ladder|
      invariant tier == ladder[LastReached(occupied, total, ladder, i)]
    {
      if occupied * BASIS_POINTS > ladder[i].minOccupancyBp * total {
        tier := ladder[i];
      }
    }
  }

  method SnapDownToTier(value: int, ladder: seq<Tier>) returns (tier: Tier)
    requires ladder != []
    ensures tier == SnappedTier(value, ladder)
  {
    tier := ladder[0];
    for i := 0 to |ladder|
      invariant tier == ladder[LastAtOrBelow(value, ladder, i)]
    {
      if ladder[i].multiplierBp <= value {
        tier := ladder[i];
      }
    }
  }

  // ----- The calculation

  function Escalated(base: nat, input: SurgeInput): nat
    requires ConfigShape(input.config)
  {
    var afterPeak := if input.isPeakHour then ApplyModifier(base, input.config.peakHourModifierBp) else base;
    var afterWeekend :=
      if input.isWeekend then ApplyModifier(afterPeak, input.config.weekendModifierBp) else afterPeak;
    if input.isHolidayOrEvent then ApplyModifier(afterWeekend, input.config.eventModifierBp) else afterWeekend
  }

  function Applied(input: SurgeInput): seq<Modifier>
  {
    (if input.isPeakHour then [PeakHour] else [])
    + (if input.isWeekend then [Weekend] else [])
    + (if input.isHolidayOrEvent then [HolidayOrEvent] else [])
  }

  function Min(a: int, b: int): int
  {
    if a <= b then a else b
  }

  function Surge(input: SurgeInput): SurgeResult
    requires ConfigShape(input.config)
  {
    var ladder := input.config.tiers;
    var occupancyBp := OccupancyBpOf(input.occupiedSlots, input.totalSlots);
    var base := BaseTier(input.occupiedSlots, input.totalSlots, ladder);
    if base.multiplierBp == NO_SURGE_BP then SurgeResult(NO_SURGE_BP, None, occupancyBp, [])
    else
      assert base in ladder;
      var final := SnappedTier(Min(Escalated(base.multiplierBp, input), input.config.maxMultiplierBp), ladder);
      if final.multiplierBp == NO_SURGE_BP then SurgeResult(NO_SURGE_BP, None, occupancyBp, [])
      else SurgeResult(final.multiplierBp, final.badge, occupancyBp, Applied(input))
  }

  method CalculateSurge(input: SurgeInput) returns (r: SurgeResult)
    requires ConfigShape(input.config)
    ensures r == Surge(input)
  {
    var config := input.config;
    var ladder := config.tiers;
    var occupancyBp := OccupancyBpOf(input.occupiedSlots, input.totalSlots);
    var baseTier := TierForOccupancy(input.occupiedSlots, input.totalSlots, ladder);
    if baseTier.multiplierBp == NO_SURGE_BP {
      return SurgeResult(NO_SURGE_BP, None, occupancyBp, []);
    }
    assert baseTier in ladder;
    var appliedModifiers: seq<Modifier> := [];
    var escalatedBp: nat := baseTier.multiplierBp;
    if input.isPeakHour {
      escalatedBp := ApplyModifier(escalatedBp, config.peakHourModifierBp);
      appliedModifiers := appliedModifiers + [PeakHour];
    }
    if input.isWeekend {
      escalatedBp := ApplyModifier(escalatedBp, config.weekendModifierBp);
      appliedModifiers := appliedModifiers + [Weekend];
    }
    if input.isHolidayOrEvent {
      escalatedBp := ApplyModifier(escalatedBp, config.eventModifierBp);
      appliedModifiers := appliedModifiers + [HolidayOrEvent];
    }
    var cappedBp := Min(escalatedBp, config.maxMultiplierBp);
    var finalTier := SnapDownToTier(cappedBp, ladder);
    var noSurge := finalTier.multiplierBp == NO_SURGE_BP;
    r := SurgeResult(
      finalTier.multiplierBp,
      if noSurge then None else finalTier.badge,
      occupancyBp,
      if noSurge then [] else appliedModifiers);
  }

  // ----- What the loops find

  /** A lower threshold is reached whenever a higher one is. */
  lemma ReachedBelow(occupied: nat, total: int, low: Tier, high: Tier)
    requires total > 0 && low.minOccupancyBp <= high.minOccupancyBp
    requires Reached(occupied, total, high)
    ensures Reached(occupied, total, low)
  {
    MulLe(low.minOccupancyBp, high.minOccupancyBp, total);
  }

  lemma {:induction false} LastReachedIsLast(occupied: nat, total: int, ladder: seq<Tier>, n: nat)
    requires n <= |ladder| && ladder != []
    ensures var k := LastReached(occupied, total, ladder, n);
      && (k > 0 ==> Reached(occupied, total, ladder[k]))
      && (forall j :: k < j < n ==> !Reached(occupied, total, ladder[j]))
  {
    if n == 0 || Reached(occupied, total, ladder[n - 1]) {
    } else {
      LastReachedIsLast(occupied, total, ladder, n - 1);
    }
  }

  /**
   * On an ascending ladder the loop finds the highest tier whose threshold is strictly below the
   * exact occupancy: every tier up to it is reached, and none above it.
   */
  lemma BaseTierIsHighestReached(occupied: nat, total: int, ladder: seq<Tier>, j: nat)
    requires LadderValid(ladder) && total > 0 && 0 < j < |ladder|
    ensures Reached(occupied, total, ladder[j])
      <==> ladder[j].multiplierBp <= BaseTier(occupied, total, ladder).multiplierBp
  {
    var k := LastReached(occupied, total, ladder, |ladder|);
    LastReachedIsLast(occupied, total, ladder, |ladder|);
    if j < k {
      LadderAscends(ladder, j, k);
      ReachedBelow(occupied, total, ladder[j], ladder[k]);
    } else if k < j {
      LadderAscends(ladder, k, j);
    }
  }

  lemma {:induction false} LastAtOrBelowIsLast(value: int, ladder: seq<Tier>, n: nat)
    requires n <= |ladder| && ladder != []
    ensures var k := LastAtOrBelow(value, ladder, n);
      && (k > 0 ==> ladder[k].multiplierBp <= value)
      && (forall j :: k < j < n ==> ladder[j].multiplierBp > value)
  {
    if n == 0 || ladder[n - 1].multiplierBp <= value {
    } else {
      LastAtOrBelowIsLast(value, ladder, n - 1);
    }
  }

  /** Snapping finds the greatest multiplier on the ladder that does not exceed the value. */
  lemma SnapIsGreatestBelow(value: int, ladder: seq<Tier>, j: nat)
    requires LadderValid(ladder) && value >= NO_SURGE_BP && j < |ladder|
    ensures SnappedTier(value, ladder) in ladder
    ensures SnappedTier(value, ladder).multiplierBp <= value
    ensures ladder[j].multiplierBp <= value <==> ladder[j].multiplierBp <= SnappedTier(value, ladder).multiplierBp
  {
    var k := LastAtOrBelow(value, ladder, |ladder|);
    LastAtOrBelowIsLast(value, ladder, |ladder|);
    if j < k {
      LadderAscends(ladder, j, k);
    } else if k < j {
      LadderAscends(ladder, k, j);
    }
  }

  /** The published occupancy agrees with the exact choice, up to the half point it is rounded by. */
  lemma OccupancyBpAgrees(occupied: nat, total: int, t: Tier)
    requires total > 0 && 0 <= t.minOccupancyBp
    ensures OccupancyBpOf(occupied, total) > t.minOccupancyBp ==> Reached(occupied, total, t)
    ensures Reached(occupied, total, t) ==> OccupancyBpOf(occupied, total) >= t.minOccupancyBp
  {
    var q, m := OccupancyBpOf(occupied, total), t.minOccupancyBp;
    RoundHalfUpIff(occupied * BASIS_POINTS, total, q);
    if q > m {
      MulLe(m + 1, q, total);
    } else if q < m {
      MulLe(q + 1, m, total);
    }
  }

  // ----- What the result promises

  lemma ModifierNeverLowers(m: nat, modifierBp: nat)
    requires modifierBp >= NO_SURGE_BP
    ensures ApplyModifier(m, modifierBp) >= m
  {
    RoundHalfUpExact(m, BASIS_POINTS);
    MulLe(BASIS_POINTS, modifierBp, m);
    RoundHalfUpMonotone(m * BASIS_POINTS, BASIS_POINTS, m * modifierBp, BASIS_POINTS);
  }

  lemma ModifierMonotone(a: nat, b: nat, modifierBp: nat)
    requires a <= b
    ensures ApplyModifier(a, modifierBp) <= ApplyModifier(b, modifierBp)
  {
    MulLe(a, b, modifierBp);
    RoundHalfUpMonotone(a * modifierBp, BASIS_POINTS, b * modifierBp, BASIS_POINTS);
  }

  lemma EscalationNeverLowers(base: nat, input: SurgeInput)
    requires ConfigShape(input.config)
    ensures Escalated(base, input) >= base
  {
    var afterPeak := if input.isPeakHour then ApplyModifier(base, input.config.peakHourModifierBp) else base;
    var afterWeekend :=
      if input.isWeekend then ApplyModifier(afterPeak, input.config.weekendModifierBp) else afterPeak;
    ModifierNeverLowers(base, input.config.peakHourModifierBp);
    ModifierNeverLowers(afterPeak, input.config.weekendModifierBp);
    ModifierNeverLowers(afterWeekend, input.config.eventModifierBp);
  }

  /** The exact factor a modifier stands for: itself when its flag is set, 1.0x when it is not. */
  function Factor(flag: bool, modifierBp: nat): nat
  {
    if flag then modifierBp else BASIS_POINTS
  }

  lemma StageIsNearest(m: nat, flag: bool, modifierBp: nat, out: nat)
    requires out == if flag then ApplyModifier(m, modifierBp) else m
    ensures -BASIS_POINTS <= 2 * (BASIS_POINTS * out - m * Factor(flag, modifierBp)) <= BASIS_POINTS
  {
    if flag {
      RoundHalfUpIff(m * modifierBp, BASIS_POINTS, out);
    }
  }

  /** A second rounding on top of an error of at most `err` halves, scaled by a factor of at most 2. */
  lemma StageError(scale: nat, x: int, exact: int, factor: nat, out: int, err: int)
    requires factor <= 2 * BASIS_POINTS && err >= 0
    requires -err <= 2 * (scale * x - exact) <= err
    requires -BASIS_POINTS <= 2 * (BASIS_POINTS * out - x * factor) <= BASIS_POINTS
    ensures -(scale * BASIS_POINTS + err * (2 * BASIS_POINTS))
      <= 2 * (scale * BASIS_POINTS * out - exact * factor)
      <= scale * BASIS_POINTS + err * (2 * BASIS_POINTS)
  {
    var a, b := 2 * (BASIS_POINTS * out - x * factor), 2 * (scale * x - exact);
    ErrorProducts(scale, x, exact, factor, out, a, b);
    MulLe(a, BASIS_POINTS, scale);
    MulLe(-BASIS_POINTS, a, scale);
    MulLe(b, err, factor);
    MulLe(-err, b, factor);
    MulLe(factor, 2 * BASIS_POINTS, err);
  }

  lemma ErrorProducts(scale: int, x: int, exact: int, factor: int, out: int, a: int, b: int)
    requires a == 2 * (BASIS_POINTS * out - x * factor) && b == 2 * (scale * x - exact)
    ensures a * scale + b * factor == 2 * (scale * BASIS_POINTS * out - exact * factor)
  {
    assert a * scale == 2 * (BASIS_POINTS * out * scale) - 2 * (x * factor * scale);
    assert b * factor == 2 * (scale * x * factor) - 2 * (exact * factor);
    assert x * factor * scale == scale * x * factor;
  }

  /** Three roundings in a row stay within 3.5 basis points of the exact product of the factors. */
  lemma EscalationIsTheProduct(base: nat, input: SurgeInput)
    requires ConfigShape(input.config)
    ensures var c := input.config;
      var exact := base * Factor(input.isPeakHour, c.peakHourModifierBp)
        * Factor(input.isWeekend, c.weekendModifierBp) * Factor(input.isHolidayOrEvent, c.eventModifierBp);
      -7_000_000_000_000 <= 2 * (1_000_000_000_000 * Escalated(base, input) - exact) <= 7_000_000_000_000
  {
    var c := input.config;
    var p := if input.isPeakHour then ApplyModifier(base, c.peakHourModifierBp) else base;
    var w := if input.isWeekend then ApplyModifier(p, c.weekendModifierBp) else p;
    var e := if input.isHolidayOrEvent then ApplyModifier(w, c.eventModifierBp) else w;
    var f1 := Factor(input.isPeakHour, c.peakHourModifierBp);
    var f2 := Factor(input.isWeekend, c.weekendModifierBp);
    var f3 := Factor(input.isHolidayOrEvent, c.eventModifierBp);
    StageIsNearest(base, input.isPeakHour, c.peakHourModifierBp, p);
    StageIsNearest(p, input.isWeekend, c.weekendModifierBp, w);
    StageIsNearest(w, input.isHolidayOrEvent, c.eventModifierBp, e);
    StageError(10_000, p, base * f1, f2, w, 10_000);
    StageError(100_000_000, w, base * f1 * f2, f3, e, 300_000_000);
  }

  /**
   * Every configuration gives a ladder multiplier within the cap, a badge exactly above 1.0x, and a
   * snapshot the schema accepts; so the price it feeds into never throws for a surge out of range.
   */
  lemma SurgeIsExplainable(input: SurgeInput)
    requires ConfigShape(input.config)
    requires input.totalSlots > 0 ==> input.occupiedSlots <= input.totalSlots
    ensures var r := Surge(input);
      && (exists i :: 0 <= i < |input.config.tiers|
            && input.config.tiers[i].multiplierBp == r.multiplierBp
            && (r.badge.Some? ==> r.badge == input.config.tiers[i].badge))
      && r.multiplierBp <= input.config.maxMultiplierBp
      && (r.badge.None? <==> r.multiplierBp == NO_SURGE_BP)
      && (r.multiplierBp == NO_SURGE_BP ==> r.appliedModifiers == [])
      && SnapshotValid(r.multiplierBp, r.badge, r.occupancyBp)
      && SurgeInRange(r.multiplierBp)
  {
    var ladder := input.config.tiers;
    OccupancyInBounds(input.occupiedSlots, input.totalSlots);
    var base := BaseTier(input.occupiedSlots, input.totalSlots, ladder);
    if base.multiplierBp == NO_SURGE_BP {
      assert ladder[0].multiplierBp == NO_SURGE_BP;
    } else {
      assert base in ladder;
      EscalationNeverLowers(base.multiplierBp, input);
      var capped := Min(Escalated(base.multiplierBp, input), input.config.maxMultiplierBp);
      SnapIsGreatestBelow(capped, ladder, 0);
    }
  }

  lemma OccupancyInBounds(occupied: nat, total: int)
    requires total > 0 ==> occupied <= total
    ensures OccupancyBpOf(occupied, total) <= BASIS_POINTS
  {
    if total > 0 {
      RoundHalfUpExact(BASIS_POINTS, total);
      MulLe(occupied, total, BASIS_POINTS);
      MulLe(occupied * BASIS_POINTS, BASIS_POINTS * total, total);
      RoundHalfUpMonotone(occupied * BASIS_POINTS, total, BASIS_POINTS * total, total);
    }
  }

  /** The order in which the modifiers are applied, and listed. */
  function Turn(m: Modifier): nat
  {
    match m
    case PeakHour => 0
    case Weekend => 1
    case HolidayOrEvent => 2
  }

  /**
   * Above 1.0x the result lists exactly the modifiers whose flags are set, each once and in the order
   * they are applied; at 1.0x, none.
   */
  lemma ModifiersAreTheFlags(input: SurgeInput)
    requires ConfigShape(input.config)
    ensures var r := Surge(input);
      && (r.multiplierBp != NO_SURGE_BP ==>
            && (PeakHour in r.appliedModifiers <==> input.isPeakHour)
            && (Weekend in r.appliedModifiers <==> input.isWeekend)
            && (HolidayOrEvent in r.appliedModifiers <==> input.isHolidayOrEvent))
      && (r.multiplierBp == NO_SURGE_BP ==> r.appliedModifiers == [])
      && forall i, j :: 0 <= i < j < |r.appliedModifiers| ==>
           Turn(r.appliedModifiers[i]) < Turn(r.appliedModifiers[j])
  {
  }

  /** The result states the nearest basis point to the exact occupancy, a half going up; zero without slots. */
  lemma OccupancyIsNearest(input: SurgeInput, q: int)
    requires ConfigShape(input.config)
    ensures q == Surge(input).occupancyBp
      <==> if input.totalSlots <= 0 then q == 0
           else 0 - input.totalSlots
                <= 2 * (input.occupiedSlots * BASIS_POINTS - input.totalSlots * q) < input.totalSlots
  {
    if input.totalSlots > 0 {
      RoundHalfUpIff(input.occupiedSlots * BASIS_POINTS, input.totalSlots, q);
    }
  }

  /** The result is the highest tier within both the escalated value and the cap, unless at the floor. */
  lemma SurgeIsHighestAllowed(input: SurgeInput, j: nat)
    requires ConfigShape(input.config) && j < |input.config.tiers|
    requires BaseTier(input.occupiedSlots, input.totalSlots, input.config.tiers).multiplierBp != NO_SURGE_BP
    ensures var base := BaseTier(input.occupiedSlots, input.totalSlots, input.config.tiers);
      input.config.tiers[j].multiplierBp <= Surge(input).multiplierBp
      <==> input.config.tiers[j].multiplierBp <= Min(Escalated(base.multiplierBp, input), input.config.maxMultiplierBp)
  {
    var base := BaseTier(input.occupiedSlots, input.totalSlots, input.config.tiers);
    assert base in input.config.tiers;
    EscalationNeverLowers(base.multiplierBp, input);
    SnapIsGreatestBelow(
      Min(Escalated(base.multiplierBp, input), input.config.maxMultiplierBp), input.config.tiers, j);
  }

  /** The price is never below the tier the occupancy earned, unless the zone's cap is. */
  lemma SurgeNeverBelowBase(input: SurgeInput)
    requires ConfigValid(input.config)
    ensures Surge(input).multiplierBp
      >= Min(BaseTier(input.occupiedSlots, input.totalSlots, input.config.tiers).multiplierBp,
             input.config.maxMultiplierBp)
  {
    var ladder := input.config.tiers;
    var base := BaseTier(input.occupiedSlots, input.totalSlots, ladder);
    if base.multiplierBp != NO_SURGE_BP {
      assert base in ladder;
      var i :| 0 <= i < |ladder| && ladder[i] == base;
      var cap :| 0 <= cap < |ladder| && ladder[cap].multiplierBp == input.config.maxMultiplierBp;
      EscalationNeverLowers(base.multiplierBp, input);
      SurgeIsHighestAllowed(input, i);
      SurgeIsHighestAllowed(input, cap);
    }
  }

  /** Modifiers escalate a surge; they never create one. */
  lemma ModifiersNeverLiftTheFloor(input: SurgeInput)
    requires ConfigShape(input.config)
    requires BaseTier(input.occupiedSlots, input.totalSlots, input.config.tiers).multiplierBp == NO_SURGE_BP
    ensures forall peak, weekend, event ::
      Surge(input.(isPeakHour := peak, isWeekend := weekend, isHolidayOrEvent := event))
      == SurgeResult(NO_SURGE_BP, None, OccupancyBpOf(input.occupiedSlots, input.totalSlots), [])
  {
  }

  // ----- Monotonicity

  /** One zone is at most as full as another, as exact fractions; a zone with no slots is empty. */
  predicate AtMostAsFull(a: SurgeInput, b: SurgeInput)
  {
    if a.totalSlots <= 0 || a.occupiedSlots == 0 then true
    else b.totalSlots > 0 && a.occupiedSlots * b.totalSlots <= b.occupiedSlots * a.totalSlots
  }

  predicate NoMorePressure(a: SurgeInput, b: SurgeInput)
  {
    && (a.isPeakHour ==> b.isPeakHour)
    && (a.isWeekend ==> b.isWeekend)
    && (a.isHolidayOrEvent ==> b.isHolidayOrEvent)
  }

  lemma ReachedMonotone(o1: nat, t1: int, o2: nat, t2: int, tier: Tier)
    requires t1 > 0 && t2 > 0 && o1 * t2 <= o2 * t1
    requires 0 <= tier.minOccupancyBp && Reached(o1, t1, tier)
    ensures Reached(o2, t2, tier)
  {
    var m := tier.minOccupancyBp;
    if o2 * BASIS_POINTS <= m * t2 {
      MulLe(o2 * BASIS_POINTS, m * t2, t1);
      MulLe(o1 * t2, o2 * t1, BASIS_POINTS);
      MulLe(m * t1 + 1, o1 * BASIS_POINTS, t2);
      FourProducts(o1, t1, o2, t2, m);
      assert false;
    }
  }

  lemma FourProducts(o1: int, t1: int, o2: int, t2: int, m: int)
    ensures o2 * BASIS_POINTS * t1 == o2 * t1 * BASIS_POINTS
    ensures o1 * BASIS_POINTS * t2 == o1 * t2 * BASIS_POINTS
    ensures (m * t1 + 1) * t2 == m * t2 * t1 + t2
  {
  }

  lemma BaseTierMonotone(a: SurgeInput, b: SurgeInput)
    requires ConfigShape(a.config) && a.config == b.config && AtMostAsFull(a, b)
    ensures BaseTier(a.occupiedSlots, a.totalSlots, a.config.tiers).multiplierBp
         <= BaseTier(b.occupiedSlots, b.totalSlots, b.config.tiers).multiplierBp
  {
    var ladder := a.config.tiers;
    var low := BaseTier(a.occupiedSlots, a.totalSlots, ladder);
    var high := BaseTier(b.occupiedSlots, b.totalSlots, ladder);
    assert high in ladder;
    if a.totalSlots > 0 {
      var k := LastReached(a.occupiedSlots, a.totalSlots, ladder, |ladder|);
      LastReachedIsLast(a.occupiedSlots, a.totalSlots, ladder, |ladder|);
      if k > 0 {
        if a.occupiedSlots == 0 {
          MulLe(0, ladder[k].minOccupancyBp, a.totalSlots);
          assert false;
        }
        ReachedMonotone(a.occupiedSlots, a.totalSlots, b.occupiedSlots, b.totalSlots, ladder[k]);
        BaseTierIsHighestReached(b.occupiedSlots, b.totalSlots, ladder, k);
      }
    }
  }

  lemma EscalationMonotone(low: nat, high: nat, a: SurgeInput, b: SurgeInput)
    requires ConfigShape(a.config) && a.config == b.config && NoMorePressure(a, b) && low <= high
    ensures Escalated(low, a) <= Escalated(high, b)
  {
    var c := a.config;
    StageMonotone(low, high, a.isPeakHour, b.isPeakHour, c.peakHourModifierBp);
    var p1 := if a.isPeakHour then ApplyModifier(low, c.peakHourModifierBp) else low;
    var p2 := if b.isPeakHour then ApplyModifier(high, c.peakHourModifierBp) else high;
    StageMonotone(p1, p2, a.isWeekend, b.isWeekend, c.weekendModifierBp);
    var w1 := if a.isWeekend then ApplyModifier(p1, c.weekendModifierBp) else p1;
    var w2 := if b.isWeekend then ApplyModifier(p2, c.weekendModifierBp) else p2;
    StageMonotone(w1, w2, a.isHolidayOrEvent, b.isHolidayOrEvent, c.eventModifierBp);
  }

  lemma StageMonotone(low: nat, high: nat, f: bool, g: bool, modifierBp: nat)
    requires low <= high && (f ==> g) && modifierBp >= NO_SURGE_BP
    ensures (if f then ApplyModifier(low, modifierBp) else low)
         <= (if g then ApplyModifier(high, modifierBp) else high)
  {
    ModifierMonotone(low, high, modifierBp);
    ModifierNeverLowers(high, modifierBp);
  }

  /** A fuller zone under no less pressure is never cheaper. */
  lemma SurgeMonotone(a: SurgeInput, b: SurgeInput)
    requires ConfigShape(a.config) && a.config == b.config
    requires AtMostAsFull(a, b) && NoMorePressure(a, b)
    ensures Surge(a).multiplierBp <= Surge(b).multiplierBp
  {
    var ladder := a.config.tiers;
    var low := BaseTier(a.occupiedSlots, a.totalSlots, ladder);
    var high := BaseTier(b.occupiedSlots, b.totalSlots, ladder);
    BaseTierMonotone(a, b);
    assert low in ladder && high in ladder;
    if low.multiplierBp == NO_SURGE_BP {
      SurgeAtLeastFloor(b);
    } else {
      EscalationMonotone(low.multiplierBp, high.multiplierBp, a, b);
      EscalationNeverLowers(low.multiplierBp, a);
      var v1 := Min(Escalated(low.multiplierBp, a), a.config.maxMultiplierBp);
      var i := LastAtOrBelow(v1, ladder, |ladder|);
      SurgeIsHighestAllowed(a, i);
      SurgeIsHighestAllowed(b, i);
    }
  }

  lemma SurgeAtLeastFloor(input: SurgeInput)
    requires ConfigShape(input.config)
    ensures Surge(input).multiplierBp >= NO_SURGE_BP
  {
    var ladder := input.config.tiers;
    if BaseTier(input.occupiedSlots, input.totalSlots, ladder).multiplierBp != NO_SURGE_BP {
      SurgeIsHighestAllowed(input, 0);
      EscalationNeverLowers(BaseTier(input.occupiedSlots, input.totalSlots, ladder).multiplierBp, input);
    }
  }
}
