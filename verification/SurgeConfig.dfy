/** What the surge schemas accept: ladders, configurations and published snapshots. */
module SurgeConfig {
  import opened Outcomes
  import opened Rates

  const BASIS_POINTS: int := 10_000
  const NO_SURGE_BP: int := BASIS_POINTS
  const MAX_SURGE_MULTIPLIER_BP: int := SURGE_MULTIPLIER_MAX_BP
  const MAX_SURGE_TIERS: int := 12

  datatype Badge = ModerateDemand | HighDemand | VeryHighDemand

  datatype Modifier = PeakHour | Weekend | HolidayOrEvent

  datatype Tier = Tier(minOccupancyBp: int, multiplierBp: int, badge: Option<Badge>)

  datatype Config = Config(
    maxMultiplierBp: int,
    peakHourModifierBp: int,
    weekendModifierBp: int,
    eventModifierBp: int,
    tiers: seq<Tier>)

  predicate MultiplierInBounds(bp: int)
  {
    NO_SURGE_BP <= bp <= MAX_SURGE_MULTIPLIER_BP
  }

  predicate TierValid(t: Tier)
  {
    0 <= t.minOccupancyBp <= BASIS_POINTS && MultiplierInBounds(t.multiplierBp)
  }

  /** The ladder schema: a 1.0x floor at occupancy 0, both columns ascending, a badge above 1.0x. */
  predicate LadderValid(tiers: seq<Tier>)
  {
    && 2 <= |tiers| <= MAX_SURGE_TIERS
    && (forall i :: 0 <= i < |tiers| ==> TierValid(tiers[i]))
    && tiers[0].minOccupancyBp == 0 && tiers[0].multiplierBp == NO_SURGE_BP
    && (forall i :: 0 < i < |tiers| ==> tiers[i - 1].minOccupancyBp < tiers[i].minOccupancyBp)
    && (forall i :: 0 < i < |tiers| ==> tiers[i - 1].multiplierBp < tiers[i].multiplierBp)
    && (forall i :: 0 <= i < |tiers| ==> tiers[i].multiplierBp == NO_SURGE_BP || tiers[i].badge.Some?)
  }

  predicate ModifierValid(bp: int)
  {
    NO_SURGE_BP <= bp <= 2 * BASIS_POINTS
  }

  /** Everything a configuration promises except that its cap is one of the tiers. */
  predicate ConfigShape(c: Config)
  {
    && MultiplierInBounds(c.maxMultiplierBp)
    && ModifierValid(c.peakHourModifierBp)
    && ModifierValid(c.weekendModifierBp)
    && ModifierValid(c.eventModifierBp)
    && LadderValid(c.tiers)
  }

  predicate CapIsReachable(c: Config)
  {
    exists i :: 0 <= i < |c.tiers| && c.tiers[i].multiplierBp == c.maxMultiplierBp
  }

  predicate ConfigValid(c: Config)
  {
    ConfigShape(c) && CapIsReachable(c)
  }

  /** The part of a published snapshot the calculator decides. */
  predicate SnapshotValid(multiplierBp: int, badge: Option<Badge>, occupancyBp: int)
  {
    && MultiplierInBounds(multiplierBp)
    && 0 <= occupancyBp <= BASIS_POINTS
    && (multiplierBp == NO_SURGE_BP || badge.Some?)
  }

  /** Neighbours ascending means the whole ladder ascends, in both columns. */
  lemma {:induction false} LadderAscends(tiers: seq<Tier>, i: nat, j: nat)
    requires LadderValid(tiers) && i < j < |tiers|
    ensures tiers[i].minOccupancyBp < tiers[j].minOccupancyBp
    ensures tiers[i].multiplierBp < tiers[j].multiplierBp
  {
    if i == j - 1 {
    } else {
      LadderAscends(tiers, i, j - 1);
    }
  }
}
