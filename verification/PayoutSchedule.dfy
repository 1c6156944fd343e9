/** The Monday payout run, in IST. Dates are day numbers, day 0 being 1 January 1970. */
module PayoutSchedule {

  const IST_OFFSET_MS: int := 330 * 60_000
  const HOUR_MS: int := 3_600_000
  const DAY_MS: int := 86_400_000
  const RUN_HOUR_IST: int := 6

  /** Sunday is 0; 1 January 1970 was a Thursday. */
  function DayOfWeek(day: int): int
  {
    (day + 4) % 7
  }

  const MONDAY: int := 1

  /** The IST calendar day of an instant in milliseconds. */
  function IstDateOf(instant: int): int
  {
    (instant + IST_OFFSET_MS) / DAY_MS
  }

  function NextPayoutOn(now: int): int
  {
    var ist := now + IST_OFFSET_MS;
    var daysToMonday := (8 - DayOfWeek(ist / DAY_MS)) % 7;
    var ranToday := daysToMonday == 0 && ist % DAY_MS / HOUR_MS >= RUN_HOUR_IST;
    (ist + (if ranToday then 7 else daysToMonday) * DAY_MS) / DAY_MS
  }

  /** The instant of the payout run on an IST day. */
  function RunInstant(day: int): int
  {
    day * DAY_MS + RUN_HOUR_IST * HOUR_MS - IST_OFFSET_MS
  }

  lemma NextPayoutDay(now: int)
    ensures var today := IstDateOf(now);
      var days := (8 - DayOfWeek(today)) % 7;
      NextPayoutOn(now) == today + (if days == 0 && now >= RunInstant(today) then 7 else days)
  {
    var ist := now + IST_OFFSET_MS;
    assert ist == DAY_MS * (ist / DAY_MS) + ist % DAY_MS;
  }

  /**
   * A Monday, 06:00 in India or half past midnight UTC, still ahead and at most a week away, with no
   * such Monday before it. 5 January 1970, day 4, was a Monday.
   */
  lemma NextPayoutIsFirstMonday(now: int, day: int)
    ensures DayOfWeek(NextPayoutOn(now)) == MONDAY && NextPayoutOn(now) % 7 == 4
    ensures RunInstant(NextPayoutOn(now)) == NextPayoutOn(now) * 86_400_000 + 1_800_000
    ensures now < RunInstant(NextPayoutOn(now)) <= now + 7 * DAY_MS
    ensures DayOfWeek(day) == MONDAY && now < RunInstant(day) ==> NextPayoutOn(now) <= day
  {
    NextPayoutDay(now);
    var ist := now + IST_OFFSET_MS;
    assert ist == DAY_MS * (ist / DAY_MS) + ist % DAY_MS;
  }

  /** The date never moves backwards as time passes. */
  lemma NextPayoutMonotone(earlier: int, later: int)
    requires earlier <= later
    ensures NextPayoutOn(earlier) <= NextPayoutOn(later)
  {
    NextPayoutIsFirstMonday(later, 0);
    NextPayoutIsFirstMonday(earlier, NextPayoutOn(later));
  }

  /** At the very instant of a run the next payout is already the following week's. */
  lemma RunInstantIsSpent(day: int)
    requires DayOfWeek(day) == MONDAY
    ensures NextPayoutOn(RunInstant(day)) == day + 7
    ensures NextPayoutOn(RunInstant(day) - 1) == day
    ensures IstDateOf(RunInstant(day)) == day
  {
    assert IstDateOf(RunInstant(day)) == day;
    assert IstDateOf(RunInstant(day) - 1) == day;
    NextPayoutDay(RunInstant(day));
    NextPayoutDay(RunInstant(day) - 1);
  }

  /** Whether a payout runs at exactly this instant. */
  predicate IsRunInstant(now: int)
  {
    DayOfWeek(IstDateOf(now)) == MONDAY && now == RunInstant(IstDateOf(now))
  }

  /** `day` is the first Monday whose run is at or after `now`. */
  ghost predicate FirstAtOrAfter(now: int, day: int)
  {
    && DayOfWeek(day) == MONDAY && now <= RunInstant(day)
    && forall other :: DayOfWeek(other) == MONDAY && now <= RunInstant(other) ==> day <= other
  }

  /** "At or after" describes the answer at every instant but those of the runs themselves. */
  lemma AtOrAfterIff(now: int)
    ensures FirstAtOrAfter(now, NextPayoutOn(now)) <==> !IsRunInstant(now)
  {
    NextPayoutIsFirstMonday(now, 0);
    if IsRunInstant(now) {
      RunInstantIsSpent(IstDateOf(now));
    } else {
      forall other | DayOfWeek(other) == MONDAY && now <= RunInstant(other)
        ensures NextPayoutOn(now) <= other
      {
        if now == RunInstant(other) {
          RunInstantIsSpent(other);
        }
        NextPayoutIsFirstMonday(now, other);
      }
    }
  }
}
