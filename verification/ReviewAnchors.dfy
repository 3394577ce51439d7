/** The Sunday-20:00 review anchors: which local day an instant seeds or advances a review to. */
module ReviewAnchors {
  import opened CivilCalendar

  datatype LocalClock = LocalClock(day: int, secsOfDay: int)

  const SECS_PER_DAY := 86_400
  const ANCHOR_SECS := 20 * 3_600

  /** The anchor-local wall clock of an epoch-millisecond instant; both divisions floor. */
  function LocalDayAndSecs(nowMs: int, offsetMinutes: int): LocalClock {
    var localSecs := (nowMs + offsetMinutes * 60_000) / 1000;
    LocalClock(localSecs / SECS_PER_DAY, localSecs % SECS_PER_DAY)
  }

  function Weekday(day: int): int {
    (day % 7 + 4) % 7
  }

  /** The day `next_review_at_local` formats: the seed of a new Project's first review. */
  function SeedDay(nowMs: int, offsetMinutes: int): int {
    var clock := LocalDayAndSecs(nowMs, offsetMinutes);
    var weekday := Weekday(clock.day);
    clock.day + (if weekday == 0 && clock.secsOfDay < ANCHOR_SECS then 0 else if weekday == 0 then 7 else 7 - weekday)
  }

  /** The day `advance_review_at_local` formats: the next review after one was done. */
  function AdvanceDay(nowMs: int, offsetMinutes: int): int {
    var clock := LocalDayAndSecs(nowMs, offsetMinutes);
    var weekday := Weekday(clock.day);
    clock.day + (if weekday == 0 then 7 else 7 - weekday)
  }

  // ── what an anchor is ──────────────────────────────────────────────────

  /** 1970-01-04 was a Sunday. */
  predicate IsSunday(day: int) {
    (day - 3) % 7 == 0
  }

  /** The local millisecond at which the anchor of a day strikes. */
  function AnchorMs(day: int): int {
    (day * SECS_PER_DAY + ANCHOR_SECS) * 1000
  }

  function LocalMs(nowMs: int, offsetMinutes: int): int {
    nowMs + offsetMinutes * 60_000
  }

  /** The local date of an instant, as the calendar floor of its local milliseconds. */
  lemma ClockFloors(nowMs: int, offsetMinutes: int)
    ensures var clock := LocalDayAndSecs(nowMs, offsetMinutes);
            && 0 <= clock.secsOfDay < SECS_PER_DAY
            && (clock.day * SECS_PER_DAY + clock.secsOfDay) * 1000 <= LocalMs(nowMs, offsetMinutes)
            && LocalMs(nowMs, offsetMinutes) < (clock.day * SECS_PER_DAY + clock.secsOfDay + 1) * 1000
  {
  }

  lemma WeekdayIsSunday(day: int)
    ensures 0 <= Weekday(day) < 7
    ensures Weekday(day) == 0 <==> IsSunday(day)
    ensures IsSunday(day + 7 - Weekday(day))
  {
  }

  lemma NoSundayBetween(today: int, day: int)
    requires IsSunday(day) && today < day
    ensures today + 7 - Weekday(today) <= day
  {
  }

  /** The seed is the least Sunday 20:00 strictly after the local instant, for every instant and offset. */
  lemma SeedIsLeast(nowMs: int, offsetMinutes: int)
    ensures var seed := SeedDay(nowMs, offsetMinutes);
            && IsSunday(seed)
            && LocalMs(nowMs, offsetMinutes) < AnchorMs(seed)
            && forall day :: IsSunday(day) && LocalMs(nowMs, offsetMinutes) < AnchorMs(day) ==> seed <= day
  {
  }

  /** An advance lands on the first Sunday of a strictly later local date, whatever the time of day. */
  lemma AdvanceIsFirstLaterSunday(nowMs: int, offsetMinutes: int)
    ensures var today, next := LocalDayAndSecs(nowMs, offsetMinutes).day, AdvanceDay(nowMs, offsetMinutes);
            && IsSunday(next) && today < next
            && forall day :: IsSunday(day) && today < day ==> next <= day
  {
    var today := LocalDayAndSecs(nowMs, offsetMinutes).day;
    hide LocalDayAndSecs, IsSunday, Weekday;
    WeekdayIsSunday(today);
    forall day | IsSunday(day) && today < day ensures AdvanceDay(nowMs, offsetMinutes) <= day {
      NoSundayBetween(today, day);
    }
  }

  /** The two differ only on a Sunday before 20:00, and then by exactly one week. */
  lemma SeedAndAdvance(nowMs: int, offsetMinutes: int)
    ensures var clock := LocalDayAndSecs(nowMs, offsetMinutes);
            AdvanceDay(nowMs, offsetMinutes) - SeedDay(nowMs, offsetMinutes)
            == if IsSunday(clock.day) && clock.secsOfDay < ANCHOR_SECS then 7 else 0
  {
    hide IsSunday, Weekday;
    WeekdayIsSunday(LocalDayAndSecs(nowMs, offsetMinutes).day);
  }

  /** Later instants never get earlier reviews. */
  lemma ReviewsAreMonotone(nowMs: int, laterMs: int, offsetMinutes: int)
    requires nowMs <= laterMs
    ensures SeedDay(nowMs, offsetMinutes) <= SeedDay(laterMs, offsetMinutes)
    ensures AdvanceDay(nowMs, offsetMinutes) <= AdvanceDay(laterMs, offsetMinutes)
  {
    hide SeedDay, AdvanceDay, IsSunday;
    SeedIsLeast(nowMs, offsetMinutes);
    SeedIsLeast(laterMs, offsetMinutes);
    AdvanceIsFirstLaterSunday(nowMs, offsetMinutes);
    AdvanceIsFirstLaterSunday(laterMs, offsetMinutes);
    ClockFloors(nowMs, offsetMinutes);
    ClockFloors(laterMs, offsetMinutes);
  }

  /** Reviewing at the very anchor that was due moves the Project exactly one week on. */
  lemma ReviewOnTime(nowMs: int, offsetMinutes: int, doneMs: int)
    requires LocalMs(doneMs, offsetMinutes) == AnchorMs(SeedDay(nowMs, offsetMinutes))
    ensures AdvanceDay(doneMs, offsetMinutes) == SeedDay(nowMs, offsetMinutes) + 7
    ensures SeedDay(doneMs, offsetMinutes) == SeedDay(nowMs, offsetMinutes) + 7
  {
  }
}
