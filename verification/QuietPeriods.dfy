/** Quiet periods: one-time windows and weekly (possibly overnight) windows, and the
    instant at which the period covering a given instant ends.

    Instants are microseconds of local wall-clock time, counted from a Monday at
    midnight; the zone offset is fixed, so every day has the same length. */
module QuietPeriods {
  import opened Options

  const DAY: int := 86_400_000_000
  const WEEK: int := 7 * DAY

  type TimeOfDay = t: int | 0 <= t < DAY

  datatype PeriodType = Once | Recurring

  /** One row of a quiet-period table, shared by applications and devices. */
  datatype QuietPeriod = QuietPeriod(
    isActive: bool,
    periodType: PeriodType,
    startAt: Option<int>,
    endAt: Option<int>,
    recurrenceDays: seq<int>,
    startTime: Option<TimeOfDay>,
    endTime: Option<TimeOfDay>
  )

  function DayOf(at: int): int {
    at / DAY
  }

  function Weekday(day: int): int {
    day % 7
  }

  /** The end reported for one period at one instant, or None when it does not cover it. */
  function EndForPeriod(p: QuietPeriod, at: int): Option<int> {
    if !p.isActive then None
    else if p.periodType.Once? then
      if p.startAt.None? || p.endAt.None? then None
      else if p.startAt.value <= at < p.endAt.value then p.endAt
      else None
    else if p.recurrenceDays == [] || p.startTime.None? || p.endTime.None? then None
    else
      var day := DayOf(at);
      var localTime := at % DAY;
      if p.endTime.value > p.startTime.value then
        if Weekday(day) in p.recurrenceDays && p.startTime.value <= localTime < p.endTime.value
        then Some(day * DAY + p.endTime.value)
        else None
      else if Weekday(day) in p.recurrenceDays && localTime >= p.startTime.value then
        Some((day + 1) * DAY + p.endTime.value)
      else if (Weekday(day) - 1) % 7 in p.recurrenceDays && localTime < p.endTime.value then
        Some(day * DAY + p.endTime.value)
      else None
  }

  // ---------- What a period means: a set of windows ----------

  /** A recurring period whose fields are all filled in. */
  predicate Recurs(p: QuietPeriod) {
    p.periodType.Recurring? && p.startTime.Some? && p.endTime.Some?
  }

  /** First instant of the window that opens on the given day. */
  function OpensAt(p: QuietPeriod, day: int): int
    requires Recurs(p)
  {
    day * DAY + p.startTime.value
  }

  /** First instant after that window: on the same day, or on the next one when overnight. */
  function ClosesAt(p: QuietPeriod, day: int): int
    requires Recurs(p)
  {
    (if p.endTime.value > p.startTime.value then day else day + 1) * DAY + p.endTime.value
  }

  predicate OpenOn(p: QuietPeriod, day: int, at: int) {
    Recurs(p) && Weekday(day) in p.recurrenceDays && OpensAt(p, day) <= at < ClosesAt(p, day)
  }

  /** The set of instants the period silences. */
  ghost predicate Covers(p: QuietPeriod, at: int) {
    p.isActive &&
    match p.periodType
    case Once => p.startAt.Some? && p.endAt.Some? && p.startAt.value <= at < p.endAt.value
    case Recurring => exists day :: OpenOn(p, day, at)
  }

  predicate SortedDays(days: seq<int>) {
    && (forall i :: 0 <= i < |days| ==> 0 <= days[i] <= 6)
    && (forall i, j :: 0 <= i < j < |days| ==> days[i] < days[j])
  }

  /** The shape every stored period must have. */
  predicate WellFormed(p: QuietPeriod) {
    match p.periodType
    case Once =>
      && p.startAt.Some? && p.endAt.Some? && p.startAt.value < p.endAt.value
      && p.recurrenceDays == [] && p.startTime.None? && p.endTime.None?
    case Recurring =>
      && p.recurrenceDays != [] && SortedDays(p.recurrenceDays)
      && p.startTime.Some? && p.endTime.Some? && p.startTime.value != p.endTime.value
      && p.startAt.None? && p.endAt.None?
  }

  /** A window is at most a day long, so only the one opened today or yesterday can be open. */
  lemma OpenWindowIsRecent(p: QuietPeriod, day: int, at: int)
    requires OpenOn(p, day, at)
    ensures day == DayOf(at) || day == DayOf(at) - 1
    ensures p.endTime.value > p.startTime.value ==> day == DayOf(at)
    ensures day == DayOf(at) - 1 ==> (Weekday(DayOf(at)) - 1) % 7 == Weekday(day)
  {
  }

  /** The reported end is the close of the unique window that contains the instant. */
  lemma EndForPeriodIsWindowClose(p: QuietPeriod, day: int, at: int)
    requires p.isActive && OpenOn(p, day, at)
    ensures EndForPeriod(p, at) == Some(ClosesAt(p, day))
  {
    OpenWindowIsRecent(p, day, at);
  }

  /** The opening day of the window that the code found. */
  function WindowDay(p: QuietPeriod, at: int): int {
    if p.startTime.Some? && p.endTime.Some? && p.endTime.value <= p.startTime.value &&
       !(Weekday(DayOf(at)) in p.recurrenceDays && at % DAY >= p.startTime.value)
    then DayOf(at) - 1
    else DayOf(at)
  }

  lemma EndForPeriodFindsWindow(p: QuietPeriod, at: int)
    requires p.periodType.Recurring? && EndForPeriod(p, at).Some?
    ensures OpenOn(p, WindowDay(p, at), at)
    ensures EndForPeriod(p, at).value == ClosesAt(p, WindowDay(p, at))
  {
  }

  /** An end is reported exactly for the covered instants; it lies strictly after the
      instant, the period covers everything in between, and a well-formed period is over
      at its reported end. */
  lemma EndForPeriodMeaning(p: QuietPeriod, at: int)
    ensures EndForPeriod(p, at).Some? <==> Covers(p, at)
    ensures EndForPeriod(p, at).Some? ==>
              var end := EndForPeriod(p, at).value;
              && at < end
              && (forall u :: at <= u < end ==> Covers(p, u))
              && (WellFormed(p) ==> !Covers(p, end))
  {
    if p.periodType.Recurring? {
      if EndForPeriod(p, at).Some? {
        EndForPeriodFindsWindow(p, at);
        var day := WindowDay(p, at);
        var end := ClosesAt(p, day);
        forall u | at <= u < end ensures Covers(p, u) {
          assert OpenOn(p, day, u);
        }
        if WellFormed(p) {
          forall later ensures !OpenOn(p, later, end) {
            if OpenOn(p, later, end) {
              OpenWindowIsRecent(p, later, end);
            }
          }
        }
      } else if Covers(p, at) {
        var day :| OpenOn(p, day, at);
        EndForPeriodIsWindowClose(p, day, at);
      }
    }
  }

  lemma WindowIsWeekly(p: QuietPeriod, day: int, at: int, weeks: int)
    requires OpenOn(p, day, at)
    ensures OpenOn(p, day + 7 * weeks, at + weeks * WEEK)
  {
    assert Weekday(day + 7 * weeks) == Weekday(day);
    assert (day + 7 * weeks) * DAY == day * DAY + weeks * WEEK;
    assert (day + 1 + 7 * weeks) * DAY == (day + 1) * DAY + weeks * WEEK;
  }

  /** Recurring periods repeat every week. */
  lemma RecurringPeriodIsWeekly(p: QuietPeriod, at: int, weeks: int)
    requires p.periodType.Recurring?
    ensures Covers(p, at) <==> Covers(p, at + weeks * 604_800_000_000)
  {
    if Covers(p, at) {
      var day :| OpenOn(p, day, at);
      WindowIsWeekly(p, day, at, weeks);
    }
    if Covers(p, at + weeks * WEEK) {
      var day :| OpenOn(p, day, at + weeks * WEEK);
      WindowIsWeekly(p, day, at + weeks * WEEK, -weeks);
      assert at + weeks * WEEK + (-weeks) * WEEK == at;
    }
  }
}
