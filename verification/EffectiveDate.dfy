/** The effective send date: the requested date pushed past the quiet periods, by a capped
    iteration over "jump to the end of whatever is quiet now". */
module EffectiveDate {
  import opened Options
  import opened QuietPeriods

  const MAX_SHIFTS: nat := 32

  /** The latest end among the periods covering an instant. */
  function EndFrom(periods: seq<QuietPeriod>, at: int): Option<int> {
    if periods == [] then None
    else
      var first := EndForPeriod(periods[0], at);
      var rest := EndFrom(periods[1..], at);
      if first.None? then rest
      else if rest.None? || rest.value < first.value then first
      else rest
  }

  ghost predicate Quiet(periods: seq<QuietPeriod>, at: int) {
    exists p :: p in periods && Covers(p, at)
  }

  ghost predicate AllQuiet(periods: seq<QuietPeriod>, from: int, to: int) {
    forall u :: from <= u < to ==> Quiet(periods, u)
  }

  /** The least instant at or after `from` that no period covers. */
  ghost predicate IsFirstFree(periods: seq<QuietPeriod>, from: int, at: int) {
    from <= at && !Quiet(periods, at) && AllQuiet(periods, from, at)
  }

  /** Some(end) exactly when it is quiet; the end is that of a covering period, none of the
      covering periods ends later, and it stays quiet until then. */
  lemma {:induction false} EndFromMeaning(periods: seq<QuietPeriod>, at: int)
    ensures EndFrom(periods, at).Some? <==> Quiet(periods, at)
    ensures EndFrom(periods, at).Some? ==>
              && at < EndFrom(periods, at).value
              && AllQuiet(periods, at, EndFrom(periods, at).value)
              && (exists p :: p in periods && EndForPeriod(p, at) == EndFrom(periods, at))
    ensures forall p :: p in periods && Covers(p, at) ==>
              EndFrom(periods, at).Some? && EndForPeriod(p, at).Some?
              && EndForPeriod(p, at).value <= EndFrom(periods, at).value
  {
    if periods != [] {
      var first, rest := periods[0], periods[1..];
      EndForPeriodMeaning(first, at);
      EndFromMeaning(rest, at);
      assert forall p :: p in periods <==> p == first || p in rest;
      if EndFrom(periods, at) == EndForPeriod(first, at) && EndForPeriod(first, at).Some? {
        assert forall u :: Covers(first, u) ==> Quiet(periods, u);
      } else {
        assert EndFrom(periods, at) == EndFrom(rest, at);
        assert forall u :: Quiet(rest, u) ==> Quiet(periods, u);
      }
    }
  }

  // ---------- The capped iteration ----------

  /** The instants visited by the iteration, with a given number of jumps left. */
  function Trail(periods: seq<QuietPeriod>, at: int, budget: nat): (t: seq<int>)
    ensures t != [] && t[0] == at && |t| <= budget + 1
    decreases budget
  {
    var end := EndFrom(periods, at);
    if budget == 0 || end.None? || end.value <= at then [at]
    else [at] + Trail(periods, end.value, budget - 1)
  }

  function Shift(periods: seq<QuietPeriod>, at: int, budget: nat): int {
    var t := Trail(periods, at, budget);
    t[|t| - 1]
  }

  /** The date shown to users and awaited by the dispatcher for a requested date. */
  function Effective(periods: seq<QuietPeriod>, requested: int): int {
    Shift(periods, requested, MAX_SHIFTS)
  }

  method ComputeEffectiveScheduledFor(periods: seq<QuietPeriod>, scheduledFor: Option<int>)
    returns (r: Option<int>)
    ensures scheduledFor.None? ==> r.None?
    ensures scheduledFor.Some? ==> r == Some(Effective(periods, scheduledFor.value))
  {
    if scheduledFor.None? {
      return None;
    }
    var effective := scheduledFor.value;
    for i := 0 to MAX_SHIFTS
      invariant Effective(periods, scheduledFor.value) == Shift(periods, effective, MAX_SHIFTS - i)
    {
      var quietPeriodEnd := EndFrom(periods, effective);
      if quietPeriodEnd.None? || quietPeriodEnd.value <= effective {
        return Some(effective);
      }
      effective := quietPeriodEnd.value;
    }
    return Some(effective);
  }

  /** A trail made only of jumps to reported ends. */
  ghost predicate IsTrail(periods: seq<QuietPeriod>, t: seq<int>) {
    forall i :: 0 <= i < |t| - 1 ==> EndFrom(periods, t[i]) == Some(t[i + 1])
  }

  lemma {:induction false} TrailIsQuietUpToItsEnd(periods: seq<QuietPeriod>, at: int, budget: nat)
    ensures IsTrail(periods, Trail(periods, at, budget))
    ensures at <= Shift(periods, at, budget)
    ensures AllQuiet(periods, at, Shift(periods, at, budget))
    ensures Quiet(periods, Shift(periods, at, budget)) ==> |Trail(periods, at, budget)| == budget + 1
    decreases budget
  {
    EndFromMeaning(periods, at);
    var end := EndFrom(periods, at);
    if budget > 0 && end.Some? {
      TrailIsQuietUpToItsEnd(periods, end.value, budget - 1);
      var t := Trail(periods, end.value, budget - 1);
      assert Trail(periods, at, budget) == [at] + t;
      assert forall i :: 0 < i < |t| ==> ([at] + t)[i] == t[i - 1];
    }
  }

  /** The effective date is never early, everything before it is quiet, and either it is
      the first free instant or the iteration made exactly its 32 jumps. */
  lemma EffectiveDateMeaning(periods: seq<QuietPeriod>, requested: int)
    ensures requested <= Effective(periods, requested)
    ensures AllQuiet(periods, requested, Effective(periods, requested))
    ensures IsTrail(periods, Trail(periods, requested, MAX_SHIFTS))
    ensures || IsFirstFree(periods, requested, Effective(periods, requested))
            || (Quiet(periods, Effective(periods, requested))
                && |Trail(periods, requested, 32)| - 1 == 32)
  {
    TrailIsQuietUpToItsEnd(periods, requested, MAX_SHIFTS);
  }

  // ---------- When 32 jumps are enough ----------

  function CountAbove(ends: seq<int>, at: int): (n: nat)
    ensures n <= |ends|
  {
    if ends == [] then 0
    else (if at < ends[0] then 1 else 0) + CountAbove(ends[1..], at)
  }

  lemma {:induction false} CountAboveDrops(ends: seq<int>, at: int, end: int)
    requires at <= end
    ensures CountAbove(ends, end) <= CountAbove(ends, at)
    ensures at < end && end in ends ==> CountAbove(ends, end) < CountAbove(ends, at)
  {
    if ends != [] {
      CountAboveDrops(ends[1..], at, end);
    }
  }

  /** Every end the iteration may jump to before `free` is listed in `ends`. */
  ghost predicate ListsEnds(periods: seq<QuietPeriod>, ends: seq<int>, from: int, free: int) {
    forall at :: from <= at < free && EndFrom(periods, at).Some? && EndFrom(periods, at).value <= free ==>
      EndFrom(periods, at).value in ends
  }

  /** The iteration cannot use an end twice, so it cannot run out of jumps before it
      reaches a free instant when there are no more ends than jumps. */
  lemma {:induction false} ShiftReachesFreeInstant(
    periods: seq<QuietPeriod>, at: int, budget: nat, ends: seq<int>, free: int)
    requires at <= free && !Quiet(periods, free)
    requires ListsEnds(periods, ends, at, free)
    requires CountAbove(ends, at) <= budget
    ensures !Quiet(periods, Shift(periods, at, budget))
    ensures Shift(periods, at, budget) <= free
    decreases budget
  {
    EndFromMeaning(periods, at);
    var end := EndFrom(periods, at);
    if end.Some? {
      assert end.value <= free;
      CountAboveDrops(ends, at, end.value);
      ShiftReachesFreeInstant(periods, end.value, budget - 1, ends, free);
    }
  }

  /** The close of the windows of one weekday that falls in the week after `from`. */
  function NextClose(p: QuietPeriod, weekday: int, from: int): (end: int)
    requires Recurs(p)
    ensures from < end <= from + WEEK
  {
    from + 1 + (ClosesAt(p, weekday) - from - 1) % WEEK
  }

  function WeekdayCloses(p: QuietPeriod, days: seq<int>, from: int): (ends: seq<int>)
    requires Recurs(p)
    ensures |ends| == |days|
    ensures forall i :: 0 <= i < |days| ==> ends[i] == NextClose(p, days[i], from)
  {
    if days == [] then [] else [NextClose(p, days[0], from)] + WeekdayCloses(p, days[1..], from)
  }

  /** The number of windows an active period contributes: one, or one per recurrence day. */
  function Slots(p: QuietPeriod): nat {
    if !p.isActive then 0 else if p.periodType.Once? then 1 else |p.recurrenceDays|
  }

  function SlotCount(periods: seq<QuietPeriod>): nat {
    if periods == [] then 0 else Slots(periods[0]) + SlotCount(periods[1..])
  }

  function EndsOf(p: QuietPeriod, from: int): (ends: seq<int>)
    ensures |ends| <= Slots(p)
  {
    if !p.isActive then []
    else if p.periodType.Once? then (if p.endAt.Some? then [p.endAt.value] else [])
    else if Recurs(p) then WeekdayCloses(p, p.recurrenceDays, from)
    else []
  }

  function AllEnds(periods: seq<QuietPeriod>, from: int): (ends: seq<int>)
    ensures |ends| <= SlotCount(periods)
    ensures forall p, e :: p in periods && e in EndsOf(p, from) ==> e in ends
  {
    if periods == [] then [] else EndsOf(periods[0], from) + AllEnds(periods[1..], from)
  }

  lemma ClosesAtIsWeekly(p: QuietPeriod, day: int)
    requires Recurs(p)
    ensures (ClosesAt(p, day) - ClosesAt(p, Weekday(day))) % WEEK == 0
  {
    assert day == 7 * (day / 7) + Weekday(day);
    assert ClosesAt(p, day) - ClosesAt(p, Weekday(day)) == (day / 7) * WEEK;
  }

  lemma SameResidueInOneWeek(from: int, end: int, base: int)
    requires from < end <= from + WEEK
    requires (end - base) % WEEK == 0
    ensures end == from + 1 + (base - from - 1) % WEEK
  {
  }

  lemma CloseInTheWeekIsNext(p: QuietPeriod, from: int, day: int)
    requires Recurs(p) && from < ClosesAt(p, day) <= from + WEEK
    ensures ClosesAt(p, day) == NextClose(p, Weekday(day), from)
  {
    ClosesAtIsWeekly(p, day);
    SameResidueInOneWeek(from, ClosesAt(p, day), ClosesAt(p, Weekday(day)));
  }

  lemma NextCloseIsListed(p: QuietPeriod, from: int, weekday: int)
    requires p.isActive && Recurs(p) && weekday in p.recurrenceDays
    ensures NextClose(p, weekday, from) in EndsOf(p, from)
  {
    var i :| 0 <= i < |p.recurrenceDays| && p.recurrenceDays[i] == weekday;
    assert WeekdayCloses(p, p.recurrenceDays, from)[i] == NextClose(p, weekday, from);
  }

  lemma ReportedEndIsListed(p: QuietPeriod, from: int, at: int)
    requires from <= at && EndForPeriod(p, at).Some?
    requires p.periodType.Once? || EndForPeriod(p, at).value <= from + WEEK
    ensures EndForPeriod(p, at).value in EndsOf(p, from)
  {
    if p.periodType.Recurring? {
      EndForPeriodFindsWindow(p, at);
      CloseInTheWeekIsNext(p, from, WindowDay(p, at));
      NextCloseIsListed(p, from, Weekday(WindowDay(p, at)));
    }
  }

  lemma AllEndsListsEnds(periods: seq<QuietPeriod>, from: int, free: int)
    requires free <= from + WEEK || forall p :: p in periods ==> p.periodType.Once?
    ensures ListsEnds(periods, AllEnds(periods, from), from, free)
  {
    forall at | from <= at < free && EndFrom(periods, at).Some? && EndFrom(periods, at).value <= free
      ensures EndFrom(periods, at).value in AllEnds(periods, from)
    {
      EndFromMeaning(periods, at);
      var p :| p in periods && EndForPeriod(p, at) == EndFrom(periods, at);
      ReportedEndIsListed(p, from, at);
    }
  }

  /** Any mix of active periods with at most 32 windows, with a free instant less than a week away: the effective
      date is exactly the first free instant. */
  lemma {:induction false} CapSufficesWithinAWeek(periods: seq<QuietPeriod>, requested: int, free: int)
    requires SlotCount(periods) <= 32
    requires requested <= free <= requested + 604_800_000_000 && !Quiet(periods, free)
    ensures IsFirstFree(periods, requested, Effective(periods, requested))
    ensures Effective(periods, requested) <= free
  {
    AllEndsListsEnds(periods, requested, free);
    ShiftReachesFreeInstant(periods, requested, MAX_SHIFTS, AllEnds(periods, requested), free);
    EffectiveDateMeaning(periods, requested);
  }

  lemma {:induction false} WeekIsRepeated(periods: seq<QuietPeriod>, at: int, weeks: int)
    requires forall p :: p in periods ==> p.periodType.Recurring?
    ensures Quiet(periods, at) <==> Quiet(periods, at + weeks * WEEK)
  {
    forall p | p in periods ensures Covers(p, at) <==> Covers(p, at + weeks * WEEK) {
      RecurringPeriodIsWeekly(p, at, weeks);
    }
  }

  /** Recurring periods only, with at most 32 recurrence days among the active ones and some instant of
      the week free: the first free instant, less than seven days after the request. */
  lemma CapSufficesForRecurringPeriods(periods: seq<QuietPeriod>, requested: int, free: int)
    requires forall p :: p in periods ==> p.periodType.Recurring?
    requires SlotCount(periods) <= 32
    requires !Quiet(periods, free)
    ensures IsFirstFree(periods, requested, Effective(periods, requested))
    ensures Effective(periods, requested) < requested + 604_800_000_000
  {
    var weeks := (free - requested) / WEEK;
    WeekIsRepeated(periods, free, -weeks);
    assert requested <= free + (-weeks) * WEEK < requested + WEEK;
    CapSufficesWithinAWeek(periods, requested, free + (-weeks) * WEEK);
  }

  function LatestEnd(periods: seq<QuietPeriod>, from: int): (end: int)
    ensures from <= end
    ensures forall p :: p in periods && p.endAt.Some? ==> p.endAt.value <= end
  {
    if periods == [] then from
    else
      var rest := LatestEnd(periods[1..], from);
      if periods[0].endAt.Some? && rest < periods[0].endAt.value then periods[0].endAt.value else rest
  }

  /** At most 32 one-time periods: the effective date is the first free instant, however
      far away it is. */
  lemma CapSufficesForOneTimePeriods(periods: seq<QuietPeriod>, requested: int)
    requires forall p :: p in periods ==> p.periodType.Once?
    requires |periods| <= 32
    ensures IsFirstFree(periods, requested, Effective(periods, requested))
  {
    AtMostOneSlotEach(periods);
    var free := LatestEnd(periods, requested);
    AllEndsListsEnds(periods, requested, free);
    ShiftReachesFreeInstant(periods, requested, MAX_SHIFTS, AllEnds(periods, requested), free);
    EffectiveDateMeaning(periods, requested);
  }

  lemma {:induction false} AtMostOneSlotEach(periods: seq<QuietPeriod>)
    requires forall p :: p in periods ==> p.periodType.Once?
    ensures SlotCount(periods) <= |periods|
  {
    if periods != [] {
      AtMostOneSlotEach(periods[1..]);
    }
  }

  // ---------- 33 windows are too many ----------

  function OneTime(start: int, end: int): QuietPeriod {
    QuietPeriod(true, Once, Some(start), Some(end), [], None, None)
  }

  /** Back-to-back one-time windows [0, 1), [1, 2), ..., [n - 1, n). */
  function Ladder(n: nat): (ps: seq<QuietPeriod>)
    ensures |ps| == n
    ensures forall i :: 0 <= i < n ==> ps[i] == OneTime(i, i + 1)
  {
    if n == 0 then [] else Ladder(n - 1) + [OneTime(n - 1, n)]
  }

  lemma LadderStep(n: nat, at: int)
    requires 0 <= at < n
    ensures EndFrom(Ladder(n), at) == Some(at + 1)
  {
    var ps := Ladder(n);
    EndFromMeaning(ps, at);
    assert ps[at] in ps && Covers(ps[at], at);
    var p :| p in ps && EndForPeriod(p, at) == EndFrom(ps, at);
  }

  lemma {:induction false} LadderShift(n: nat, at: nat, budget: nat)
    requires at + budget <= n
    ensures Shift(Ladder(n), at, budget) == at + budget
    decreases budget
  {
    if budget > 0 {
      LadderStep(n, at);
      LadderShift(n, at + 1, budget - 1);
      var t := Trail(Ladder(n), at + 1, budget - 1);
      assert Trail(Ladder(n), at, budget) == [at] + t;
    }
  }

  /** The bound is tight: with one more one-time period the effective date can be quiet. */
  lemma CapIsTight()
    ensures |Ladder(33)| == 33 && Effective(Ladder(33), 0) == 32 && Quiet(Ladder(33), 32)
  {
    LadderShift(MAX_SHIFTS + 1, 0, MAX_SHIFTS);
    var ps := Ladder(MAX_SHIFTS + 1);
    assert ps[MAX_SHIFTS] in ps && Covers(ps[MAX_SHIFTS], MAX_SHIFTS);
  }
}
