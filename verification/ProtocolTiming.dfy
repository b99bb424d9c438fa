/** No provider call happens before the effective date shown to users. */
module ProtocolTiming {
  import opened Options
  import opened QuietPeriods
  import opened EffectiveDate
  import opened Deliveries
  import opened Notifications
  import opened Protocol
  import opened ProtocolSafety
  import opened ProtocolDeliveries

  /** The application's periods and the requested date stay as they are: a run's quiet check
      answers what the periods say, and nobody edits the date. */
  ghost predicate PeriodsUnchanged(periods: seq<QuietPeriod>, s: State, a: Action) {
    && !a.Edit?
    && (a.QuietCheck? ==> a.quietEnd == EndFrom(periods, s.now))
  }

  ghost predicate TimedBehaviour(periods: seq<QuietPeriod>, ss: seq<State>, acts: seq<Action>) {
    && Behaviour(ss, acts)
    && forall i :: 0 <= i < |acts| ==> PeriodsUnchanged(periods, ss[i], acts[i])
  }

  /** Still waiting for its date: nobody has been allowed to queue it. */
  predicate Untouched(s: State) {
    s.row.status.SCHEDULED? && s.callers == map[] && s.runs == map[]
  }

  /** It is quiet from an instant until the date, if there is one. */
  ghost predicate QuietUntil(periods: seq<QuietPeriod>, from: int, date: Option<int>) {
    date.Some? ==> AllQuiet(periods, from, date.value)
  }

  /** A run past its quiet check found a free instant, after the date. */
  ghost predicate CheckHonest(periods: seq<QuietPeriod>, date: Option<int>, now: int, p: Phase) {
    !p.Opened? && !p.Closing? ==>
      && p.checkedAt <= now
      && !Quiet(periods, p.checkedAt)
      && QuietUntil(periods, p.checkedAt, date)
  }

  ghost predicate ChecksHonest(periods: seq<QuietPeriod>, date: Option<int>, s: State) {
    forall w :: w in s.runs ==> CheckHonest(periods, date, s.now, s.runs[w].phase)
  }

  lemma QuietCheckIsHonest(periods: seq<QuietPeriod>, date: Option<int>, s: State, a: Action)
    requires Enabled(s, a) && a.QuietCheck? && PeriodsUnchanged(periods, s, a)
    requires ChecksHonest(periods, date, s) && QuietUntil(periods, s.now, date)
    ensures ChecksHonest(periods, date, Apply(s, a))
  {
    EndFromMeaning(periods, s.now);
  }

  /** Only a quiet check starts a new phase of sending; the instant it found is kept. */
  lemma ChecksStayHonest(periods: seq<QuietPeriod>, date: Option<int>, s: State, a: Action)
    requires ChecksHonest(periods, date, s) && Enabled(s, a) && IsRunStep(a) && !a.QuietCheck?
    ensures ChecksHonest(periods, date, Apply(s, a))
  {
    var t := Apply(s, a);
    assert t.now == s.now && CheckHonest(periods, date, s.now, s.runs[a.worker].phase);
    if a.worker in t.runs && !a.Load? && !a.Lapse? {
      assert s.runs[a.worker].phase.Closing? <==> t.runs[a.worker].phase.Closing?;
      assert !a.CancelNext? ==> t.runs[a.worker].phase.checkedAt == s.runs[a.worker].phase.checkedAt;
    }
    assert a.worker in t.runs ==> CheckHonest(periods, date, s.now, t.runs[a.worker].phase);
    assert forall v :: v in t.runs && v != a.worker ==> v in s.runs && t.runs[v] == s.runs[v];
  }

  // ---------- The requested date ----------

  ghost predicate RequestedInvariant(periods: seq<QuietPeriod>, requested: Option<int>, s: State) {
    && ((Untouched(s) && s.row.scheduledFor == requested) || QuietUntil(periods, s.now, requested))
    && ChecksHonest(periods, requested, s)
  }

  lemma RequestedStep(periods: seq<QuietPeriod>, requested: Option<int>, s: State, a: Action)
    requires RequestedInvariant(periods, requested, s) && Enabled(s, a) && PeriodsUnchanged(periods, s, a)
    ensures RequestedInvariant(periods, requested, Apply(s, a))
  {
    if a.QuietCheck? {
      QuietCheckIsHonest(periods, requested, s, a);
    } else if IsRunStep(a) {
      ChecksStayHonest(periods, requested, s, a);
    }
  }

  lemma {:induction false} RequestedInvariantHolds(periods: seq<QuietPeriod>, ss: seq<State>, acts: seq<Action>, i: nat)
    requires TimedBehaviour(periods, ss, acts) && i < |ss|
    ensures RequestedInvariant(periods, ss[0].row.scheduledFor, ss[i])
  {
    if i > 0 {
      RequestedInvariantHolds(periods, ss, acts, i - 1);
      RequestedStep(periods, ss[0].row.scheduledFor, ss[i - 1], acts[i - 1]);
    }
  }

  /** A free instant reached through quiet ones only is not before the effective date. */
  lemma FreeInstantIsAfterEffectiveDate(periods: seq<QuietPeriod>, date: int, at: int)
    requires !Quiet(periods, at) && AllQuiet(periods, at, date)
    ensures Effective(periods, date) <= at
  {
    EffectiveDateMeaning(periods, date);
  }

  /** However dispatcher ticks, deferrals that rewrite the date, manual sends, retries,
      crashes and overlapping runs interleave, no provider call happens before the effective
      date of the requested date, even if the 32 jumps were exhausted. */
  lemma NoPushBeforeEffectiveDate(
    periods: seq<QuietPeriod>, ss: seq<State>, acts: seq<Action>, i: nat, k: nat)
    requires TimedBehaviour(periods, ss, acts) && i < |acts| && CallsProvider(ss[i], acts[i], k)
    ensures ss[0].row.scheduledFor.Some? ==> Effective(periods, ss[0].row.scheduledFor.value) <= ss[i].now
  {
    RequestedInvariantHolds(periods, ss, acts, i);
    var p := ss[i].runs[acts[i].worker].phase;
    assert CheckHonest(periods, ss[0].row.scheduledFor, ss[i].now, p);
    if ss[0].row.scheduledFor.Some? {
      FreeInstantIsAfterEffectiveDate(periods, ss[0].row.scheduledFor.value, p.checkedAt);
    }
  }

  // ---------- The stored date ----------

  ghost predicate StoredInvariant(periods: seq<QuietPeriod>, s: State) {
    && (Untouched(s) || QuietUntil(periods, s.now, s.row.scheduledFor))
    && ChecksHonest(periods, s.row.scheduledFor, s)
  }

  lemma StoredStep(periods: seq<QuietPeriod>, s: State, a: Action)
    requires StoredInvariant(periods, s) && Exclusive(s) && Enabled(s, a) && PeriodsUnchanged(periods, s, a)
    ensures StoredInvariant(periods, Apply(s, a))
  {
    var t := Apply(s, a);
    if a.QuietCheck? {
      EndFromMeaning(periods, s.now);
      QuietCheckIsHonest(periods, s.row.scheduledFor, s, a);
      assert forall v :: v in t.runs ==> v == a.worker;
    } else if IsRunStep(a) {
      ChecksStayHonest(periods, s.row.scheduledFor, s, a);
      assert t.row.scheduledFor == s.row.scheduledFor && t.now == s.now;
    }
  }

  lemma {:induction false} StoredInvariantHolds(periods: seq<QuietPeriod>, ss: seq<State>, acts: seq<Action>, i: nat)
    requires TimedBehaviour(periods, ss, acts) && SparedBehaviour(ss, acts) && i < |ss|
    ensures StoredInvariant(periods, ss[i])
  {
    if i > 0 {
      StoredInvariantHolds(periods, ss, acts, i - 1);
      SparedIsExclusive(ss, acts, i - 1);
      StoredStep(periods, ss[i - 1], acts[i - 1]);
    }
  }

  /** As long as the watchdog spares live runs, no provider call happens before the effective
      date of the date stored at that time either. */
  lemma NoPushBeforeStoredDate(
    periods: seq<QuietPeriod>, ss: seq<State>, acts: seq<Action>, i: nat, k: nat)
    requires TimedBehaviour(periods, ss, acts) && SparedBehaviour(ss, acts)
    requires i < |acts| && CallsProvider(ss[i], acts[i], k)
    ensures ss[i].row.scheduledFor.Some? ==> Effective(periods, ss[i].row.scheduledFor.value) <= ss[i].now
  {
    StoredInvariantHolds(periods, ss, acts, i);
    var p := ss[i].runs[acts[i].worker].phase;
    assert CheckHonest(periods, ss[i].row.scheduledFor, ss[i].now, p);
    if ss[i].row.scheduledFor.Some? {
      FreeInstantIsAfterEffectiveDate(periods, ss[i].row.scheduledFor.value, p.checkedAt);
    }
  }
}
