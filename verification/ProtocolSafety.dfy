/** What every interleaving keeps: the number of live runs, the coupling of the row's
    columns, and that no notification is stranded. */
module ProtocolSafety {
  import opened Options
  import opened Deliveries
  import opened Notifications
  import opened Protocol

  // ---------- Loaded rows stay within the stored ones ----------

  predicate PhaseInShape(s: State, p: Phase) {
    match p
    case Opened => true
    case Cleared(_) => true
    case Closing(next, snap) => next <= |snap| <= |s.deliveries|
    case Sending(_, next, snap, _) => next <= |snap| <= |s.deliveries|
    case Calling(_, next, snap, _) => next < |snap| <= |s.deliveries|
    case Counting(_, next, snap, _) => next < |snap| <= |s.deliveries|
  }

  predicate Shape(s: State) {
    && |s.history| == |s.deliveries|
    && forall w :: w in s.runs ==> PhaseInShape(s, s.runs[w].phase)
  }

  /** Actors other than live runs write no delivery, and only add freshly opened runs. */
  lemma OtherActorsWriteNoDelivery(s: State, a: Action)
    requires Enabled(s, a) && !IsRunStep(a)
    ensures Apply(s, a).deliveries == s.deliveries && Apply(s, a).history == s.history
    ensures forall w :: w in s.runs ==> w in Apply(s, a).runs && Apply(s, a).runs[w] == s.runs[w]
    ensures forall w :: w in Apply(s, a).runs && w !in s.runs ==> Apply(s, a).runs[w].phase.Opened?
  {
  }

  /** A run step changes at most that run, and never loses a row. */
  lemma RunStepShape(s: State, a: Action)
    requires Shape(s) && Enabled(s, a) && IsRunStep(a)
    ensures var t := Apply(s, a);
            && |t.history| == |t.deliveries| && |s.deliveries| <= |t.deliveries|
            && t.runs - {a.worker} == s.runs - {a.worker}
            && (a.worker in t.runs ==> PhaseInShape(t, t.runs[a.worker].phase))
  {
    assert PhaseInShape(s, s.runs[a.worker].phase);
  }

  lemma ShapeStep(s: State, a: Action)
    requires Shape(s) && Enabled(s, a)
    ensures Shape(Apply(s, a))
    ensures |s.deliveries| <= |Apply(s, a).deliveries|
  {
    if IsRunStep(a) {
      RunStepShape(s, a);
      var t := Apply(s, a);
      forall w | w in t.runs ensures PhaseInShape(t, t.runs[w].phase) {
        if w != a.worker {
          assert w in t.runs - {a.worker} && t.runs[w] == (t.runs - {a.worker})[w];
        }
      }
    } else {
      OtherActorsWriteNoDelivery(s, a);
    }
  }

  /** No guard on a row position ever blocks a worker: a live run that is not at the end of
      its list stands before a stored row. */
  lemma WorkersAreNeverBlocked(ss: seq<State>, acts: seq<Action>, i: nat, w: nat)
    requires Behaviour(ss, acts) && i < |ss| && w in ss[i].runs
    ensures Shape(ss[i])
    ensures var p := ss[i].runs[w].phase;
            !p.Opened? && !p.Cleared? ==> AtRow(ss[i], w) || p.next == |p.snap|
  {
    ShapeHolds(ss, acts, i);
  }

  lemma {:induction false} ShapeHolds(ss: seq<State>, acts: seq<Action>, i: nat)
    requires Behaviour(ss, acts) && i < |ss|
    ensures Shape(ss[i])
  {
    if i > 0 {
      ShapeHolds(ss, acts, i - 1);
      ShapeStep(ss[i - 1], acts[i - 1]);
    }
  }

  // ---------- Live runs ----------

  /** Live runs, plus one when the row is not PROCESSING, are covered by one start permit
      plus one per watchdog requeue. */
  predicate RunsAccounted(s: State) {
    |s.runs| + (if s.row.status.PROCESSING? then 0 else 1) <= 1 + s.requeues
  }

  lemma RunCounts(runs: map<nat, Run>, w: nat, r: Run)
    ensures |runs[w := r]| == if w in runs then |runs| else |runs| + 1
    ensures w in runs ==> |runs - {w}| == |runs| - 1
  {
  }

  /** A step of a run leaves the number of runs alone, or ends the run. */
  lemma RunStepCounts(s: State, a: Action, w: nat)
    requires Enabled(s, a) && IsRunStep(a) && a.worker == w
    ensures Apply(s, a).requeues == s.requeues
    ensures || (|Apply(s, a).runs| == |s.runs| && Apply(s, a).row.status == s.row.status)
            || |Apply(s, a).runs| == |s.runs| - 1
  {
    RunCounts(s.runs, w, s.runs[w]);
    forall p ensures |s.runs[w := s.runs[w].(phase := p)]| == |s.runs| {
      RunCounts(s.runs, w, s.runs[w].(phase := p));
    }
  }

  lemma RunsAccountedStep(s: State, a: Action)
    requires RunsAccounted(s) && RowInvariant(s) && Enabled(s, a)
    ensures RunsAccounted(Apply(s, a))
  {
    match a
    case Acquire(w, locked) => RunCounts(s.runs, w, Run(s.now, Opened));
    case Lapse(w) => RunStepCounts(s, a, w);
    case CancelNext(w) => RunStepCounts(s, a, w);
    case CloseLapsed(w) => RunStepCounts(s, a, w);
    case QuietCheck(w, _) => RunStepCounts(s, a, w);
    case Load(w, _) => RunStepCounts(s, a, w);
    case Visit(w, _, _) => RunStepCounts(s, a, w);
    case Answer(w, _) => RunStepCounts(s, a, w);
    case SaveFail(w) => RunStepCounts(s, a, w);
    case Finish(w) => RunStepCounts(s, a, w);
    case Crash(w) => RunStepCounts(s, a, w);
    case _ =>
  }

  // ---------- The columns of the row ----------

  predicate CallersKeepQueueableStatus(s: State) {
    forall c :: c in s.callers ==>
      Queueable(s.callers[c].prev) && (s.callers[c].prev.SCHEDULED? ==> s.row.scheduledFor.Some?)
  }

  /** The status agrees with the other columns, whatever runs overlap. */
  predicate RowCoupled(r: Row) {
    && (r.status.PROCESSING? <==> r.processingStartedAt.Some?)
    && (r.status.SENT? <==> r.sentAt.Some?)
    && (r.status.SCHEDULED? ==> r.scheduledFor.Some?)
  }

  predicate RowInvariant(s: State) {
    RowCoupled(s.row) && CallersKeepQueueableStatus(s)
  }

  lemma RunStepKeepsRow(s: State, a: Action)
    requires RowInvariant(s) && Enabled(s, a) && IsRunStep(a)
    ensures RowInvariant(Apply(s, a))
  {
    assert Apply(s, a).callers == s.callers;
    if !a.Finish? && !a.CloseLapsed? && !a.QuietCheck? && !a.Load? {
      assert Apply(s, a).row == s.row;
    }
  }

  lemma RowInvariantStep(s: State, a: Action)
    requires RowInvariant(s) && Enabled(s, a)
    ensures RowInvariant(Apply(s, a))
  {
    if IsRunStep(a) {
      RunStepKeepsRow(s, a);
    }
  }

  /** In every state of every interleaving the live runs are accounted for and the row's
      columns agree. */
  lemma {:induction false} SafetyInvariants(ss: seq<State>, acts: seq<Action>, i: nat)
    requires Behaviour(ss, acts) && i < |ss|
    ensures RunsAccounted(ss[i]) && RowCoupled(ss[i].row) && RowInvariant(ss[i])
  {
    if i > 0 {
      SafetyInvariants(ss, acts, i - 1);
      RunsAccountedStep(ss[i - 1], acts[i - 1]);
      RowInvariantStep(ss[i - 1], acts[i - 1]);
    }
  }

  // ---------- Exclusivity ----------

  /** At most one run is live, and the row knows when it started. */
  ghost predicate Exclusive(s: State) {
    && (forall v, w :: v in s.runs && w in s.runs ==> v == w)
    && (forall w :: w in s.runs ==>
          s.row.status.PROCESSING? && s.row.processingStartedAt == Some(s.runs[w].startedAt))
  }

  lemma RunStepKeepsExclusive(s: State, a: Action)
    requires Exclusive(s) && Enabled(s, a) && IsRunStep(a)
    ensures Exclusive(Apply(s, a))
  {
    var t := Apply(s, a);
    assert forall w :: w in t.runs ==> w == a.worker && t.runs[w].startedAt == s.runs[w].startedAt;
    assert a.worker in t.runs ==> t.row == s.row;
  }

  lemma ExclusiveStep(s: State, a: Action)
    requires Exclusive(s) && RowInvariant(s) && Enabled(s, a)
    requires a.Watchdog? ==> s.runs == map[]
    ensures Exclusive(Apply(s, a))
  {
    if IsRunStep(a) {
      RunStepKeepsExclusive(s, a);
    }
  }

  lemma {:induction false} SparedIsExclusive(ss: seq<State>, acts: seq<Action>, i: nat)
    requires SparedBehaviour(ss, acts) && i < |ss|
    ensures Exclusive(ss[i])
  {
    if i > 0 {
      SparedIsExclusive(ss, acts, i - 1);
      SafetyInvariants(ss, acts, i - 1);
      ExclusiveStep(ss[i - 1], acts[i - 1]);
    }
  }

  /** A watchdog that fires on a live run leaves it running beside a queued row. */
  lemma FiringOnALiveRunBreaksExclusivity(s: State, a: Action)
    requires Enabled(s, a) && a.Watchdog? && s.runs != map[]
    ensures !Exclusive(Apply(s, a))
  {
    var w :| w in s.runs;
    assert w in Apply(s, a).runs;
  }

  /** Two runs never process the notification at once, and the row always knows its run,
      exactly when the watchdog never fires while a run is live. */
  lemma {:induction false} ExclusiveIffSpared(ss: seq<State>, acts: seq<Action>)
    requires Behaviour(ss, acts)
    ensures (forall i :: 0 <= i < |ss| ==> Exclusive(ss[i])) <==> SparedBehaviour(ss, acts)
  {
    if SparedBehaviour(ss, acts) {
      forall i | 0 <= i < |ss| ensures Exclusive(ss[i]) {
        SparedIsExclusive(ss, acts, i);
      }
    }
    if forall i :: 0 <= i < |ss| ==> Exclusive(ss[i]) {
      forall i | 0 <= i < |acts| && acts[i].Watchdog? ensures ss[i].runs == map[] {
        assert Exclusive(ss[i + 1]);
        if ss[i].runs != map[] {
          FiringOnALiveRunBreaksExclusivity(ss[i], acts[i]);
        }
      }
    }
  }

  lemma {:induction false} LeaseKeepsExclusive(ss: seq<State>, acts: seq<Action>, i: nat)
    requires LeasedBehaviour(ss, acts) && i < |ss|
    ensures Exclusive(ss[i])
    ensures i < |acts| && acts[i].Watchdog? ==> ss[i].runs == map[]
  {
    if i > 0 {
      LeaseKeepsExclusive(ss, acts, i - 1);
      SafetyInvariants(ss, acts, i - 1);
      ExclusiveStep(ss[i - 1], acts[i - 1]);
    }
    if i < |acts| && acts[i].Watchdog? {
      assert forall w :: w !in ss[i].runs;
    }
  }

  /** If every live run ends within the watchdog's threshold, the watchdog never fires on a
      live run, and two runs never process the notification at once. */
  lemma LeaseImpliesExclusivity(ss: seq<State>, acts: seq<Action>)
    requires LeasedBehaviour(ss, acts)
    ensures SparedBehaviour(ss, acts)
    ensures forall i :: 0 <= i < |ss| ==> Exclusive(ss[i])
  {
    forall i | 0 <= i < |ss|
      ensures Exclusive(ss[i]) && (i < |acts| && acts[i].Watchdog? ==> ss[i].runs == map[])
    {
      LeaseKeepsExclusive(ss, acts, i);
    }
  }

  // ---------- Requeues ----------

  /** Time has passed since an instant, and a run that the row knows began after it. */
  predicate StartedSince(s: State, from: int) {
    from <= s.now && (s.row.processingStartedAt.Some? ==> from <= s.row.processingStartedAt.value)
  }

  lemma StartedSinceStep(s: State, a: Action, from: int)
    requires StartedSince(s, from) && Enabled(s, a)
    ensures StartedSince(Apply(s, a), from)
  {
  }

  lemma {:induction false} StartedSinceHolds(ss: seq<State>, acts: seq<Action>, i: nat, j: nat, from: int)
    requires |ss| == |acts| + 1 && Steps(ss, acts) && i <= j < |ss| && StartedSince(ss[i], from)
    ensures StartedSince(ss[j], from)
    decreases j
  {
    if i < j {
      StartedSinceHolds(ss, acts, i, j - 1, from);
      StartedSinceStep(ss[j - 1], acts[j - 1], from);
    }
  }

  /** In every interleaving, two requeues of a notification are more than 15 minutes apart:
      the watchdog never meets a run that began after its last requeue too soon. */
  lemma {:induction false} RequeuesAreApart(ss: seq<State>, acts: seq<Action>, i: nat, j: nat)
    requires Behaviour(ss, acts) && i < j < |acts| && acts[i].Watchdog? && acts[j].Watchdog?
    ensures ss[j].now > ss[i].now + 900_000_000
  {
    assert StartedSince(ss[i + 1], ss[i].now) by {
      assert ss[i + 1] == Apply(ss[i], acts[i]);
    }
    StartedSinceHolds(ss, acts, i + 1, j, ss[i].now);
  }

  // ---------- Nothing is stranded ----------

  /** Someone carries the send task of a queued notification. */
  predicate Carried(s: State) {
    || s.broker + s.claims + s.handoffs > 0
    || exists c :: c in s.callers && !s.callers[c].Checked?
  }

  predicate NotStranded(s: State) {
    s.row.status.QUEUED? ==> Carried(s)
  }

  predicate NoCallerCarries(s: State) {
    forall c :: c in s.callers ==> s.callers[c].Checked?
  }

  /** The step loses the last carrier of a queued notification: a refused submission of the
      dispatcher or the watchdog, an acquisition that skips a locked row, or the death of a
      worker before its acquisition or of a caller before its submission or rollback. */
  predicate DropsLastCarrier(s: State, a: Action) {
    s.row.status.QUEUED? && s.broker == 0 &&
    match a
    case Handoff(ok) => !ok && s.handoffs == 1 && s.claims == 0 && NoCallerCarries(s)
    case Acquire(_, locked) => locked && s.claims == 1 && s.handoffs == 0 && NoCallerCarries(s)
    case DropClaim => s.claims == 1 && s.handoffs == 0 && NoCallerCarries(s)
    case CallerCrash(c) =>
      s.claims == s.handoffs == 0 && c in s.callers && !s.callers[c].Checked?
      && NoCallerCarries(WithoutCaller(s, c))
    case _ => false
  }

  lemma KeptCallersCarry(s: State, a: Action)
    requires Carried(s) && Enabled(s, a) && CallersKeepQueueableStatus(s) && s.row.status.QUEUED?
    requires a.Read? || a.Cas? || a.Submit? || a.CallerCrash?
    requires !DropsLastCarrier(s, a)
    ensures NotStranded(Apply(s, a))
  {
    var t := Apply(s, a);
    match a
    case Read(c) => KeepsCarrier(s, t, c);
    case Cas(c) => KeepsCarrier(s, t, c);
    case Submit(c, ok) => assert ok || (c in t.callers && !t.callers[c].Checked?);
    case CallerCrash(c) =>
      if s.broker + s.claims + s.handoffs == 0 {
        var d :| d in s.callers && !s.callers[d].Checked? && (d != c || s.callers[c].Checked?);
        assert d in t.callers && !t.callers[d].Checked?;
      }
  }

  /** A step strands the notification exactly when it loses the last carrier. */
  lemma StrandsIffDropsLastCarrier(s: State, a: Action)
    requires NotStranded(s) && CallersKeepQueueableStatus(s) && Enabled(s, a)
    ensures !NotStranded(Apply(s, a)) <==> DropsLastCarrier(s, a)
  {
    var t := Apply(s, a);
    if DropsLastCarrier(s, a) {
      assert t.row.status.QUEUED? && NoCallerCarries(t);
    } else if a.Cas? && s.row.status == s.callers[a.caller].prev {
      assert a.caller in t.callers && !t.callers[a.caller].Checked?;
    } else if s.row.status.QUEUED? && (a.Read? || a.Cas? || a.Submit? || a.CallerCrash?) {
      KeptCallersCarry(s, a);
    } else if s.row.status.QUEUED? {
      OthersKeepCarrier(s, a);
    }
  }

  lemma OthersKeepCarrier(s: State, a: Action)
    requires Carried(s) && s.row.status.QUEUED? && CallersKeepQueueableStatus(s) && Enabled(s, a)
    requires !a.Read? && !a.Cas? && !a.Submit? && !a.CallerCrash? && !DropsLastCarrier(s, a)
    ensures NotStranded(Apply(s, a))
  {
    var t := Apply(s, a);
    if a.Rollback? {
      assert !t.row.status.QUEUED?;
    } else {
      assert t.callers == s.callers;
      if d :| d in s.callers && !s.callers[d].Checked? {
        assert d in t.callers && !t.callers[d].Checked?;
      }
    }
  }

  lemma KeepsCarrier(s: State, s': State, c: nat)
    requires Carried(s)
    requires s'.broker + s'.claims + s'.handoffs >= s.broker + s.claims + s.handoffs
    requires c in s.callers ==> s.callers[c].Checked?
    requires forall d :: d in s.callers && d != c ==> d in s'.callers && s'.callers[d] == s.callers[d]
    ensures Carried(s')
  {
  }

  /** What can still happen to a notification that waits: a queued one has a carrier, a
      scheduled one will satisfy the dispatcher's filter, a processing one the watchdog's. */
  ghost predicate Rescuable(s: State) {
    && NotStranded(s)
    && (s.row.status.SCHEDULED? ==>
          s.row.scheduledFor.Some? && forall t :: t >= s.row.scheduledFor.value ==> Enabled(s.(now := t), Dispatch))
    && (s.row.status.PROCESSING? ==>
          s.row.processingStartedAt.Some?
          && forall t :: t > s.row.processingStartedAt.value + 900_000_000 ==>
               Enabled(s.(now := t), Watchdog(t - 900_000_000)))
  }

  lemma NotStrandedIsRescuable(s: State)
    requires NotStranded(s) && RowCoupled(s.row)
    ensures Rescuable(s)
  {
  }

  lemma {:induction false} NotStrandedHolds(ss: seq<State>, acts: seq<Action>, i: nat)
    requires Behaviour(ss, acts) && i < |ss|
    requires forall k :: 0 <= k < |acts| ==> !DropsLastCarrier(ss[k], acts[k])
    ensures NotStranded(ss[i])
  {
    if i > 0 {
      NotStrandedHolds(ss, acts, i - 1);
      SafetyInvariants(ss, acts, i - 1);
      StrandsIffDropsLastCarrier(ss[i - 1], acts[i - 1]);
    }
  }

  /** In any interleaving, rollbacks included, no state is stranded exactly when no step
      loses the last carrier of a queued notification. */
  lemma {:induction false} NoStateIsStranded(ss: seq<State>, acts: seq<Action>)
    requires Behaviour(ss, acts)
    ensures (forall i :: 0 <= i < |ss| ==> Rescuable(ss[i]))
            <==> (forall i :: 0 <= i < |acts| ==> !DropsLastCarrier(ss[i], acts[i]))
  {
    if forall i :: 0 <= i < |acts| ==> !DropsLastCarrier(ss[i], acts[i]) {
      forall i | 0 <= i < |ss| ensures Rescuable(ss[i]) {
        NotStrandedHolds(ss, acts, i);
        SafetyInvariants(ss, acts, i);
        NotStrandedIsRescuable(ss[i]);
      }
    }
    if forall i :: 0 <= i < |ss| ==> Rescuable(ss[i]) {
      forall i | 0 <= i < |acts| ensures !DropsLastCarrier(ss[i], acts[i]) {
        SafetyInvariants(ss, acts, i);
        assert Rescuable(ss[i]) && Rescuable(ss[i + 1]);
        StrandsIffDropsLastCarrier(ss[i], acts[i]);
      }
    }
  }

  // ---------- Stranded for ever ----------

  /** Queued, with nobody left to carry the send task and no delivery a sweep could find. */
  predicate Stuck(s: State) {
    && s.row.status.QUEUED?
    && s.broker == s.claims == s.handoffs == s.sweeps == 0
    && (forall c :: c in s.callers ==> s.callers[c].Checked? && !s.callers[c].prev.QUEUED?)
    && s.runs == map[]
    && (forall i :: 0 <= i < |s.deliveries| ==> !(s.deliveries[i].status.Pending? && s.deliveries[i].nextRetryAt.Some?))
  }

  /** No action of any actor ever leaves the stuck states. */
  lemma StuckStep(s: State, a: Action)
    requires Stuck(s) && Enabled(s, a)
    ensures Stuck(Apply(s, a))
  {
  }

  lemma {:induction false} StuckForever(ss: seq<State>, acts: seq<Action>, i: nat)
    requires |ss| == |acts| + 1 && Steps(ss, acts) && Stuck(ss[0]) && i < |ss|
    ensures Stuck(ss[i])
  {
    if i > 0 {
      StuckForever(ss, acts, i - 1);
      StuckStep(ss[i - 1], acts[i - 1]);
    }
  }

  lemma {:induction false} StuckWhereverItLeads(s: State, acts: seq<Action>, t: State)
    requires Stuck(s) && Leads(s, acts, t)
    ensures Stuck(t)
    decreases |acts|
  {
    if acts != [] {
      StuckStep(s, acts[0]);
      StuckWhereverItLeads(Apply(s, acts[0]), acts[1..], t);
    }
  }

  /** A step towards the end of a live run. */
  function NextStep(s: State, w: nat): Action
    requires w in s.runs
  {
    match s.runs[w].phase
    case Opened => QuietCheck(w, Some(s.now + 1))
    case Closing(next, snap) => if next < |snap| then CancelNext(w) else CloseLapsed(w)
    case Cleared(_) => Load(w, [])
    case Sending(_, next, snap, _) =>
      if next < |snap| then Visit(w, Some(CancelReason.ApplicationInactive), None) else Finish(w)
    case Calling(_, _, _, _) => Answer(w, Accepted)
    case Counting(_, _, _, _) => SaveFail(w)
  }

  function StepsLeft(s: State, w: nat): nat
    requires Shape(s) && w in s.runs
  {
    assert PhaseInShape(s, s.runs[w].phase);
    match s.runs[w].phase
    case Opened => 1
    case Cleared(_) => |s.deliveries| + 2
    case Closing(next, snap) => |snap| - next + 1
    case Sending(_, next, snap, _) => |snap| - next + 1
    case Calling(_, next, snap, _) => |snap| - next + 1
    case Counting(_, next, snap, _) => |snap| - next + 1
  }

  /** The step ends the run with a status of its own, or brings it closer to its end. */
  lemma NextStepAdvances(s: State, w: nat)
    requires Shape(s) && w in s.runs
    ensures Enabled(s, NextStep(s, w)) && Shape(Apply(s, NextStep(s, w)))
    ensures var t := Apply(s, NextStep(s, w));
            if w in t.runs then StepsLeft(t, w) < StepsLeft(s, w) else !t.row.status.QUEUED?
  {
    assert PhaseInShape(s, s.runs[w].phase);
    ShapeStep(s, NextStep(s, w));
  }

  lemma {:induction false} LiveRunCanFinish(s: State, w: nat) returns (acts: seq<Action>, t: State)
    requires Shape(s) && w in s.runs
    ensures Leads(s, acts, t) && !t.row.status.QUEUED?
    decreases StepsLeft(s, w)
  {
    NextStepAdvances(s, w);
    var a := NextStep(s, w);
    var s1 := Apply(s, a);
    LeadsOne(s, a);
    acts, t := [a], s1;
    if w in s1.runs {
      var rest;
      rest, t := LiveRunCanFinish(s1, w);
      LeadsCompose(s, [a], s1, rest, t);
      acts := [a] + rest;
    }
  }

  /** A sweep that has found the notification, or will find one of its rows, brings a task. */
  lemma {:induction false} SweepCanRescue(s: State) returns (acts: seq<Action>, t: State)
    requires s.sweeps > 0
             || exists i :: 0 <= i < |s.deliveries|
                             && s.deliveries[i].status.Pending? && s.deliveries[i].nextRetryAt.Some?
    ensures Leads(s, acts, t) && NotStranded(t)
  {
    if s.sweeps > 0 {
      LeadsOne(s, SweepSubmit(true));
      acts, t := [SweepSubmit(true)], Apply(s, SweepSubmit(true));
    } else {
      var i :| 0 <= i < |s.deliveries| && s.deliveries[i].status.Pending? && s.deliveries[i].nextRetryAt.Some?;
      var due := s.deliveries[i].nextRetryAt.value;
      var tick := Tick(if s.now < due then due - s.now else 0);
      var s1 := Apply(s, tick);
      assert Due(s1.deliveries[i], s1.now);
      LeadsOne(s, tick);
      LeadsThen(s, [tick], s1, SweepScan);
      var s2 := Apply(s1, SweepScan);
      LeadsThen(s, [tick] + [SweepScan], s2, SweepSubmit(true));
      acts, t := [tick] + [SweepScan] + [SweepSubmit(true)], Apply(s2, SweepSubmit(true));
    }
  }

  /** The actions lead to a state that is not stranded. */
  ghost predicate Rescues(s: State, acts: seq<Action>, t: State) {
    Leads(s, acts, t) && NotStranded(t)
  }

  lemma {:induction false} LostCanBeRescued(s: State) returns (acts: seq<Action>, t: State)
    requires !NotStranded(s) && Shape(s) && CallersKeepQueueableStatus(s) && !Stuck(s)
    ensures Rescues(s, acts, t)
  {
    if s.runs != map[] {
      var w :| w in s.runs;
      acts, t := LiveRunCanFinish(s, w);
    } else {
      assert NoCallerCarries(s);
      acts, t := SweepCanRescue(s);
    }
  }

  /** Without a carrier, a queued notification is lost for good exactly when it is stuck: a
      live run may still write its own status over it, and a sweep submits it again once a
      pending row with a retry date comes due. */
  lemma {:induction false} LostForeverIffStuck(s: State)
    requires !NotStranded(s) && Shape(s) && CallersKeepQueueableStatus(s)
    ensures Stuck(s) <==> !exists acts, t :: Rescues(s, acts, t)
  {
    if Stuck(s) {
      forall acts, t | Leads(s, acts, t) ensures !NotStranded(t) {
        StuckWhereverItLeads(s, acts, t);
        assert NoCallerCarries(t);
      }
    } else {
      var acts, t := LostCanBeRescued(s);
    }
  }

  function FreshState(scheduledFor: Option<int>, devices: seq<nat>, now: int): (s: State)
    ensures Init(s)
  {
    State(now, InitialRow(scheduledFor), seq(|devices|, i requires 0 <= i < |devices| => NewDelivery(devices[i])),
          0, 0, 0, 0, map[], map[], 0, 0, seq(|devices|, _ => NO_HISTORY))
  }

  /** The dispatcher does not roll back: when its submission fails the notification is
      queued for ever. */
  lemma FailedDispatchStrands(date: int, devices: seq<nat>)
    ensures exists ss, acts :: Behaviour(ss, acts) && acts == [Dispatch, Handoff(false)] && Stuck(ss[2])
  {
    var s0 := FreshState(Some(date), devices, date);
    var s1 := Apply(s0, Dispatch);
    var s2 := Apply(s1, Handoff(false));
    var ss, acts := [s0, s1, s2], [Dispatch, Handoff(false)];
    assert Behaviour(ss, acts);
  }

  /** A queued notification whose only task meets a locked row is stranded as well. */
  lemma LockedAcquisitionStrands(date: int, devices: seq<nat>, worker: nat)
    ensures exists ss, acts ::
              Behaviour(ss, acts) && acts == [Dispatch, Handoff(true), Claim, Acquire(worker, true)] && Stuck(ss[4])
  {
    var s0 := FreshState(Some(date), devices, date);
    var acts := [Dispatch, Handoff(true), Claim, Acquire(worker, true)];
    var s1 := Apply(s0, acts[0]);
    var s2 := Apply(s1, acts[1]);
    var s3 := Apply(s2, acts[2]);
    var s4 := Apply(s3, acts[3]);
    assert Behaviour([s0, s1, s2, s3, s4], acts);
  }
}
