/** What every interleaving keeps about the delivery rows, as long as the watchdog never
    fires on a live run: provider calls are bounded, a sent row is final, the backoff is
    respected and a SENT notification has only sent rows. */
module ProtocolDeliveries {
  import opened Options
  import opened Deliveries
  import opened Notifications
  import opened Protocol
  import opened ProtocolSafety

  /** The provider was called for this row and its answer is not recorded yet. */
  ghost predicate InFlight(s: State, i: nat) {
    exists w :: w in s.runs && CallsRow(s.runs[w].phase, i)
  }

  predicate CallsRow(p: Phase, i: nat) {
    p.Calling? && p.next == i
  }

  /** Every provider call is accounted for: a counted failure, the success, a lost answer or
      the call under way. */
  predicate CallsConserved(d: Delivery, h: History, inFlight: bool) {
    && h.calls == d.attempts + h.lost + (if d.status.Sent? then 1 else 0) + (if inFlight then 1 else 0)
    && (if d.status.Sent? then d.attempts <= 2 && !inFlight
        else d.attempts <= if inFlight then 2 else 3)
  }

  /** The rows a run has still to handle are as it loaded them. */
  predicate SnapshotCurrent(s: State, p: Phase) {
    p.Opened? || p.Cleared? ||
    (|p.snap| == |s.deliveries| && forall j :: p.next <= j < |p.snap| ==> p.snap[j] == s.deliveries[j])
  }

  predicate PhaseConsistent(s: State, p: Phase) {
    && SnapshotCurrent(s, p)
    && (p.Calling? && p.next < |s.deliveries| ==> !s.deliveries[p.next].status.Sent?)
    && (p.Counting? && p.next < |s.deliveries| ==> !s.deliveries[p.next].status.Sent?)
  }

  ghost predicate RowsInvariant(s: State) {
    && Shape(s)
    && (forall i :: 0 <= i < |s.deliveries| ==> CallsConserved(s.deliveries[i], s.history[i], InFlight(s, i)))
    && (forall w :: w in s.runs ==> PhaseConsistent(s, s.runs[w].phase))
  }

  /** With a single live run, the call under way is that run's. */
  lemma InFlightOfTheRun(s: State, w: nat)
    requires Exclusive(s) && w in s.runs
    ensures forall i :: InFlight(s, i) <==> CallsRow(s.runs[w].phase, i)
  {
  }

  lemma NothingInFlight(s: State)
    requires forall w :: w !in s.runs
    ensures forall i :: !InFlight(s, i)
  {
  }

  lemma OtherActorsKeepRows(s: State, a: Action)
    requires RowsInvariant(s) && Exclusive(s) && Enabled(s, a) && !IsRunStep(a)
    ensures RowsInvariant(Apply(s, a))
  {
    OtherActorsWriteNoDelivery(s, a);
    ShapeStep(s, a);
    var s' := Apply(s, a);
    assert forall i :: InFlight(s', i) <==> InFlight(s, i);
  }

  /** The premises shared by the steps of the single live run. */
  ghost predicate RunStep(s: State, a: Action) {
    RowsInvariant(s) && Exclusive(s) && Enabled(s, a) && IsRunStep(a) && Exclusive(Apply(s, a))
  }

  lemma VisitKeepsCalls(s: State, a: Action)
    requires RunStep(s, a) && a.Visit?
    ensures var t := Apply(s, a);
            && |t.history| == |t.deliveries|
            && forall i :: 0 <= i < |t.deliveries| ==> CallsConserved(t.deliveries[i], t.history[i], InFlight(t, i))
  {
    var p, t := s.runs[a.worker].phase, Apply(s, a);
    InFlightOfTheRun(s, a.worker);
    InFlightOfTheRun(t, a.worker);
    assert PhaseConsistent(s, p) && !CallsRow(p, p.next);
    assert CallsConserved(s.deliveries[p.next], s.history[p.next], false);
  }

  lemma VisitKeepsRows(s: State, a: Action)
    requires RunStep(s, a) && a.Visit?
    ensures RowsInvariant(Apply(s, a))
  {
    ShapeStep(s, a);
    VisitKeepsCalls(s, a);
    RowStepIsLocal(s, a);
    assert PhaseConsistent(s, s.runs[a.worker].phase);
  }

  lemma AnswerKeepsRows(s: State, a: Action)
    requires RunStep(s, a) && a.Answer?
    ensures RowsInvariant(Apply(s, a))
  {
    ShapeStep(s, a);
    InFlightOfTheRun(s, a.worker);
    InFlightOfTheRun(Apply(s, a), a.worker);
    assert PhaseConsistent(s, s.runs[a.worker].phase);
  }

  lemma SaveFailKeepsRows(s: State, a: Action)
    requires RunStep(s, a) && a.SaveFail?
    ensures RowsInvariant(Apply(s, a))
  {
    ShapeStep(s, a);
    InFlightOfTheRun(s, a.worker);
    InFlightOfTheRun(Apply(s, a), a.worker);
    assert PhaseConsistent(s, s.runs[a.worker].phase);
  }

  lemma CancelNextKeepsRows(s: State, a: Action)
    requires RunStep(s, a) && a.CancelNext?
    ensures RowsInvariant(Apply(s, a))
  {
    ShapeStep(s, a);
    InFlightOfTheRun(s, a.worker);
    InFlightOfTheRun(Apply(s, a), a.worker);
    assert PhaseConsistent(s, s.runs[a.worker].phase);
  }

  lemma CrashKeepsRows(s: State, a: Action)
    requires RunStep(s, a) && a.Crash?
    ensures RowsInvariant(Apply(s, a))
  {
  }

  lemma OtherRunStepsKeepRows(s: State, a: Action)
    requires RunStep(s, a)
    requires !a.Visit? && !a.Answer? && !a.SaveFail? && !a.CancelNext? && !a.Crash?
    ensures RowsInvariant(Apply(s, a))
  {
    var s' := Apply(s, a);
    ShapeStep(s, a);
    InFlightOfTheRun(s, a.worker);
    if a.worker in s'.runs {
      InFlightOfTheRun(s', a.worker);
    } else {
      NothingInFlight(s');
    }
  }

  lemma RowsStep(s: State, a: Action)
    requires RowsInvariant(s) && Exclusive(s) && Enabled(s, a) && Exclusive(Apply(s, a))
    ensures RowsInvariant(Apply(s, a))
  {
    if !IsRunStep(a) { OtherActorsKeepRows(s, a); }
    else if a.Visit? { VisitKeepsRows(s, a); }
    else if a.Answer? { AnswerKeepsRows(s, a); }
    else if a.SaveFail? { SaveFailKeepsRows(s, a); }
    else if a.CancelNext? { CancelNextKeepsRows(s, a); }
    else if a.Crash? { CrashKeepsRows(s, a); }
    else { OtherRunStepsKeepRows(s, a); }
  }

  // ---------- Backoff ----------

  /** After a saved failure that leaves attempts, either the backoff is over or the row is
      not due before its end. */
  predicate BackoffKept(d: Delivery, h: History, now: int) {
    h.lastFailure.Some? && h.lastFailure.value.count < MAX_DELIVERY_ATTEMPTS && !d.status.Sent? ==>
      var f := h.lastFailure.value;
      || f.at + RetryDelay(f.count) <= now
      || (d.nextRetryAt.Some? && f.at + RetryDelay(f.count) <= d.nextRetryAt.value)
  }

  predicate BackoffInvariant(s: State) {
    && |s.history| == |s.deliveries|
    && forall i :: 0 <= i < |s.deliveries| ==> BackoffKept(s.deliveries[i], s.history[i], s.now)
  }

  lemma VisitKeepsBackoff(s: State, a: Action)
    requires BackoffInvariant(s) && RowsInvariant(s) && Enabled(s, a) && a.Visit?
    ensures BackoffInvariant(Apply(s, a))
  {
    assert PhaseConsistent(s, s.runs[a.worker].phase);
  }

  lemma BackoffStep(s: State, a: Action)
    requires BackoffInvariant(s) && RowsInvariant(s) && Enabled(s, a)
    ensures BackoffInvariant(Apply(s, a))
  {
    if a.Visit? {
      VisitKeepsBackoff(s, a);
    } else if a.SaveFail? || a.Answer? {
      assert PhaseConsistent(s, s.runs[a.worker].phase);
    } else if !a.CancelNext? && !a.Load? && !a.Crash? {
      assert Apply(s, a).deliveries == s.deliveries && Apply(s, a).history == s.history;
    }
  }

  // ---------- A sent notification ----------

  /** While the counters of a run show nothing but successes, the rows done are sent. */
  predicate TallyTruthful(s: State, p: Phase) {
    p.Sending? || p.Calling? || p.Counting? ==>
      && s.deliveries != []
      && (p.tally.failed == p.tally.deferred == p.tally.waiting == 0 ==>
            forall j :: 0 <= j < p.next && j < |s.deliveries| ==> s.deliveries[j].status.Sent?)
  }

  ghost predicate SentInvariant(s: State) {
    && (s.row.status.SENT? ==> AllSent(s.deliveries) && s.deliveries != [])
    && (forall w :: w in s.runs ==> TallyTruthful(s, s.runs[w].phase))
  }

  /** What a step on one row leaves alone. */
  lemma RowStepIsLocal(s: State, a: Action)
    requires RunStep(s, a) && (a.Visit? || a.Answer? || a.SaveFail?)
    ensures Apply(s, a).row == s.row && s.row.status.PROCESSING?
    ensures |Apply(s, a).deliveries| == |s.deliveries|
    ensures forall j :: 0 <= j < |s.deliveries| && j != s.runs[a.worker].phase.next ==>
              Apply(s, a).deliveries[j] == s.deliveries[j]
    ensures forall v :: v in Apply(s, a).runs ==> v == a.worker
  {
  }

  lemma VisitKeepsSent(s: State, a: Action)
    requires SentInvariant(s) && RunStep(s, a) && a.Visit?
    ensures SentInvariant(Apply(s, a))
  {
    RowStepIsLocal(s, a);
    var p := s.runs[a.worker].phase;
    assert SnapshotCurrent(s, p) && TallyTruthful(s, p);
  }

  lemma RecordingKeepsSent(s: State, a: Action)
    requires SentInvariant(s) && RunStep(s, a) && (a.Answer? || a.SaveFail?)
    ensures SentInvariant(Apply(s, a))
  {
    RowStepIsLocal(s, a);
    assert TallyTruthful(s, s.runs[a.worker].phase);
  }

  lemma OtherActorsKeepSent(s: State, a: Action)
    requires SentInvariant(s) && RowInvariant(s) && Enabled(s, a) && !IsRunStep(a)
    ensures SentInvariant(Apply(s, a))
  {
    OtherActorsWriteNoDelivery(s, a);
    assert Apply(s, a).row.status.SENT? ==> s.row.status.SENT?;
  }

  lemma OtherRunStepsKeepSent(s: State, a: Action)
    requires SentInvariant(s) && RunStep(s, a)
    requires !a.Visit? && !a.Answer? && !a.SaveFail?
    ensures SentInvariant(Apply(s, a))
  {
    var t := Apply(s, a);
    assert s.row.status.PROCESSING? && forall v :: v in t.runs ==> v == a.worker;
    assert TallyTruthful(s, s.runs[a.worker].phase);
    if a.Finish? {
      assert SnapshotCurrent(s, s.runs[a.worker].phase);
    } else if a.CancelNext? {
      assert t.row == s.row && t.runs[a.worker].phase.Closing?;
    } else if !a.Load? {
      assert t.deliveries == s.deliveries;
    }
  }

  lemma SentStep(s: State, a: Action)
    requires SentInvariant(s) && RowsInvariant(s) && Exclusive(s) && RowInvariant(s) && Enabled(s, a)
    requires Exclusive(Apply(s, a))
    ensures SentInvariant(Apply(s, a))
  {
    if a.Visit? {
      VisitKeepsSent(s, a);
    } else if a.Answer? || a.SaveFail? {
      RecordingKeepsSent(s, a);
    } else if IsRunStep(a) {
      OtherRunStepsKeepSent(s, a);
    } else {
      OtherActorsKeepSent(s, a);
    }
  }

  // ---------- Over whole runs ----------

  ghost predicate DeliveryInvariants(s: State) {
    Exclusive(s) && RowInvariant(s) && RowsInvariant(s) && BackoffInvariant(s) && SentInvariant(s)
  }

  lemma InitialDeliveryInvariants(s: State)
    requires Init(s)
    ensures DeliveryInvariants(s)
  {
  }

  lemma {:induction false} DeliveryInvariantsHold(ss: seq<State>, acts: seq<Action>, i: nat)
    requires SparedBehaviour(ss, acts) && i < |ss|
    ensures DeliveryInvariants(ss[i])
  {
    if i == 0 {
      InitialDeliveryInvariants(ss[0]);
    } else {
      DeliveryInvariantsHold(ss, acts, i - 1);
      SparedIsExclusive(ss, acts, i);
      var s, a := ss[i - 1], acts[i - 1];
      RowInvariantStep(s, a);
      RowsStep(s, a);
      BackoffStep(s, a);
      SentStep(s, a);
    }
  }

  /** Over any interleaving that spares live runs, with retries, manual re-sends, deferrals, cancellations
      and crashes: a delivery's provider calls are at most three plus the calls whose answer
      a crash lost, and a sent delivery has at most two recorded failures. */
  lemma ProviderCallsAreBounded(ss: seq<State>, acts: seq<Action>, i: nat, k: nat)
    requires SparedBehaviour(ss, acts) && i < |ss| && k < |ss[i].deliveries|
    ensures |ss[i].history| == |ss[i].deliveries|
    ensures ss[i].history[k].calls <= 3 + ss[i].history[k].lost
    ensures ss[i].deliveries[k].attempts <= 3
    ensures ss[i].deliveries[k].status.Sent? ==> ss[i].deliveries[k].attempts <= 2
  {
    DeliveryInvariantsHold(ss, acts, i);
    assert CallsConserved(ss[i].deliveries[k], ss[i].history[k], InFlight(ss[i], k));
  }

  lemma SentRowIsKept(s: State, a: Action, k: nat)
    requires RowsInvariant(s) && Enabled(s, a) && k < |s.deliveries| && s.deliveries[k].status.Sent?
    ensures k < |Apply(s, a).deliveries| && Apply(s, a).deliveries[k] == s.deliveries[k]
    ensures |Apply(s, a).history| == |s.history| && Apply(s, a).history[k].calls == s.history[k].calls
  {
    if IsRunStep(a) {
      assert PhaseConsistent(s, s.runs[a.worker].phase) && PhaseInShape(s, s.runs[a.worker].phase);
    }
  }

  /** If row k is sent, it stays as it is and no further call is made for it. */
  predicate KeepsIfSent(s: State, t: State, k: nat) {
    k < |s.deliveries| == |s.history| && s.deliveries[k].status.Sent? ==>
      && k < |t.deliveries| == |t.history|
      && t.deliveries[k] == s.deliveries[k] && t.history[k].calls == s.history[k].calls
  }

  lemma SentDeliveryIsKeptByStep(ss: seq<State>, acts: seq<Action>, i: nat, k: nat)
    requires SparedBehaviour(ss, acts) && i < |acts|
    ensures KeepsIfSent(ss[i], ss[i + 1], k)
  {
    DeliveryInvariantsHold(ss, acts, i);
    ShapeHolds(ss, acts, i + 1);
    if k < |ss[i].deliveries| && ss[i].deliveries[k].status.Sent? {
      SentRowIsKept(ss[i], acts[i], k);
    }
  }

  lemma {:induction false} KeptThroughout(ss: seq<State>, i: nat, j: nat, k: nat)
    requires i <= j < |ss| && forall m :: i <= m < j ==> KeepsIfSent(ss[m], ss[m + 1], k)
    ensures KeepsIfSent(ss[i], ss[j], k)
    decreases j
  {
    if i < j {
      KeptThroughout(ss, i, j - 1, k);
      assert KeepsIfSent(ss[j - 1], ss[j - 1 + 1], k);
    }
  }

  /** A sent delivery stays exactly as it is and is never pushed again. */
  lemma SentDeliveryIsFinal(ss: seq<State>, acts: seq<Action>, i: nat, j: nat, k: nat)
    requires SparedBehaviour(ss, acts) && i <= j < |ss|
    requires k < |ss[i].deliveries| && ss[i].deliveries[k].status.Sent?
    ensures k < |ss[j].deliveries| && k < |ss[j].history| && k < |ss[i].history|
    ensures ss[j].deliveries[k] == ss[i].deliveries[k]
    ensures ss[j].history[k].calls == ss[i].history[k].calls
  {
    ShapeHolds(ss, acts, i);
    forall m | i <= m < j ensures KeepsIfSent(ss[m], ss[m + 1], k) {
      SentDeliveryIsKeptByStep(ss, acts, m, k);
    }
    KeptThroughout(ss, i, j, k);
  }

  /** The step that calls the provider for row k. */
  predicate CallsProvider(s: State, a: Action, k: nat) {
    a.Visit? && Enabled(s, a) && s.runs[a.worker].phase.next == k
    && ArmFor(s.runs[a.worker].phase.snap[k], a.reason, s.now, a.quietEnd).Push?
  }

  /** The next provider call after a saved failure waits for its backoff: one minute after
      the first failure, five after the second, whatever sweeps, re-sends, deferrals and
      crashes occurred since (a cancellation starts afresh). */
  lemma CallsRespectBackoff(ss: seq<State>, acts: seq<Action>, i: nat, k: nat)
    requires SparedBehaviour(ss, acts) && i < |acts| && CallsProvider(ss[i], acts[i], k)
    ensures k < |ss[i].history|
    ensures var last := ss[i].history[k].lastFailure;
            && (last.Some? && last.value.count == 1 ==> ss[i].now >= last.value.at + 60_000_000)
            && (last.Some? && last.value.count == 2 ==> ss[i].now >= last.value.at + 300_000_000)
  {
    DeliveryInvariantsHold(ss, acts, i);
    var s := ss[i];
    assert PhaseConsistent(s, s.runs[acts[i].worker].phase);
    assert BackoffKept(s.deliveries[k], s.history[k], s.now);
  }

  /** A notification whose status is SENT has only sent rows, at least one, and a sending date. */
  lemma {:induction false} SentNotificationIsDelivered(ss: seq<State>, acts: seq<Action>, i: nat)
    requires SparedBehaviour(ss, acts) && i < |ss|
    ensures ss[i].row.status.SENT? ==>
              AllSent(ss[i].deliveries) && ss[i].deliveries != [] && ss[i].row.sentAt.Some?
  {
    DeliveryInvariantsHold(ss, acts, i);
  }

  // ---------- A run that is alone ----------

  predicate OnlyRun(s: State, w: nat) {
    s.runs.Keys == {w}
  }

  /** The run is the only live one and the rows it has still to handle are as it loaded them. */
  predicate LoneAndCurrent(s: State, w: nat) {
    OnlyRun(s, w) && w in s.runs && SnapshotCurrent(s, s.runs[w].phase)
  }

  lemma {:induction false} LoneStepKeepsSnapshot(s: State, a: Action, w: nat)
    requires Shape(s) && Enabled(s, a) && LoneAndCurrent(s, w) && OnlyRun(Apply(s, a), w)
    ensures LoneAndCurrent(Apply(s, a), w)
  {
    var t := Apply(s, a);
    assert w in t.runs && PhaseInShape(s, s.runs[w].phase);
    if !IsRunStep(a) {
      OtherActorsWriteNoDelivery(s, a);
    } else if a.Load? || a.Lapse? || a.QuietCheck? || a.Finish? || a.CloseLapsed? || a.Crash? {
      assert a.worker == w;
    } else {
      assert a.worker == w;
      RowStepKeepsSnapshot(s, a);
    }
  }

  lemma RowStepKeepsSnapshot(s: State, a: Action)
    requires Enabled(s, a) && (a.Visit? || a.Answer? || a.SaveFail? || a.CancelNext?)
    requires SnapshotCurrent(s, s.runs[a.worker].phase)
    ensures a.worker in Apply(s, a).runs && SnapshotCurrent(Apply(s, a), Apply(s, a).runs[a.worker].phase)
  {
    var i, t := s.runs[a.worker].phase.next, Apply(s, a);
    assert |t.deliveries| == |s.deliveries|;
    assert forall j :: 0 <= j < |s.deliveries| && j != i ==> t.deliveries[j] == s.deliveries[j];
  }

  ghost predicate LoneKept(s: State, t: State, w: nat) {
    LoneAndCurrent(s, w) ==> LoneAndCurrent(t, w)
  }

  lemma {:induction false} LoneThroughout(ss: seq<State>, i: nat, j: nat, w: nat)
    requires i <= j < |ss| && LoneAndCurrent(ss[i], w)
    requires forall m :: i <= m < j ==> LoneKept(ss[m], ss[m + 1], w)
    ensures LoneAndCurrent(ss[j], w)
    decreases j
  {
    if i < j {
      LoneThroughout(ss, i, j - 1, w);
      assert LoneKept(ss[j - 1], ss[j - 1 + 1], w);
    }
  }

  /** In any interleaving, whatever the watchdog did before or does elsewhere: a run that is
      the only live one since it loaded its rows pushes no sent row. */
  lemma {:induction false} LoneRunPushesNoSentRow(
    ss: seq<State>, acts: seq<Action>, i: nat, j: nat, w: nat, k: nat)
    requires Behaviour(ss, acts) && i < j < |acts| && acts[i].Load? && acts[i].worker == w
    requires forall m :: i < m <= j ==> OnlyRun(ss[m], w)
    requires CallsProvider(ss[j], acts[j], k)
    ensures k < |ss[j].deliveries| && !ss[j].deliveries[k].status.Sent?
  {
    assert LoneAndCurrent(ss[i + 1], w) by {
      assert OnlyRun(ss[i + 1], w);
      LoadIsCurrent(ss[i], acts[i]);
    }
    forall m | i + 1 <= m < j ensures LoneKept(ss[m], ss[m + 1], w) {
      if LoneAndCurrent(ss[m], w) {
        ShapeHolds(ss, acts, m);
        assert OnlyRun(ss[m + 1], w);
        LoneStepKeepsSnapshot(ss[m], acts[m], w);
      }
    }
    LoneThroughout(ss, i + 1, j, w);
  }

  lemma LoadIsCurrent(s: State, a: Action)
    requires Enabled(s, a) && a.Load? && OnlyRun(Apply(s, a), a.worker)
    ensures LoneAndCurrent(Apply(s, a), a.worker)
  {
    assert a.worker in Apply(s, a).runs;
  }

  // ---------- Pending rows and the attempt cap ----------

  /** The step leaves a pending row without attempts: it defers a row whose attempts are used
      up, or the worker dies after counting the last failure and before saving it. */
  predicate SpendsOut(s: State, a: Action) {
    || (a.Visit? && AtRow(s, a.worker) && s.runs[a.worker].phase.Sending?
        && var i := s.runs[a.worker].phase.next;
           s.deliveries[i].attempts >= MAX_DELIVERY_ATTEMPTS
           && ArmFor(s.deliveries[i], a.reason, s.now, a.quietEnd).Defer?)
    || (a.Crash? && AtRow(s, a.worker) && s.runs[a.worker].phase.Counting?
        && var i := s.runs[a.worker].phase.next;
           s.deliveries[i].attempts >= MAX_DELIVERY_ATTEMPTS && s.deliveries[i].status.Pending?)
  }

  ghost predicate BeingCounted(s: State, i: nat) {
    exists w :: w in s.runs && s.runs[w].phase.Counting? && s.runs[w].phase.next == i
  }

  /** Pending rows have attempts left, but for the one whose failure is being recorded. */
  ghost predicate BudgetInvariant(s: State) {
    forall i :: 0 <= i < |s.deliveries| && s.deliveries[i].status.Pending? && !BeingCounted(s, i) ==>
      s.deliveries[i].attempts < MAX_DELIVERY_ATTEMPTS
  }

  lemma OtherActorsKeepBudget(s: State, a: Action)
    requires BudgetInvariant(s) && Enabled(s, a) && !IsRunStep(a)
    ensures BudgetInvariant(Apply(s, a))
  {
    OtherActorsWriteNoDelivery(s, a);
    assert forall i :: BeingCounted(s, i) ==> BeingCounted(Apply(s, a), i);
  }

  lemma CountedFailureIsBeingSaved(s: State, a: Action)
    requires Enabled(s, a) && a.Answer? && !a.outcome.Accepted?
    ensures BeingCounted(Apply(s, a), s.runs[a.worker].phase.next)
  {
    var w, t := a.worker, Apply(s, a);
    assert w in t.runs && t.runs[w].phase.Counting? && t.runs[w].phase.next == s.runs[w].phase.next;
  }

  /** A row step settles the row it stands on; no other row was being counted. */
  lemma {:induction false} RowStepBudgetIff(s: State, a: Action)
    requires BudgetInvariant(s) && RunStep(s, a) && (a.Visit? || a.Answer? || a.SaveFail?)
    ensures BudgetInvariant(Apply(s, a)) <==> !SpendsOut(s, a)
  {
    var p, t := s.runs[a.worker].phase, Apply(s, a);
    RowStepIsLocal(s, a);
    assert PhaseConsistent(s, p);
    assert forall i :: BeingCounted(s, i) ==> i == p.next;
    if a.Answer? && !a.outcome.Accepted? {
      CountedFailureIsBeingSaved(s, a);
    } else if a.Visit? {
      assert !BeingCounted(s, p.next) && !BeingCounted(t, p.next);
    }
  }

  lemma CrashBudgetIff(s: State, a: Action)
    requires BudgetInvariant(s) && RunStep(s, a) && a.Crash?
    ensures BudgetInvariant(Apply(s, a)) <==> !SpendsOut(s, a)
  {
    var p, t := s.runs[a.worker].phase, Apply(s, a);
    assert PhaseInShape(s, p);
    assert t.deliveries == s.deliveries && forall i :: !BeingCounted(t, i);
    assert forall i :: BeingCounted(s, i) <==> p.Counting? && p.next == i;
  }

  lemma OtherRunStepsKeepBudget(s: State, a: Action)
    requires BudgetInvariant(s) && RunStep(s, a)
    requires !a.Visit? && !a.Answer? && !a.SaveFail? && !a.Crash?
    ensures BudgetInvariant(Apply(s, a))
  {
    assert forall i :: !BeingCounted(s, i);
  }

  /** A step leaves a pending row without attempts exactly when it spends one out. */
  lemma {:induction false} BudgetStepIff(s: State, a: Action)
    requires BudgetInvariant(s) && RowsInvariant(s) && Exclusive(s) && Enabled(s, a) && Exclusive(Apply(s, a))
    ensures BudgetInvariant(Apply(s, a)) <==> !SpendsOut(s, a)
  {
    if !IsRunStep(a) {
      OtherActorsKeepBudget(s, a);
    } else if a.Visit? || a.Answer? || a.SaveFail? {
      RowStepBudgetIff(s, a);
    } else if a.Crash? {
      CrashBudgetIff(s, a);
    } else {
      OtherRunStepsKeepBudget(s, a);
    }
  }

  lemma {:induction false} BudgetInvariantHolds(ss: seq<State>, acts: seq<Action>, i: nat)
    requires SparedBehaviour(ss, acts) && i < |ss|
    requires forall k :: 0 <= k < i ==> !SpendsOut(ss[k], acts[k])
    ensures BudgetInvariant(ss[i])
  {
    if i > 0 {
      BudgetInvariantHolds(ss, acts, i - 1);
      DeliveryInvariantsHold(ss, acts, i - 1);
      SparedIsExclusive(ss, acts, i);
      BudgetStepIff(ss[i - 1], acts[i - 1]);
    }
  }

  /** As long as the watchdog spares live runs, pending rows have attempts left at all times
      exactly when no step spends one out. */
  lemma {:induction false} PendingRowsHaveBudgetIff(ss: seq<State>, acts: seq<Action>)
    requires SparedBehaviour(ss, acts)
    ensures (forall i :: 0 <= i < |ss| ==> BudgetInvariant(ss[i]))
            <==> (forall i :: 0 <= i < |acts| ==> !SpendsOut(ss[i], acts[i]))
  {
    if forall i :: 0 <= i < |acts| ==> !SpendsOut(ss[i], acts[i]) {
      forall i | 0 <= i < |ss| ensures BudgetInvariant(ss[i]) {
        BudgetInvariantHolds(ss, acts, i);
      }
    }
    if forall i :: 0 <= i < |ss| ==> BudgetInvariant(ss[i]) {
      forall i | 0 <= i < |acts| ensures !SpendsOut(ss[i], acts[i]) {
        DeliveryInvariantsHold(ss, acts, i);
        SparedIsExclusive(ss, acts, i + 1);
        assert BudgetInvariant(ss[i]) && BudgetInvariant(ss[i + 1]);
        BudgetStepIff(ss[i], acts[i]);
      }
    }
  }

  /** At rest, if no step so far has spent a row out, every pending row has attempts left:
      sweeping such a state terminates. */
  lemma RestingPendingRowsHaveBudget(ss: seq<State>, acts: seq<Action>, i: nat)
    requires SparedBehaviour(ss, acts) && i < |ss| && ss[i].runs == map[]
    requires forall k :: 0 <= k < i ==> !SpendsOut(ss[k], acts[k])
    ensures PendingRowsHaveBudget(ss[i].deliveries)
  {
    BudgetInvariantHolds(ss, acts, i);
    assert forall k :: !BeingCounted(ss[i], k);
  }
}
