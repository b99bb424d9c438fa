/** No delivery is forgotten: in a FAILED or PARTIAL notification every pending row that has
    attempts left carries the date from which the retry sweep finds it. */
module ProtocolRetries {
  import opened Options
  import opened Deliveries
  import opened Notifications
  import opened Protocol
  import opened ProtocolSafety
  import opened ProtocolDeliveries

  /** A pending row with attempts left that no sweep would ever find. */
  predicate Undated(d: Delivery) {
    d.status.Pending? && d.nextRetryAt.None? && d.attempts < MAX_DELIVERY_ATTEMPTS
  }

  ghost predicate HasUndated(s: State) {
    exists k :: 0 <= k < |s.deliveries| && Undated(s.deliveries[k])
  }

  // ---------- One carrier until there are rows ----------

  predicate HoldsQueuedRow(s: State, c: nat) {
    c in s.callers && !s.callers[c].Checked?
  }

  /** Before any row exists no sweep submits anything, so a queued notification has at most
      one carrier, and any other has none. */
  ghost predicate OneCarrier(s: State) {
    s.deliveries == [] ==>
      && s.sweeps == 0
      && s.broker + s.claims + s.handoffs <= (if s.row.status.QUEUED? then 1 else 0)
      && (!s.row.status.QUEUED? || s.broker + s.claims + s.handoffs == 1 ==> forall c :: !HoldsQueuedRow(s, c))
      && (forall c, d :: HoldsQueuedRow(s, c) && HoldsQueuedRow(s, d) ==> c == d)
  }

  lemma CallerStepKeepsOneCarrier(s: State, a: Action)
    requires OneCarrier(s) && CallersKeepQueueableStatus(s) && Enabled(s, a)
    requires a.Read? || a.Cas? || a.Submit? || a.Rollback? || a.CallerCrash?
    ensures OneCarrier(Apply(s, a))
  {
    var t := Apply(s, a);
    assert forall d :: d != a.caller ==> (HoldsQueuedRow(t, d) <==> HoldsQueuedRow(s, d));
    if s.deliveries == [] {
      assert HoldsQueuedRow(s, a.caller) ==> s.row.status.QUEUED? && s.broker + s.claims + s.handoffs == 0;
    }
  }

  lemma RunStepKeepsOneCarrier(s: State, a: Action)
    requires OneCarrier(s) && Exclusive(s) && Enabled(s, a) && IsRunStep(a)
    ensures OneCarrier(Apply(s, a))
  {
    var t := Apply(s, a);
    assert s.row.status.PROCESSING?;
    assert t.callers == s.callers && t.broker == s.broker && t.claims == s.claims && t.handoffs == s.handoffs;
    assert t.sweeps == s.sweeps && !t.row.status.QUEUED?;
    assert t.deliveries == [] ==> s.deliveries == [];
    assert forall c :: HoldsQueuedRow(t, c) <==> HoldsQueuedRow(s, c);
  }

  lemma {:induction false} OneCarrierStep(s: State, a: Action)
    requires OneCarrier(s) && Exclusive(s) && CallersKeepQueueableStatus(s) && Enabled(s, a)
    ensures OneCarrier(Apply(s, a))
  {
    if a.Read? || a.Cas? || a.Submit? || a.Rollback? || a.CallerCrash? {
      CallerStepKeepsOneCarrier(s, a);
    } else if IsRunStep(a) {
      RunStepKeepsOneCarrier(s, a);
    } else {
      var t := Apply(s, a);
      assert t.deliveries == s.deliveries && t.callers == s.callers;
      assert forall c :: HoldsQueuedRow(t, c) <==> HoldsQueuedRow(s, c);
      assert a.SweepScan? ==> s.deliveries != [];
    }
  }

  // ---------- The rows a run has handled ----------

  /** The rows before the run's position are dated, exhausted or settled. */
  predicate HandledRowsDated(s: State, p: Phase) {
    && (p.Sending? || p.Calling? || p.Counting? ==>
          forall j :: 0 <= j < p.next && j < |s.deliveries| ==> !Undated(s.deliveries[j]))
    && (p.Closing? ==>
          forall j :: 0 <= j < p.next && j < |s.deliveries| ==> !s.deliveries[j].status.Pending?)
  }

  ghost predicate RunsDateRows(s: State) {
    forall w :: w in s.runs ==> HandledRowsDated(s, s.runs[w].phase)
  }

  /** The row a run stands on becomes dated, exhausted or settled before the run moves on. */
  lemma RowStepSettlesItsRow(s: State, a: Action)
    requires RunStep(s, a) && (a.Visit? || a.Answer? || a.SaveFail?)
    ensures var p, t := s.runs[a.worker].phase, Apply(s, a);
            && a.worker in t.runs
            && (t.runs[a.worker].phase.Sending? || t.runs[a.worker].phase.Calling? || t.runs[a.worker].phase.Counting?)
            && p.next < |t.deliveries| && p.next <= t.runs[a.worker].phase.next <= p.next + 1
            && (Undated(t.deliveries[p.next]) ==>
                  Undated(s.deliveries[p.next]) && t.runs[a.worker].phase.next == p.next)
  {
    assert PhaseConsistent(s, s.runs[a.worker].phase);
  }

  lemma RowStepDatesRow(s: State, a: Action)
    requires RunsDateRows(s) && RunStep(s, a) && (a.Visit? || a.Answer? || a.SaveFail?)
    ensures RunsDateRows(Apply(s, a))
    ensures HasUndated(Apply(s, a)) ==> HasUndated(s)
  {
    var p, t := s.runs[a.worker].phase, Apply(s, a);
    RowStepIsLocal(s, a);
    RowStepSettlesItsRow(s, a);
    assert HandledRowsDated(s, p);
    if HasUndated(t) {
      var k :| 0 <= k < |t.deliveries| && Undated(t.deliveries[k]);
      assert Undated(s.deliveries[k]);
    }
  }

  lemma CancelSettlesRow(s: State, a: Action)
    requires RunsDateRows(s) && RunStep(s, a) && a.CancelNext?
    ensures RunsDateRows(Apply(s, a))
    ensures HasUndated(Apply(s, a)) ==> HasUndated(s)
  {
    var p, t := s.runs[a.worker].phase, Apply(s, a);
    assert PhaseConsistent(s, p) && HandledRowsDated(s, p);
    assert forall j :: 0 <= j < |s.deliveries| && j != p.next ==> t.deliveries[j] == s.deliveries[j];
    assert !t.deliveries[p.next].status.Pending?;
    assert forall v :: v in t.runs ==> v == a.worker;
    if HasUndated(t) {
      var k :| 0 <= k < |t.deliveries| && Undated(t.deliveries[k]);
      assert Undated(s.deliveries[k]);
    }
  }

  lemma OtherStepsDateRows(s: State, a: Action)
    requires RunsDateRows(s) && Exclusive(s) && Enabled(s, a)
    requires !a.Visit? && !a.Answer? && !a.SaveFail? && !a.CancelNext?
    ensures RunsDateRows(Apply(s, a))
    ensures !a.Load? ==> Apply(s, a).deliveries == s.deliveries
  {
    var t := Apply(s, a);
    if IsRunStep(a) {
      assert forall v :: v in t.runs ==> v == a.worker;
    } else {
      OtherActorsWriteNoDelivery(s, a);
    }
  }

  // ---------- Settled notifications ----------

  predicate Settled(status: NotificationStatus) {
    status.FAILED? || status.PARTIAL?
  }

  /** While some row is undated, the notification is neither FAILED nor PARTIAL, and no
      rollback can make it so. */
  ghost predicate UndatedIsUnsettled(s: State) {
    HasUndated(s) ==>
      !Settled(s.row.status) && forall c :: HoldsQueuedRow(s, c) ==> !Settled(s.callers[c].prev)
  }

  lemma OtherActorsKeepUnsettled(s: State, a: Action)
    requires UndatedIsUnsettled(s) && Enabled(s, a) && !IsRunStep(a)
    ensures UndatedIsUnsettled(Apply(s, a))
  {
    OtherActorsWriteNoDelivery(s, a);
    var t := Apply(s, a);
    assert HasUndated(t) <==> HasUndated(s);
    assert forall c :: HoldsQueuedRow(t, c) ==>
             (HoldsQueuedRow(s, c) && t.callers[c].prev == s.callers[c].prev) || t.callers[c].prev == s.row.status;
  }

  lemma LoadKeepsUnsettled(s: State, a: Action)
    requires UndatedIsUnsettled(s) && OneCarrier(s) && Exclusive(s) && Enabled(s, a) && a.Load?
    ensures UndatedIsUnsettled(Apply(s, a))
  {
    var t := Apply(s, a);
    assert s.row.status.PROCESSING? && t.callers == s.callers && !Settled(t.row.status);
    assert forall c :: HoldsQueuedRow(t, c) <==> HoldsQueuedRow(s, c);
    if s.deliveries == [] {
      assert forall c :: !HoldsQueuedRow(s, c);
    } else {
      assert t.deliveries == s.deliveries;
    }
  }

  /** A run that ends FAILED or PARTIAL has left no row undated. */
  lemma EndingRunHasDatedRows(s: State, a: Action)
    requires RunsDateRows(s) && RunStep(s, a) && (a.Finish? || a.CloseLapsed?)
    ensures !HasUndated(Apply(s, a))
  {
    var p := s.runs[a.worker].phase;
    assert HandledRowsDated(s, p) && PhaseConsistent(s, p);
  }

  lemma {:induction false} RunStepKeepsUnsettled(s: State, a: Action)
    requires UndatedIsUnsettled(s) && RunsDateRows(s) && OneCarrier(s) && RunStep(s, a)
    ensures UndatedIsUnsettled(Apply(s, a))
  {
    var t := Apply(s, a);
    assert s.row.status.PROCESSING? && t.callers == s.callers;
    if a.Load? {
      LoadKeepsUnsettled(s, a);
    } else if a.Finish? || a.CloseLapsed? {
      EndingRunHasDatedRows(s, a);
    } else {
      assert !Settled(t.row.status);
      if a.CancelNext? {
        CancelSettlesRow(s, a);
      } else if a.Visit? || a.Answer? || a.SaveFail? {
        RowStepDatesRow(s, a);
      } else {
        assert t.deliveries == s.deliveries;
      }
    }
  }

  ghost predicate RetryInvariants(s: State) {
    OneCarrier(s) && RunsDateRows(s) && UndatedIsUnsettled(s)
  }

  lemma RetryStep(s: State, a: Action)
    requires RetryInvariants(s) && RowsInvariant(s) && RowInvariant(s)
    requires Exclusive(s) && Enabled(s, a) && Exclusive(Apply(s, a))
    ensures RetryInvariants(Apply(s, a))
  {
    OneCarrierStep(s, a);
    if IsRunStep(a) {
      RunStepKeepsUnsettled(s, a);
    } else {
      OtherActorsKeepUnsettled(s, a);
    }
    if a.CancelNext? {
      CancelSettlesRow(s, a);
    } else if a.Visit? || a.Answer? || a.SaveFail? {
      RowStepDatesRow(s, a);
    } else {
      OtherStepsDateRows(s, a);
    }
  }

  lemma {:induction false} RetryInvariantsHold(ss: seq<State>, acts: seq<Action>, i: nat)
    requires SparedBehaviour(ss, acts) && i < |ss|
    ensures RetryInvariants(ss[i])
  {
    if i > 0 {
      RetryInvariantsHold(ss, acts, i - 1);
      DeliveryInvariantsHold(ss, acts, i - 1);
      SparedIsExclusive(ss, acts, i);
      RetryStep(ss[i - 1], acts[i - 1]);
    }
  }

  /** Whatever crashes, retries, deferrals, rollbacks and re-sends occur, as long as the
      watchdog spares live runs: in a FAILED or PARTIAL notification the sweep finds every
      pending row with attempts left, from some date on. */
  lemma {:induction false} NoPendingRowIsForgotten(ss: seq<State>, acts: seq<Action>, i: nat, k: nat)
    requires SparedBehaviour(ss, acts) && i < |ss| && Settled(ss[i].row.status)
    requires k < |ss[i].deliveries| && ss[i].deliveries[k].status.Pending?
    requires ss[i].deliveries[k].attempts < MAX_DELIVERY_ATTEMPTS
    ensures ss[i].deliveries[k].nextRetryAt.Some?
    ensures forall now :: now >= ss[i].deliveries[k].nextRetryAt.value ==> Enabled(ss[i].(now := now), SweepScan)
  {
    RetryInvariantsHold(ss, acts, i);
    assert !Undated(ss[i].deliveries[k]);
    forall now | now >= ss[i].deliveries[k].nextRetryAt.value ensures Enabled(ss[i].(now := now), SweepScan) {
      assert Due(ss[i].deliveries[k], now);
    }
  }

  /** If moreover no step has spent a row out, this holds of every pending row. */
  lemma {:induction false} EveryPendingRowIsDated(ss: seq<State>, acts: seq<Action>, i: nat)
    requires SparedBehaviour(ss, acts) && i < |ss| && Settled(ss[i].row.status)
    requires forall k :: 0 <= k < i ==> !SpendsOut(ss[k], acts[k])
    ensures forall k :: 0 <= k < |ss[i].deliveries| && ss[i].deliveries[k].status.Pending? ==>
              ss[i].deliveries[k].nextRetryAt.Some?
  {
    SparedIsExclusive(ss, acts, i);
    assert ss[i].runs == map[];
    RestingPendingRowsHaveBudget(ss, acts, i);
    RetryInvariantsHold(ss, acts, i);
    assert forall k :: 0 <= k < |ss[i].deliveries| ==> !Undated(ss[i].deliveries[k]);
  }
}
