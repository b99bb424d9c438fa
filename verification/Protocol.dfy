/** The life of one notification as a state machine: API callers, the minute dispatcher, the
    retry sweep, the watchdog and any number of workers act on its row, its delivery rows
    and the broker, one database or broker access at a time. */
module Protocol {
  import opened Options
  import opened Deliveries
  import opened Notifications

  /** Age from which a PROCESSING row is considered stranded. */
  const STUCK_AFTER: int := 15 * MINUTE

  /** Where a worker stands. `snap` holds the delivery rows as it loaded them: they may be
      stale. Rows before `next` are done. */
  datatype Phase =
    | Opened
    | Closing(next: nat, snap: seq<Delivery>)
    | Cleared(checkedAt: int)
    | Sending(checkedAt: int, next: nat, snap: seq<Delivery>, tally: Tally)
    | Calling(checkedAt: int, next: nat, snap: seq<Delivery>, tally: Tally)
    | Counting(checkedAt: int, next: nat, snap: seq<Delivery>, tally: Tally)

  /** A live run: a worker that acquired the notification. */
  datatype Run = Run(startedAt: int, phase: Phase)

  /** An API caller: it has read the row, or won the conditional update and must submit the
      send task, or must roll back because the broker refused it. */
  datatype Caller =
    | Checked(prev: NotificationStatus)
    | Submitting(prev: NotificationStatus)
    | RollingBack(prev: NotificationStatus)

  /** The last failure saved on a delivery since its last cancellation. */
  datatype Failure = Failure(count: nat, at: int)

  /** What happened to a delivery: provider calls, calls whose answer was never recorded. */
  datatype History = History(calls: nat, lost: nat, lastFailure: Option<Failure>)

  const NO_HISTORY := History(0, 0, None)

  datatype State = State(
    now: int,
    row: Row,
    deliveries: seq<Delivery>,
    broker: nat,                // tasks waiting for a worker
    claims: nat,                // tasks taken by a worker that has not acquired yet
    handoffs: nat,              // dispatcher or watchdog between its update and its submission
    sweeps: nat,                // retry sweeps between their scan and their submission
    callers: map<nat, Caller>,
    runs: map<nat, Run>,
    requeues: nat,              // watchdog requeues so far
    submitted: nat,             // tasks submitted by callers so far
    history: seq<History>
  )

  datatype Action =
    | Tick(duration: nat)
    | Edit(date: int)
    | Read(caller: nat)
    | Cas(caller: nat)
    | Submit(caller: nat, ok: bool)
    | Rollback(caller: nat)
    | CallerCrash(caller: nat)
    | SweepScan
    | SweepSubmit(ok: bool)
    | Dispatch
    | Watchdog(cutoff: int)
    | Handoff(ok: bool)
    | Claim
    | DropClaim
    | Acquire(worker: nat, locked: bool)
    | Lapse(worker: nat)
    | CancelNext(worker: nat)
    | CloseLapsed(worker: nat)
    | QuietCheck(worker: nat, quietEnd: Option<int>)
    | Load(worker: nat, targets: seq<nat>)
    | Visit(worker: nat, reason: Option<CancelReason>, quietEnd: Option<int>)
    | Answer(worker: nat, outcome: Outcome)
    | SaveFail(worker: nat)
    | Finish(worker: nat)
    | Crash(worker: nat)

  predicate Fresh(ds: seq<Delivery>) {
    forall i :: 0 <= i < |ds| ==> ds[i] == NewDelivery(ds[i].device)
  }

  predicate Init(s: State) {
    && s.row == InitialRow(s.row.scheduledFor)
    && Fresh(s.deliveries)
    && s.broker == s.claims == s.handoffs == s.sweeps == s.requeues == s.submitted == 0
    && s.callers == map[] && s.runs == map[]
    && s.history == seq(|s.deliveries|, _ => NO_HISTORY)
  }

  // ---------- Guards ----------

  /** The worker stands before a delivery row it loaded. */
  predicate AtRow(s: State, w: nat) {
    && w in s.runs
    && var p := s.runs[w].phase;
       (p.Closing? || p.Sending? || p.Calling? || p.Counting?)
       && p.next < |p.snap| <= |s.deliveries| == |s.history|
  }

  predicate Enabled(s: State, a: Action) {
    match a
    case Tick(_) => true
    case Edit(date) =>
      s.row.status.SCHEDULED? && s.row.scheduledFor.Some? && s.now < s.row.scheduledFor.value && s.now < date
    case Read(c) =>
      c !in s.callers && Queueable(s.row.status)
      && !(s.row.status.SCHEDULED? && s.row.scheduledFor.Some? && s.row.scheduledFor.value > s.now)
    case Cas(c) => c in s.callers && s.callers[c].Checked?
    case Submit(c, _) => c in s.callers && s.callers[c].Submitting?
    case Rollback(c) => c in s.callers && s.callers[c].RollingBack?
    case CallerCrash(c) => c in s.callers
    case SweepScan => SomeDue(s.deliveries, s.now)
    case SweepSubmit(_) => s.sweeps > 0
    case Dispatch =>
      s.row.status.SCHEDULED? && s.row.scheduledFor.Some? && s.row.scheduledFor.value <= s.now
    case Watchdog(cutoff) =>
      cutoff <= s.now - STUCK_AFTER && s.row.status.PROCESSING?
      && s.row.processingStartedAt.Some? && s.row.processingStartedAt.value < cutoff
    case Handoff(_) => s.handoffs > 0
    case Claim => s.broker > 0
    case DropClaim => s.claims > 0
    case Acquire(w, _) => s.claims > 0 && w !in s.runs
    case Lapse(w) => w in s.runs && s.runs[w].phase.Opened?
    case CancelNext(w) => AtRow(s, w) && s.runs[w].phase.Closing?
    case CloseLapsed(w) =>
      w in s.runs && s.runs[w].phase.Closing? && s.runs[w].phase.next == |s.runs[w].phase.snap|
    case QuietCheck(w, quietEnd) =>
      w in s.runs && s.runs[w].phase.Opened? && (quietEnd.Some? ==> s.now < quietEnd.value)
    case Load(w, _) => w in s.runs && s.runs[w].phase.Cleared?
    case Visit(w, _, quietEnd) =>
      AtRow(s, w) && s.runs[w].phase.Sending? && (quietEnd.Some? ==> s.now < quietEnd.value)
    case Answer(w, _) => AtRow(s, w) && s.runs[w].phase.Calling?
    case SaveFail(w) => AtRow(s, w) && s.runs[w].phase.Counting?
    case Finish(w) =>
      w in s.runs && s.runs[w].phase.Sending? && s.runs[w].phase.next == |s.runs[w].phase.snap|
    case Crash(w) => w in s.runs
  }

  /** Actions of a worker on its live run. */
  predicate IsRunStep(a: Action) {
    a.Lapse? || a.CancelNext? || a.CloseLapsed? || a.QuietCheck? || a.Load? || a.Visit?
    || a.Answer? || a.SaveFail? || a.Finish? || a.Crash?
  }

  // ---------- Effects ----------

  function InPhaseNow(s: State, w: nat, p: Phase): State
    requires w in s.runs
  {
    s.(runs := s.runs[w := s.runs[w].(phase := p)])
  }

  /** The run writes its last row update and ends. */
  function EndRun(s: State, w: nat, row: Row): State {
    s.(runs := s.runs - {w}, row := row)
  }

  function PutDelivery(s: State, i: nat, d: Delivery): State
    requires i < |s.deliveries|
  {
    s.(deliveries := s.deliveries[i := d])
  }

  function PutHistory(s: State, i: nat, h: History): State
    requires i < |s.history|
  {
    s.(history := s.history[i := h])
  }

  function WithoutCaller(s: State, c: nat): State {
    s.(callers := s.callers - {c})
  }

  /** The row goes on to the next delivery with one more verdict. */
  function NextRow(s: State, w: nat, v: Verdict): State
    requires w in s.runs && (s.runs[w].phase.Sending? || s.runs[w].phase.Calling? || s.runs[w].phase.Counting?)
  {
    var p := s.runs[w].phase;
    InPhaseNow(s, w, Sending(p.checkedAt, p.next + 1, p.snap, Counted(p.tally, v)))
  }

  /** The save that closes a failure: it decides on the attempt count in memory and leaves
      the stored count alone. */
  function WriteFailure(stored: Delivery, attempts: nat, now: int): Delivery {
    SaveFailure(stored.(attempts := attempts), now).(attempts := stored.attempts)
  }

  function ApplyVisit(s: State, w: nat, reason: Option<CancelReason>, quietEnd: Option<int>): State
    requires Enabled(s, Visit(w, reason, quietEnd))
  {
    var p := s.runs[w].phase;
    var i := p.next;
    match ArmFor(p.snap[i], reason, s.now, quietEnd)
    case SkipSent => NextRow(s, w, WasSkipped)
    case CancelRow =>
      var s1 := PutHistory(PutDelivery(s, i, Cancel(s.deliveries[i], s.now)), i, s.history[i].(lastFailure := None));
      NextRow(s1, w, HasFailed)
    case Wait => NextRow(s, w, IsWaiting)
    case Defer(until) => NextRow(PutDelivery(s, i, MarkDeferred(s.deliveries[i], s.now, until)), w, WasDeferred)
    case Exhausted => NextRow(s, w, HasFailed)
    case Push =>
      var s1 := PutHistory(s, i, s.history[i].(calls := s.history[i].calls + 1));
      InPhaseNow(s1, w, Calling(p.checkedAt, i, p.snap, p.tally))
  }

  function ApplyAnswer(s: State, w: nat, outcome: Outcome): State
    requires Enabled(s, Answer(w, outcome))
  {
    var p := s.runs[w].phase;
    var i := p.next;
    if outcome.Accepted? then NextRow(PutDelivery(s, i, MarkSent(s.deliveries[i], s.now)), w, WasSent)
    else
      var counted := CountFailure(s.deliveries[i]);
      InPhaseNow(PutDelivery(s, i, counted), w,
                 Counting(p.checkedAt, i, p.snap[i := p.snap[i].(attempts := counted.attempts)], p.tally))
  }

  function ApplySaveFail(s: State, w: nat): State
    requires Enabled(s, SaveFail(w))
  {
    var p := s.runs[w].phase;
    var i := p.next;
    var attempts := p.snap[i].attempts;
    var s1 := PutDelivery(s, i, WriteFailure(s.deliveries[i], attempts, s.now));
    NextRow(PutHistory(s1, i, s.history[i].(lastFailure := Some(Failure(attempts, s.now)))), w, HasFailed)
  }

  function ApplyCancelNext(s: State, w: nat): State
    requires Enabled(s, CancelNext(w))
  {
    var p := s.runs[w].phase;
    var i := p.next;
    var s1 := if p.snap[i].status.Sent? then s
              else PutHistory(PutDelivery(s, i, Cancel(s.deliveries[i], s.now)), i,
                              s.history[i].(lastFailure := None));
    InPhaseNow(s1, w, Closing(i + 1, p.snap))
  }

  function ApplyLoad(s: State, w: nat, targets: seq<nat>): State
    requires Enabled(s, Load(w, targets))
  {
    var p := s.runs[w].phase;
    var s1 := if s.deliveries != [] then s
              else s.(deliveries := seq(|targets|, i requires 0 <= i < |targets| => NewDelivery(targets[i])),
                      history := seq(|targets|, _ => NO_HISTORY));
    if s1.deliveries == [] then
      EndRun(s1, w, s1.row.(status := NO_TARGET, sentAt := None, processingStartedAt := None))
    else InPhaseNow(s1, w, Sending(p.checkedAt, 0, s1.deliveries, ZERO_TALLY))
  }

  function ApplyAcquire(s: State, w: nat, locked: bool): State
    requires Enabled(s, Acquire(w, locked))
  {
    var s1 := s.(claims := s.claims - 1);
    if locked || !Startable(s.row.status) then s1
    else s1.(row := s.row.(status := PROCESSING, processingStartedAt := Some(s.now)),
             runs := s.runs[w := Run(s.now, Opened)])
  }

  function ApplyCrash(s: State, w: nat): State
    requires Enabled(s, Crash(w))
  {
    var p := s.runs[w].phase;
    var s1 := if AtRow(s, w) && p.Calling?
              then PutHistory(s, p.next, s.history[p.next].(lost := s.history[p.next].lost + 1))
              else s;
    s1.(runs := s.runs - {w})
  }

  function ApplyCaller(s: State, a: Action): State
    requires Enabled(s, a) && (a.Read? || a.Cas? || a.Submit? || a.Rollback? || a.CallerCrash?)
  {
    match a
    case Read(c) => s.(callers := s.callers[c := Checked(s.row.status)])
    case Cas(c) =>
      var prev := s.callers[c].prev;
      if s.row.status == prev
      then s.(row := s.row.(status := QUEUED), callers := s.callers[c := Submitting(prev)])
      else WithoutCaller(s, c)
    case Submit(c, ok) =>
      if ok then WithoutCaller(s, c).(broker := s.broker + 1, submitted := s.submitted + 1)
      else s.(callers := s.callers[c := RollingBack(s.callers[c].prev)])
    case Rollback(c) =>
      var s1 := WithoutCaller(s, c);
      if s.row.status.QUEUED? then s1.(row := s.row.(status := s.callers[c].prev)) else s1
    case CallerCrash(c) => WithoutCaller(s, c)
  }

  function ApplyBeat(s: State, a: Action): State
    requires Enabled(s, a)
    requires a.SweepScan? || a.SweepSubmit? || a.Dispatch? || a.Watchdog? || a.Handoff?
  {
    match a
    case SweepScan => s.(sweeps := s.sweeps + 1)
    case SweepSubmit(ok) => s.(sweeps := s.sweeps - 1, broker := s.broker + if ok then 1 else 0)
    case Dispatch => s.(row := s.row.(status := QUEUED), handoffs := s.handoffs + 1)
    case Watchdog(_) =>
      s.(row := s.row.(status := QUEUED, processingStartedAt := None),
         handoffs := s.handoffs + 1, requeues := s.requeues + 1)
    case Handoff(ok) => s.(handoffs := s.handoffs - 1, broker := s.broker + if ok then 1 else 0)
  }

  function Apply(s: State, a: Action): State
    requires Enabled(s, a)
  {
    match a
    case Tick(d) => s.(now := s.now + d)
    case Edit(date) => s.(row := s.row.(scheduledFor := Some(date)))
    case Read(_) => ApplyCaller(s, a)
    case Cas(_) => ApplyCaller(s, a)
    case Submit(_, _) => ApplyCaller(s, a)
    case Rollback(_) => ApplyCaller(s, a)
    case CallerCrash(_) => ApplyCaller(s, a)
    case SweepScan => ApplyBeat(s, a)
    case SweepSubmit(_) => ApplyBeat(s, a)
    case Dispatch => ApplyBeat(s, a)
    case Watchdog(_) => ApplyBeat(s, a)
    case Handoff(_) => ApplyBeat(s, a)
    case Claim => s.(broker := s.broker - 1, claims := s.claims + 1)
    case DropClaim => s.(claims := s.claims - 1)
    case Acquire(w, locked) => ApplyAcquire(s, w, locked)
    case Lapse(w) => InPhaseNow(s, w, Closing(0, s.deliveries))
    case CancelNext(w) => ApplyCancelNext(s, w)
    case CloseLapsed(w) => EndRun(s, w, s.row.(status := FAILED, sentAt := None, processingStartedAt := None))
    case QuietCheck(w, quietEnd) =>
      if quietEnd.Some? then EndRun(s, w, Row(SCHEDULED, quietEnd, None, None))
      else InPhaseNow(s, w, Cleared(s.now))
    case Load(w, targets) => ApplyLoad(s, w, targets)
    case Visit(w, reason, quietEnd) => ApplyVisit(s, w, reason, quietEnd)
    case Answer(w, outcome) => ApplyAnswer(s, w, outcome)
    case SaveFail(w) => ApplySaveFail(s, w)
    case Finish(w) => EndRun(s, w, FinishedRow(s.row, FinalStatus(s.runs[w].phase.tally), s.now))
    case Crash(w) => ApplyCrash(s, w)
  }

  // ---------- Behaviours ----------

  /** Any interleaving of any actors, from a freshly created notification. */
  ghost predicate Behaviour(ss: seq<State>, acts: seq<Action>) {
    && |ss| == |acts| + 1
    && Init(ss[0])
    && Steps(ss, acts)
  }

  ghost predicate Steps(ss: seq<State>, acts: seq<Action>)
    requires |ss| == |acts| + 1
  {
    forall i :: 0 <= i < |acts| ==> Enabled(ss[i], acts[i]) && ss[i + 1] == Apply(ss[i], acts[i])
  }

  /** Every live run is younger than the watchdog's threshold. */
  ghost predicate LeaseHeld(s: State) {
    forall w :: w in s.runs ==> s.now <= s.runs[w].startedAt + STUCK_AFTER
  }

  /** An interleaving in which the watchdog never fires while a run is live. */
  ghost predicate SparedBehaviour(ss: seq<State>, acts: seq<Action>) {
    Behaviour(ss, acts) && forall i :: 0 <= i < |acts| && acts[i].Watchdog? ==> ss[i].runs == map[]
  }

  /** An interleaving in which no run outlives the watchdog's threshold. */
  ghost predicate LeasedBehaviour(ss: seq<State>, acts: seq<Action>) {
    Behaviour(ss, acts) && forall i :: 0 <= i < |ss| ==> LeaseHeld(ss[i])
  }

  /** The actions, all enabled in turn, lead from one state to the other. */
  ghost predicate Leads(s: State, acts: seq<Action>, t: State)
    decreases |acts|
  {
    if acts == [] then s == t
    else Enabled(s, acts[0]) && Leads(Apply(s, acts[0]), acts[1..], t)
  }

  lemma {:induction false} LeadsCompose(s: State, a: seq<Action>, t: State, b: seq<Action>, u: State)
    requires Leads(s, a, t) && Leads(t, b, u)
    ensures Leads(s, a + b, u)
    decreases |a|
  {
    if a == [] {
      assert a + b == b;
    } else {
      LeadsCompose(Apply(s, a[0]), a[1..], t, b, u);
      assert (a + b)[1..] == a[1..] + b;
    }
  }

  lemma LeadsOne(s: State, a: Action)
    requires Enabled(s, a)
    ensures Leads(s, [a], Apply(s, a))
  {
  }

  /** Appends one action to a path. */
  lemma LeadsThen(s: State, acts: seq<Action>, t: State, a: Action)
    requires Leads(s, acts, t) && Enabled(t, a)
    ensures Leads(s, acts + [a], Apply(t, a))
  {
    LeadsOne(t, a);
    LeadsCompose(s, acts, t, [a], Apply(t, a));
  }

  /** A path from an initial state is a behaviour. */
  lemma {:induction false} LeadsIsBehaviour(s: State, acts: seq<Action>, t: State) returns (ss: seq<State>)
    requires Init(s) && Leads(s, acts, t)
    ensures Behaviour(ss, acts) && ss[0] == s && ss[|acts|] == t
  {
    ss := LeadsThroughStates(s, acts, t);
  }

  lemma {:induction false} LeadsThroughStates(s: State, acts: seq<Action>, t: State) returns (ss: seq<State>)
    requires Leads(s, acts, t)
    ensures |ss| == |acts| + 1 && ss[0] == s && ss[|acts|] == t && Steps(ss, acts)
    decreases |acts|
  {
    if acts == [] {
      ss := [s];
    } else {
      var rest := LeadsThroughStates(Apply(s, acts[0]), acts[1..], t);
      ss := [s] + rest;
      forall i | 0 <= i < |acts| ensures Enabled(ss[i], acts[i]) && ss[i + 1] == Apply(ss[i], acts[i]) {
        if i > 0 {
          assert ss[i] == rest[i - 1] && acts[i] == acts[1..][i - 1];
        }
      }
    }
  }
}
