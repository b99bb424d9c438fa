/** Reachable states that a reader might not expect: a pending row whose attempts are used up,
    and a FAILED notification with a sent row. */
module RetryWitnesses {
  import opened Options
  import opened QuietPeriods
  import opened EffectiveDate
  import opened Deliveries
  import opened Notifications
  import opened SendPass
  import opened Protocol
  import opened ProtocolSafety
  import opened PassRefinement

  /** Nobody is at work on the notification. */
  predicate AtRest(s: State) {
    s.callers == map[] && s.runs == map[] && s.broker == s.claims == 0 && |s.history| == |s.deliveries|
  }

  /** A caller queues the notification and a worker takes the task. */
  lemma CallerQueues(s: State) returns (acts: seq<Action>, t: State)
    requires AtRest(s) && Queueable(s.row.status) && !s.row.status.SCHEDULED?
    ensures Leads(s, acts, t)
    ensures t == s.(row := s.row.(status := QUEUED), claims := 1, submitted := s.submitted + 1)
  {
    var s1 := Apply(s, Read(0));
    LeadsOne(s, Read(0));
    var s2 := Apply(s1, Cas(0));
    LeadsThen(s, [Read(0)], s1, Cas(0));
    var s3 := Apply(s2, Submit(0, true));
    LeadsThen(s, [Read(0)] + [Cas(0)], s2, Submit(0, true));
    assert s3.callers == map[];
    LeadsThen(s, [Read(0)] + [Cas(0)] + [Submit(0, true)], s3, Claim);
    acts, t := [Read(0)] + [Cas(0)] + [Submit(0, true)] + [Claim], Apply(s3, Claim);
  }

  /** A caller sends the notification by hand and the pass runs alone. */
  lemma ManualSend(s: State, env: Surroundings, devices: map<nat, Device>) returns (acts: seq<Action>, t: State)
    requires AtRest(s) && Queueable(s.row.status) && !s.row.status.SCHEDULED? && !env.locked
    requires HaveDevices(s.deliveries, devices) && ClockInOrder(env, s.now, |Loaded(s.deliveries, env, devices)|)
    ensures Leads(s, acts, t) && AtRest(t) && t.now <= env.finishedAt
    ensures t.row == RowAfter(s.row.(status := QUEUED), s.deliveries, env, devices)
    ensures t.deliveries == RowsAfter(QUEUED, s.deliveries, env, devices)
  {
    var acts1, s1 := CallerQueues(s);
    var acts2, s2 := PassIsAProtocolSchedule(s1, 0, env, devices);
    LeadsCompose(s, acts1, s1, acts2, s2);
    acts, t := acts1 + acts2, s2;
  }

  /** A pass at a single instant over the row of one device. */
  function At(device: nat, now: int, paid: bool): Surroundings {
    Surroundings(false, paid, [], true, [device], now, now, i => now, i => TemporaryError, i => now, now)
  }

  function TheDevice(device: nat, periods: seq<QuietPeriod>): map<nat, Device> {
    map[device := Device(true, true, 0, periods)]
  }

  function LookAt(now: int, periods: seq<QuietPeriod>): Look {
    Look(None, now, EndFrom(periods, now), TemporaryError, now)
  }

  /** What the pass makes of a single row. */
  lemma SingleRow(d: Delivery, now: int, periods: seq<QuietPeriod>)
    requires !d.status.Sent?
    ensures var env, devices := At(d.device, now, true), TheDevice(d.device, periods);
            && HaveDevices([d], devices) && Loaded([d], env, devices) == [d]
            && RowsAfter(QUEUED, [d], env, devices) == [After(d, LookAt(now, periods))]
            && (forall row: Row :: row.status.QUEUED? ==>
                  var r := RowAfter(row, [d], env, devices).status; r.FAILED? || r.PARTIAL?)
  {
    var env, devices := At(d.device, now, true), TheDevice(d.device, periods);
    var look := LookAt(now, periods);
    assert WorkedLooks([d], env, devices) == [look];
    OneRowPass(d, look);
    assert VerdictFor(d, look) != WasSent && VerdictFor(d, look) != WasSkipped;
  }

  lemma OneRowPass(d: Delivery, look: Look)
    ensures AfterPass([d], [look]) == [After(d, look)]
    ensures TallyOf(VerdictsFor([d], [look])) == Counted(ZERO_TALLY, VerdictFor(d, look))
  {
    var vs := VerdictsFor([d], [look]);
    assert vs == [VerdictFor(d, look)] && vs[..0] == [];
  }

  lemma SendSingleRow(s: State, d: Delivery, now: int, periods: seq<QuietPeriod>) returns (acts: seq<Action>, t: State)
    requires AtRest(s) && s.deliveries == [d] && !d.status.Sent? && s.now <= now
    requires s.row.status.DRAFT? || s.row.status.FAILED? || s.row.status.PARTIAL?
    ensures Leads(s, acts, t) && AtRest(t) && t.now <= now
    ensures t.deliveries == [After(d, LookAt(now, periods))]
    ensures t.row.status.FAILED? || t.row.status.PARTIAL?
  {
    SingleRow(d, now, periods);
    acts, t := ManualSend(s, At(d.device, now, true), TheDevice(d.device, periods));
  }

  /** Three failures, each as soon as the backoff is over. */
  lemma RowIsExhausted(device: nat) returns (acts: seq<Action>, t: State)
    ensures Leads(FreshState(None, [device], 0), acts, t) && AtRest(t) && t.now <= 6 * MINUTE
    ensures t.deliveries == [Delivery(device, Failed, 3, None, Some(6 * MINUTE), None)]
    ensures t.row.status.FAILED? || t.row.status.PARTIAL?
  {
    var s := FreshState(None, [device], 0);
    assert s.deliveries == [NewDelivery(device)];
    var acts1, s1 := SendSingleRow(s, NewDelivery(device), 0, []);
    var d1 := Delivery(device, Pending, 1, Some(MINUTE), Some(0), None);
    assert s1.deliveries == [d1];
    var acts2, s2 := SendSingleRow(s1, d1, MINUTE, []);
    LeadsCompose(s, acts1, s1, acts2, s2);
    var d2 := Delivery(device, Pending, 2, Some(6 * MINUTE), Some(MINUTE), None);
    assert s2.deliveries == [d2];
    var acts3, s3 := SendSingleRow(s2, d2, 6 * MINUTE, []);
    LeadsCompose(s, acts1 + acts2, s2, acts3, s3);
    acts, t := acts1 + acts2 + acts3, s3;
  }

  /** From a fresh notification, three failed sends and a fourth one during the device's
      quiet period reach a pending row with its three attempts used, at rest. */
  lemma {:induction false} ExhaustedPendingRowIsReachable(device: nat) returns (ss: seq<State>, acts: seq<Action>)
    ensures Behaviour(ss, acts) && AtRest(ss[|acts|]) && |ss[|acts|].deliveries| == 1
    ensures ss[|acts|].deliveries[0].status.Pending?
    ensures ss[|acts|].deliveries[0].attempts == MAX_DELIVERY_ATTEMPTS
    ensures Due(ss[|acts|].deliveries[0], 6 * MINUTE + 1)
  {
    var now := 6 * MINUTE;
    var acts1, s1 := RowIsExhausted(device);
    var periods := [OneTime(now, now + 1)];
    assert EndFrom(periods, now) == Some(now + 1);
    var acts2, s2 := SendSingleRow(s1, s1.deliveries[0], now, periods);
    LeadsCompose(FreshState(None, [device], 0), acts1, s1, acts2, s2);
    acts := acts1 + acts2;
    ss := LeadsIsBehaviour(FreshState(None, [device], 0), acts, s2);
  }

  // ---------- A lapsed subscription ----------

  /** The first device accepts, the second fails. */
  function TwoDevices(paid: bool): Surroundings {
    Surroundings(false, paid, [], true, [0, 1], 0, 0, i => 0,
                 i => if i == 0 then Accepted else TemporaryError, i => 0, 0)
  }

  const BOTH: map<nat, Device> := map[0 := Device(true, true, 0, []), 1 := Device(true, true, 0, [])]

  lemma HalfIsSent()
    ensures var ds, env := [NewDelivery(0), NewDelivery(1)], TwoDevices(true);
            && HaveDevices(ds, BOTH) && Loaded(ds, env, BOTH) == ds
            && (var rows := RowsAfter(QUEUED, ds, env, BOTH);
                |rows| == 2 && HaveDevices(rows, BOTH) && rows[0].status.Sent?)
            && forall row: Row | row.status.QUEUED? :: RowAfter(row, ds, env, BOTH).status.PARTIAL?
  {
    var ds, env := [NewDelivery(0), NewDelivery(1)], TwoDevices(true);
    var looks := WorkedLooks(ds, env, BOTH);
    var vs, after := VerdictsFor(ds, looks), AfterPass(ds, looks);
    assert looks[0] == Look(None, 0, None, Accepted, 0) && looks[1] == Look(None, 0, None, TemporaryError, 0);
    assert vs[0] == VerdictFor(ds[0], looks[0]) && vs[1] == VerdictFor(ds[1], looks[1]);
    assert after[0] == After(ds[0], looks[0]) && after[1] == After(ds[1], looks[1]);
    PassStatusMeaning(ds, looks);
    assert !AllSent(after) && !AllFailed(after, vs);
  }

  lemma HalfSend() returns (acts: seq<Action>, t: State)
    ensures Leads(FreshState(None, [0, 1], 0), acts, t) && AtRest(t) && t.now <= 0 && t.row.status.PARTIAL?
    ensures |t.deliveries| == 2 && HaveDevices(t.deliveries, BOTH) && t.deliveries[0].status.Sent?
  {
    var s := FreshState(None, [0, 1], 0);
    assert s.deliveries == [NewDelivery(0), NewDelivery(1)];
    HalfIsSent();
    acts, t := ManualSend(s, TwoDevices(true), BOTH);
  }

  lemma LapsedSend(s: State) returns (acts: seq<Action>, t: State)
    requires AtRest(s) && s.row.status.PARTIAL? && |s.deliveries| == 2 && HaveDevices(s.deliveries, BOTH) && s.now <= 0
    ensures Leads(s, acts, t) && AtRest(t) && t.row.status.FAILED? && t.deliveries == LapsedRows(s.deliveries, 0)
  {
    acts, t := ManualSend(s, TwoDevices(false), BOTH);
  }

  /** A notification sent to one of two devices, re-sent once the subscription has lapsed, is
      FAILED although a row is sent. */
  lemma {:induction false} LapseFailsDespiteASentRow() returns (ss: seq<State>, acts: seq<Action>)
    ensures Behaviour(ss, acts) && AtRest(ss[|acts|])
    ensures ss[|acts|].row.status.FAILED?
    ensures ss[|acts|].deliveries != [] && ss[|acts|].deliveries[0].status.Sent?
  {
    var s := FreshState(None, [0, 1], 0);
    var acts1, s1 := HalfSend();
    var acts2, s2 := LapsedSend(s1);
    assert s2.deliveries[0] == LapsedRow(s1.deliveries[0], 0);
    LeadsCompose(s, acts1, s1, acts2, s2);
    acts := acts1 + acts2;
    ss := LeadsIsBehaviour(s, acts, s2);
  }

  // ---------- Crashes while recording ----------

  /** A behaviour that spares live runs, and its last state. */
  ghost predicate SparedUntil(ss: seq<State>, acts: seq<Action>, t: State) {
    SparedBehaviour(ss, acts) && ss[|acts|] == t
  }

  lemma Then(ss: seq<State>, acts: seq<Action>, t: State, a: Action)
    returns (ss': seq<State>, acts': seq<Action>, t': State)
    requires SparedUntil(ss, acts, t) && Enabled(t, a) && (a.Watchdog? ==> t.runs == map[])
    ensures SparedUntil(ss', acts', t') && t' == Apply(t, a)
  {
    t' := Apply(t, a);
    ss', acts' := ss + [t'], acts + [a];
  }

  /** Queued with one task, over a single pending row that has no retry date. */
  predicate QueuedUndated(s: State, device: nat, attempts: nat) {
    && s.row == Row(QUEUED, None, None, None) && s.broker == 1 && s.claims == s.handoffs == s.sweeps == 0
    && s.callers == map[] && s.runs == map[] && |s.history| == 1
    && s.deliveries == [Delivery(device, Pending, attempts, None, None, None)]
  }

  /** The worker is about to look at the only row. */
  lemma WorkerReachesRow(ss: seq<State>, acts: seq<Action>, s: State, device: nat, attempts: nat)
    returns (ss': seq<State>, acts': seq<Action>, t: State)
    requires SparedUntil(ss, acts, s) && QueuedUndated(s, device, attempts)
    ensures SparedUntil(ss', acts', t)
    ensures t == s.(broker := 0, row := Row(PROCESSING, None, Some(s.now), None),
                    runs := map[0 := Run(s.now, Sending(s.now, 0, s.deliveries, ZERO_TALLY))])
  {
    ss', acts', t := Then(ss, acts, s, Claim);
    ss', acts', t := Then(ss', acts', t, Acquire(0, false));
    assert t.runs == map[0 := Run(s.now, Opened)];
    ss', acts', t := Then(ss', acts', t, QuietCheck(0, None));
    assert t.runs == map[0 := Run(s.now, Cleared(s.now))];
    ss', acts', t := Then(ss', acts', t, Load(0, []));
    assert t.runs == map[0 := Run(s.now, Sending(s.now, 0, s.deliveries, ZERO_TALLY))];
  }

  /** The provider fails, the failure is counted, and the worker dies before saving it. */
  lemma WorkerDiesRecording(ss: seq<State>, acts: seq<Action>, s: State, device: nat, attempts: nat)
    returns (ss': seq<State>, acts': seq<Action>, t: State)
    requires SparedUntil(ss, acts, s) && QueuedUndated(s, device, attempts) && attempts < MAX_DELIVERY_ATTEMPTS
    ensures SparedUntil(ss', acts', t) && |t.history| == 1
    ensures t == s.(broker := 0, row := Row(PROCESSING, None, Some(s.now), None), history := t.history,
                    deliveries := [Delivery(device, Pending, attempts + 1, None, None, None)])
  {
    ss', acts', t := WorkerReachesRow(ss, acts, s, device, attempts);
    ss', acts', t := Then(ss', acts', t, Visit(0, None, None));
    assert t.runs == map[0 := Run(s.now, Calling(s.now, 0, s.deliveries, ZERO_TALLY))];
    ss', acts', t := Then(ss', acts', t, Answer(0, TemporaryError));
    ss', acts', t := Then(ss', acts', t, Crash(0));
    assert t.runs == map[];
    assert t.deliveries == [Delivery(device, Pending, attempts + 1, None, None, None)];
  }

  lemma CrashRound(ss: seq<State>, acts: seq<Action>, s: State, device: nat, attempts: nat)
    returns (ss': seq<State>, acts': seq<Action>, t: State)
    requires SparedUntil(ss, acts, s) && QueuedUndated(s, device, attempts) && attempts < MAX_DELIVERY_ATTEMPTS
    ensures SparedUntil(ss', acts', t) && QueuedUndated(t, device, attempts + 1)
  {
    ss', acts', t := WorkerDiesRecording(ss, acts, s, device, attempts);
    ss', acts', t := Then(ss', acts', t, Tick(STUCK_AFTER + 1));
    ss', acts', t := Then(ss', acts', t, Watchdog(t.now - STUCK_AFTER));
    ss', acts', t := Then(ss', acts', t, Handoff(true));
  }

  lemma {:induction false} FirstTask(device: nat) returns (ss: seq<State>, acts: seq<Action>, t: State)
    ensures SparedUntil(ss, acts, t) && QueuedUndated(t, device, 0)
  {
    t := FreshState(None, [device], 0);
    ss, acts := [t], [];
    ss, acts, t := Then(ss, acts, t, Read(0));
    ss, acts, t := Then(ss, acts, t, Cas(0));
    ss, acts, t := Then(ss, acts, t, Submit(0, true));
    assert t.callers == map[];
  }

  /** The fourth run leaves the exhausted row alone and closes the notification. */
  lemma {:induction false} ExhaustedRunFinishes(ss: seq<State>, acts: seq<Action>, s: State, device: nat)
    returns (ss': seq<State>, acts': seq<Action>, t: State)
    requires SparedUntil(ss, acts, s) && QueuedUndated(s, device, MAX_DELIVERY_ATTEMPTS)
    ensures SparedUntil(ss', acts', t) && AtRest(t) && t.row.status.FAILED? && t.deliveries == s.deliveries
  {
    ss', acts', t := WorkerReachesRow(ss, acts, s, device, MAX_DELIVERY_ATTEMPTS);
    ss', acts', t := Then(ss', acts', t, Visit(0, None, None));
    ss', acts', t := Then(ss', acts', t, Finish(0));
    assert t.runs == map[];
  }

  /** Three workers that die between counting a failure and saving it leave, in a FAILED
      notification at rest, a pending row that no sweep ever finds. */
  lemma {:induction false} CrashesForgetAPendingRow(device: nat)
    returns (ss: seq<State>, acts: seq<Action>, t: State)
    ensures SparedUntil(ss, acts, t) && AtRest(t) && t.row.status.FAILED?
    ensures t.deliveries == [Delivery(device, Pending, MAX_DELIVERY_ATTEMPTS, None, None, None)]
    ensures forall now :: !Enabled(t.(now := now), SweepScan)
  {
    ss, acts, t := FirstTask(device);
    ss, acts, t := CrashRound(ss, acts, t, device, 0);
    ss, acts, t := CrashRound(ss, acts, t, device, 1);
    ss, acts, t := CrashRound(ss, acts, t, device, 2);
    ss, acts, t := ExhaustedRunFinishes(ss, acts, t, device);
  }
}
