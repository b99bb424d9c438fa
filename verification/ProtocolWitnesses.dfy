/** Why the watchdog must spare live runs: a run it gave up can push a delivery that another
    run has already sent, and can push before the date stored on the row. */
module ProtocolWitnesses {
  import opened Options
  import opened Deliveries
  import opened Notifications
  import opened Protocol
  import opened ProtocolSafety
  import opened QuietPeriods
  import opened EffectiveDate
  import opened ProtocolDeliveries
  import opened ProtocolTiming

  const SLOW: nat := 1
  const QUICK: nat := 2

  /** The slow worker has loaded the only row; its snapshot says pending. */
  function SlowWorkerLoaded(device: nat): State {
    FreshState(None, [device], 0).(
      row := Row(PROCESSING, None, Some(0), None),
      submitted := 1,
      runs := map[SLOW := Run(0, Sending(0, 0, [NewDelivery(device)], ZERO_TALLY))])
  }

  const LATE: int := STUCK_AFTER + 1

  /** The watchdog has requeued the row and the quick worker has sent it and finished. */
  function QuickWorkerDone(device: nat): State {
    SlowWorkerLoaded(device).(
      now := LATE,
      row := Row(SENT, None, None, Some(LATE)),
      requeues := 1,
      deliveries := [MarkSent(NewDelivery(device), LATE)],
      history := [History(1, 0, None)])
  }

  lemma Unrolled3(s: State, acts: seq<Action>, t: State)
    requires |acts| == 3
    requires Enabled(s, acts[0]) && Enabled(Apply(s, acts[0]), acts[1])
    requires Enabled(Apply(Apply(s, acts[0]), acts[1]), acts[2])
    requires t == Apply(Apply(Apply(s, acts[0]), acts[1]), acts[2])
    ensures Leads(s, acts, t)
  {
    LeadsOne(s, acts[0]);
    LeadsThen(s, [acts[0]], Apply(s, acts[0]), acts[1]);
    LeadsThen(s, [acts[0]] + [acts[1]], Apply(Apply(s, acts[0]), acts[1]), acts[2]);
    assert acts == [acts[0]] + [acts[1]] + [acts[2]];
  }

  lemma WorkerAcquires(s: State, worker: nat) returns (acts: seq<Action>)
    requires s.row.status.QUEUED? && s.broker > 0 && worker !in s.runs
    ensures Leads(s, acts, s.(row := s.row.(status := PROCESSING, processingStartedAt := Some(s.now)),
                              broker := s.broker - 1, runs := s.runs[worker := Run(s.now, Opened)]))
  {
    LeadsOne(s, Claim);
    LeadsThen(s, [Claim], Apply(s, Claim), Acquire(worker, false));
    acts := [Claim] + [Acquire(worker, false)];
  }

  /** A worker takes the send task of a queued notification and loads its rows. */
  lemma WorkerStarts(s: State, worker: nat) returns (acts: seq<Action>)
    requires s.row.status.QUEUED? && s.broker > 0 && worker !in s.runs && s.deliveries != []
    ensures Leads(s, acts, s.(row := s.row.(status := PROCESSING, processingStartedAt := Some(s.now)),
                              broker := s.broker - 1,
                              runs := s.runs[worker := Run(s.now, Sending(s.now, 0, s.deliveries, ZERO_TALLY))]))
  {
    var s2 := s.(row := s.row.(status := PROCESSING, processingStartedAt := Some(s.now)),
                 broker := s.broker - 1, runs := s.runs[worker := Run(s.now, Opened)]);
    acts := WorkerAcquires(s, worker);
    LeadsThen(s, acts, s2, QuietCheck(worker, None));
    var s3 := Apply(s2, QuietCheck(worker, None));
    assert s3.runs == s.runs[worker := Run(s.now, Cleared(s.now))];
    LeadsThen(s, acts + [QuietCheck(worker, None)], s3, Load(worker, []));
    assert Apply(s3, Load(worker, [])).runs ==
           s.runs[worker := Run(s.now, Sending(s.now, 0, s.deliveries, ZERO_TALLY))];
    acts := acts + [QuietCheck(worker, None)] + [Load(worker, [])];
  }

  lemma SlowWorkerQueues(device: nat) returns (acts: seq<Action>)
    ensures var s := FreshState(None, [device], 0);
            Leads(s, acts, s.(row := s.row.(status := QUEUED), broker := 1, submitted := 1))
  {
    var s := FreshState(None, [device], 0);
    acts := [Read(0), Cas(0), Submit(0, true)];
    var s1 := Apply(s, acts[0]);
    var s2 := Apply(s1, acts[1]);
    assert s2.callers == map[0 := Submitting(DRAFT)];
    var s3 := Apply(s2, acts[2]);
    assert s3.callers == map[];
    Unrolled3(s, acts, s3);
  }

  lemma SlowWorkerStarts(device: nat) returns (acts: seq<Action>)
    ensures Leads(FreshState(None, [device], 0), acts, SlowWorkerLoaded(device))
  {
    var s := FreshState(None, [device], 0);
    var queued := s.(row := s.row.(status := QUEUED), broker := 1, submitted := 1);
    assert s.deliveries == [NewDelivery(device)];
    var acts1 := SlowWorkerQueues(device);
    var acts2 := WorkerStarts(queued, SLOW);
    LeadsCompose(s, acts1, queued, acts2, SlowWorkerLoaded(device));
    acts := acts1 + acts2;
  }

  lemma WatchdogRequeues(device: nat) returns (acts: seq<Action>)
    ensures var s := SlowWorkerLoaded(device);
            Leads(s, acts, s.(now := LATE, row := Row(QUEUED, None, None, None), broker := 1, requeues := 1))
  {
    var s := SlowWorkerLoaded(device);
    acts := [Tick(LATE), Watchdog(1), Handoff(true)];
    Unrolled3(s, acts, Apply(Apply(Apply(s, acts[0]), acts[1]), acts[2]));
  }

  /** The worker before a single fresh row sends it and finishes. */
  lemma WorkerSends(s: State, worker: nat, checkedAt: int, device: nat) returns (acts: seq<Action>)
    requires worker in s.runs && s.deliveries == [NewDelivery(device)] && s.history == [NO_HISTORY]
    requires s.runs[worker].phase == Sending(checkedAt, 0, s.deliveries, ZERO_TALLY)
    ensures Leads(s, acts, s.(row := FinishedRow(s.row, SENT, s.now),
                              deliveries := [MarkSent(NewDelivery(device), s.now)],
                              history := [History(1, 0, None)],
                              runs := s.runs - {worker}))
  {
    acts := [Visit(worker, None, None), Answer(worker, Accepted), Finish(worker)];
    var s1 := Apply(s, acts[0]);
    assert s1.history == [History(1, 0, None)];
    WorkerRecords(s1, worker, checkedAt, device);
    Unrolled3(s, acts, Apply(Apply(s1, acts[1]), acts[2]));
    assert (Apply(Apply(s1, acts[1]), acts[2])).runs == s.runs - {worker};
  }

  lemma WorkerRecords(s: State, worker: nat, checkedAt: int, device: nat)
    requires worker in s.runs && s.deliveries == [NewDelivery(device)] && |s.history| == 1
    requires s.runs[worker].phase == Calling(checkedAt, 0, s.deliveries, ZERO_TALLY)
    ensures Enabled(s, Answer(worker, Accepted)) && Enabled(Apply(s, Answer(worker, Accepted)), Finish(worker))
    ensures Apply(Apply(s, Answer(worker, Accepted)), Finish(worker)) ==
            s.(row := FinishedRow(s.row, SENT, s.now),
               deliveries := [MarkSent(NewDelivery(device), s.now)],
               runs := s.runs - {worker})
  {
    var t := Apply(s, Answer(worker, Accepted));
    assert t.deliveries == [MarkSent(NewDelivery(device), s.now)];
    assert (t.runs - {worker}) == s.runs - {worker};
  }

  lemma QuickWorkerOvertakes(device: nat) returns (acts: seq<Action>)
    ensures Leads(SlowWorkerLoaded(device), acts, QuickWorkerDone(device))
  {
    var s := SlowWorkerLoaded(device);
    assert s.deliveries == [NewDelivery(device)] && s.history == [NO_HISTORY];
    var queued := s.(now := LATE, row := Row(QUEUED, None, None, None), broker := 1, requeues := 1);
    var acts1 := WatchdogRequeues(device);
    var acts2 := WorkerStarts(queued, QUICK);
    var started := queued.(row := Row(PROCESSING, None, Some(LATE), None), broker := 0,
                           runs := s.runs[QUICK := Run(LATE, Sending(LATE, 0, s.deliveries, ZERO_TALLY))]);
    LeadsCompose(s, acts1, queued, acts2, started);
    var acts3 := WorkerSends(started, QUICK, LATE, device);
    assert started.runs - {QUICK} == s.runs;
    LeadsCompose(s, acts1 + acts2, started, acts3, QuickWorkerDone(device));
    acts := acts1 + acts2 + acts3;
  }

  /** From a fresh notification with one device, an interleaving in which one run outlives
      the threshold reaches a state where the row is sent and the provider is being called
      for it a second time, although nothing failed and no answer was lost. */
  lemma OverlappingRunsRepeatAPush(device: nat) returns (acts: seq<Action>, t: State)
    ensures Leads(FreshState(None, [device], 0), acts, t)
    ensures t.deliveries == [MarkSent(NewDelivery(device), LATE)]
    ensures t.history == [History(2, 0, None)]
    ensures t.row.status.SENT? && SLOW in t.runs && t.runs[SLOW].phase.Calling?
  {
    var acts1 := SlowWorkerStarts(device);
    var acts2 := QuickWorkerOvertakes(device);
    LeadsCompose(FreshState(None, [device], 0), acts1, SlowWorkerLoaded(device), acts2, QuickWorkerDone(device));
    var visit := Visit(SLOW, None, None);
    t := Apply(QuickWorkerDone(device), visit);
    LeadsThen(FreshState(None, [device], 0), acts1 + acts2, QuickWorkerDone(device), visit);
    acts := acts1 + acts2 + [visit];
  }

  /** The row is the quick run's, which has loaded it while the slow run is still there. */
  function BothLoaded(device: nat): State {
    var rows := [NewDelivery(device)];
    SlowWorkerLoaded(device).(
      now := LATE, row := Row(PROCESSING, None, Some(LATE), None), requeues := 1,
      runs := map[SLOW := Run(0, Sending(0, 0, rows, ZERO_TALLY)),
                  QUICK := Run(LATE, Sending(LATE, 0, rows, ZERO_TALLY))])
  }

  lemma BothLoad(device: nat) returns (acts: seq<Action>)
    ensures Leads(FreshState(None, [device], 0), acts, BothLoaded(device))
  {
    var s := SlowWorkerLoaded(device);
    assert s.deliveries == [NewDelivery(device)];
    var queued := s.(now := LATE, row := Row(QUEUED, None, None, None), broker := 1, requeues := 1);
    var acts0 := SlowWorkerStarts(device);
    var acts1 := WatchdogRequeues(device);
    LeadsCompose(FreshState(None, [device], 0), acts0, s, acts1, queued);
    var acts2 := WorkerStarts(queued, QUICK);
    assert BothLoaded(device).runs == s.runs[QUICK := Run(LATE, Sending(LATE, 0, s.deliveries, ZERO_TALLY))];
    LeadsCompose(FreshState(None, [device], 0), acts0 + acts1, queued, acts2, BothLoaded(device));
    acts := acts0 + acts1 + acts2;
  }

  /** Nor is it enough that a run was itself never requeued: the run that was given up sends
      the row, and the run that owns the notification pushes it again from its own snapshot. */
  lemma OwningRunRepeatsAPush(device: nat) returns (acts: seq<Action>, t: State)
    ensures Leads(FreshState(None, [device], 0), acts, t)
    ensures t.deliveries == [MarkSent(NewDelivery(device), LATE)] && t.history == [History(2, 0, None)]
    ensures QUICK in t.runs && t.runs[QUICK].phase.Calling?
    ensures t.requeues == 1 && t.row.status.PROCESSING? && t.row.processingStartedAt == Some(t.runs[QUICK].startedAt)
  {
    var acts1 := BothLoad(device);
    var s := BothLoaded(device);
    var s1 := Apply(s, Visit(SLOW, None, None));
    assert s1.history == [History(1, 0, None)];
    var s2 := Apply(s1, Answer(SLOW, Accepted));
    assert s2.deliveries == [MarkSent(NewDelivery(device), LATE)];
    var s3 := Apply(s2, Visit(QUICK, None, None));
    var acts2 := [Visit(SLOW, None, None), Answer(SLOW, Accepted), Visit(QUICK, None, None)];
    Unrolled3(s, acts2, s3);
    LeadsCompose(FreshState(None, [device], 0), acts1, s, acts2, s3);
    acts, t := acts1 + acts2, s3;
  }

  // ---------- Before the stored date ----------

  lemma Extended(periods: seq<QuietPeriod>, ss: seq<State>, acts: seq<Action>, a: Action)
    returns (ss': seq<State>, acts': seq<Action>)
    requires TimedBehaviour(periods, ss, acts) && Enabled(ss[|acts|], a) && PeriodsUnchanged(periods, ss[|acts|], a)
    ensures TimedBehaviour(periods, ss', acts') && ss' == ss + [Apply(ss[|acts|], a)] && acts' == acts + [a]
  {
    ss', acts' := ss + [Apply(ss[|acts|], a)], acts + [a];
  }

  /** The behaviour ends in state t. */
  ghost predicate TimedUntil(periods: seq<QuietPeriod>, ss: seq<State>, acts: seq<Action>, t: State) {
    TimedBehaviour(periods, ss, acts) && ss[|acts|] == t
  }

  /** A worker takes the task and acquires the queued notification. */
  lemma WorkerOpens(periods: seq<QuietPeriod>, ss: seq<State>, acts: seq<Action>, s: State, worker: nat)
    returns (ss': seq<State>, acts': seq<Action>)
    requires TimedUntil(periods, ss, acts, s) && s.row.status.QUEUED? && s.broker > 0 && worker !in s.runs
    ensures TimedUntil(periods, ss', acts',
                       s.(row := s.row.(status := PROCESSING, processingStartedAt := Some(s.now)),
                          broker := s.broker - 1, runs := s.runs[worker := Run(s.now, Opened)]))
    ensures ss'[0] == ss[0]
  {
    ss', acts' := Extended(periods, ss, acts, Claim);
    ss', acts' := Extended(periods, ss', acts', Acquire(worker, false));
  }

  lemma CallerQueuesInTime(periods: seq<QuietPeriod>, device: nat) returns (ss: seq<State>, acts: seq<Action>)
    ensures var s := FreshState(None, [device], 0);
            TimedUntil(periods, ss, acts, s.(row := s.row.(status := QUEUED), broker := 1, submitted := 1))
            && ss[0] == s
  {
    var s := FreshState(None, [device], 0);
    ss, acts := [s], [];
    ss, acts := Extended(periods, ss, acts, Read(0));
    ss, acts := Extended(periods, ss, acts, Cas(0));
    assert ss[|acts|].callers == map[0 := Submitting(DRAFT)];
    ss, acts := Extended(periods, ss, acts, Submit(0, true));
    assert ss[|acts|].callers == map[];
  }

  /** The slow worker passes its quiet check while it is not quiet yet, and loads the row. */
  lemma SlowWorkerLoadsInTime(device: nat) returns (ss: seq<State>, acts: seq<Action>)
    ensures TimedUntil(NIGHT, ss, acts, SlowWorkerLoaded(device)) && ss[0] == FreshState(None, [device], 0)
  {
    NightMeaning();
    var s := FreshState(None, [device], 0);
    assert s.deliveries == [NewDelivery(device)];
    ss, acts := CallerQueuesInTime(NIGHT, device);
    ss, acts := WorkerOpens(NIGHT, ss, acts, s.(row := s.row.(status := QUEUED), broker := 1, submitted := 1), SLOW);
    assert ss[|acts|].runs == map[SLOW := Run(0, Opened)];
    ss, acts := Extended(NIGHT, ss, acts, QuietCheck(SLOW, None));
    assert ss[|acts|].runs == map[SLOW := Run(0, Cleared(0))];
    ss, acts := Extended(NIGHT, ss, acts, Load(SLOW, []));
    assert ss[|acts|].runs == map[SLOW := Run(0, Sending(0, 0, [NewDelivery(device)], ZERO_TALLY))];
  }

  /** A quiet period that begins when the watchdog fires. */
  const NIGHT: seq<QuietPeriod> := [OneTime(LATE, LATE + 1)]

  lemma NightMeaning()
    ensures EndFrom(NIGHT, 0) == None && EndFrom(NIGHT, LATE) == Some(LATE + 1)
            && Effective(NIGHT, LATE + 1) == LATE + 1
  {
    assert EndFrom(NIGHT, LATE + 1) == None;
  }

  /** The watchdog has requeued the row and the quick worker has postponed it. */
  function Postponed(device: nat): State {
    SlowWorkerLoaded(device).(now := LATE, row := Row(SCHEDULED, Some(LATE + 1), None, None), requeues := 1)
  }

  lemma QuickWorkerPostpones(device: nat) returns (ss: seq<State>, acts: seq<Action>)
    ensures TimedUntil(NIGHT, ss, acts, Postponed(device)) && ss[0] == FreshState(None, [device], 0)
  {
    NightMeaning();
    ss, acts := SlowWorkerLoadsInTime(device);
    var s := SlowWorkerLoaded(device);
    ss, acts := Extended(NIGHT, ss, acts, Tick(LATE));
    ss, acts := Extended(NIGHT, ss, acts, Watchdog(1));
    ss, acts := Extended(NIGHT, ss, acts, Handoff(true));
    var queued := s.(now := LATE, row := Row(QUEUED, None, None, None), broker := 1, requeues := 1);
    assert ss[|acts|] == queued;
    ss, acts := WorkerOpens(NIGHT, ss, acts, queued, QUICK);
    ss, acts := Extended(NIGHT, ss, acts, QuietCheck(QUICK, Some(LATE + 1)));
    assert ss[|acts|].runs == s.runs;
  }

  /** With the periods unchanged, an interleaving in which the watchdog fires on a live run
      calls the provider before the effective date of the date stored at that time. */
  lemma {:induction false} GivenUpRunPushesBeforeStoredDate(device: nat) returns (ss: seq<State>, acts: seq<Action>)
    ensures TimedBehaviour(NIGHT, ss, acts) && acts != []
    ensures var i := |acts| - 1;
            && CallsProvider(ss[i], acts[i], 0) && ss[i].row.scheduledFor.Some?
            && ss[i].now < Effective(NIGHT, ss[i].row.scheduledFor.value)
  {
    NightMeaning();
    ss, acts := QuickWorkerPostpones(device);
    var visit := Visit(SLOW, None, None);
    assert CallsProvider(Postponed(device), visit, 0);
    ss, acts := Extended(NIGHT, ss, acts, visit);
  }
}
