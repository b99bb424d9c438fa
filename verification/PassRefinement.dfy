/** The imperative pass is one schedule of the protocol: a worker that runs alone takes the
    protocol's steps and leaves the rows exactly as the pass does. */
module PassRefinement {
  import opened Options
  import opened EffectiveDate
  import opened Deliveries
  import opened Notifications
  import opened SendPass
  import opened Protocol

  /** Only the worker acts, while time passes. */
  ghost predicate Alone(acts: seq<Action>, w: nat) {
    forall i :: 0 <= i < |acts| ==> LoneAction(acts[i], w)
  }

  predicate LoneAction(a: Action, w: nat) {
    a.Tick? || ((a.Acquire? || IsRunStep(a)) && a.worker == w && !a.Crash?)
  }

  /** A path of the lone worker. */
  ghost predicate Path(s: State, acts: seq<Action>, t: State, w: nat) {
    Leads(s, acts, t) && Alone(acts, w)
  }

  lemma PathCompose(s: State, a: seq<Action>, t: State, b: seq<Action>, u: State, w: nat)
    requires Path(s, a, t, w) && Path(t, b, u, w)
    ensures Path(s, a + b, u, w)
  {
    LeadsCompose(s, a, t, b, u);
  }

  lemma PathOne(s: State, a: Action, w: nat)
    requires Enabled(s, a) && LoneAction(a, w)
    ensures Path(s, [a], Apply(s, a), w)
  {
  }

  lemma PathThen(s: State, acts: seq<Action>, t: State, a: Action, w: nat)
    requires Path(s, acts, t, w) && Enabled(t, a) && LoneAction(a, w)
    ensures Path(s, acts + [a], Apply(t, a), w)
  {
    LeadsThen(s, acts, t, a);
  }

  /** Everything a lone worker leaves to others. */
  predicate SameSurroundings(s: State, t: State) {
    && t.broker == s.broker && t.handoffs == s.handoffs && t.sweeps == s.sweeps
    && t.callers == s.callers && t.requeues == s.requeues && t.submitted == s.submitted
  }

  /** The worker stands before row i, the rows from there on being as loaded. */
  predicate Before(s: State, w: nat, i: nat, tally: Tally) {
    && w in s.runs && s.runs[w].phase.Sending?
    && s.runs[w].phase.next == i && s.runs[w].phase.tally == tally
    && |s.runs[w].phase.snap| == |s.deliveries| == |s.history| && i <= |s.deliveries|
    && forall j :: i <= j < |s.deliveries| ==> s.runs[w].phase.snap[j] == s.deliveries[j]
  }

  predicate OtherRunsSame(s: State, t: State, w: nat) {
    w in t.runs && t.runs - {w} == s.runs - {w}
  }

  predicate LookInOrder(look: Look) {
    look.at <= look.recordedAt && (look.quietEnd.Some? ==> look.at < look.quietEnd.value)
  }

  /** The provider is being called for row i, the rows from there on being as loaded. */
  predicate CallingFor(s: State, w: nat, i: nat, tally: Tally) {
    && w in s.runs && s.runs[w].phase.Calling?
    && s.runs[w].phase.next == i && s.runs[w].phase.tally == tally
    && |s.runs[w].phase.snap| == |s.deliveries| == |s.history| && i < |s.deliveries|
    && forall j :: i <= j < |s.deliveries| ==> s.runs[w].phase.snap[j] == s.deliveries[j]
  }

  /** Row i went from s to t as the pass would have it; nothing else moved but the clock. */
  predicate RowDone(s: State, t: State, w: nat, i: nat, tally: Tally, look: Look)
    requires i < |s.deliveries|
  {
    && t.deliveries == s.deliveries[i := After(s.deliveries[i], look)]
    && Before(t, w, i + 1, Counted(tally, VerdictFor(s.deliveries[i], look)))
    && SameSurroundings(s, t) && OtherRunsSame(s, t, w) && t.row == s.row && t.claims == s.claims
  }

  /** The calls counted on the rows grew by one on row i if it was to be pushed, and on no other. */
  predicate CallCounted(before: seq<History>, after: seq<History>, i: nat, d: Delivery, look: Look) {
    && |after| == |before| && i < |before|
    && after[i].calls == before[i].calls + PushesOf(d, look)
    && forall j :: 0 <= j < |before| && j != i ==> after[j].calls == before[j].calls
  }

  predicate SameCalls(before: seq<History>, after: seq<History>) {
    |after| == |before| && forall j :: 0 <= j < |before| ==> after[j].calls == before[j].calls
  }

  function PushesOf(d: Delivery, look: Look): nat {
    if LookedArm(d, look).Push? then 1 else 0
  }

  /** An iteration that does not call the provider is a single step. */
  lemma VisitWithoutCall(s: State, w: nat, i: nat, tally: Tally, look: Look)
    requires Before(s, w, i, tally) && i < |s.deliveries| && s.now == look.at
    requires look.quietEnd.Some? ==> look.at < look.quietEnd.value
    requires !LookedArm(s.deliveries[i], look).Push?
    ensures var a := Visit(w, look.reason, look.quietEnd);
            && Enabled(s, a) && RowDone(s, Apply(s, a), w, i, tally, look) && Apply(s, a).now == s.now
            && CallCounted(s.history, Apply(s, a).history, i, s.deliveries[i], look)
  {
  }

  lemma AcceptanceIsOneStep(s: State, w: nat, i: nat, tally: Tally, look: Look)
    requires CallingFor(s, w, i, tally) && LookedArm(s.deliveries[i], look).Push?
    requires look.outcome.Accepted? && s.now == look.recordedAt
    ensures var a := Answer(w, look.outcome);
            && Enabled(s, a) && RowDone(s, Apply(s, a), w, i, tally, look) && Apply(s, a).now == s.now
            && SameCalls(s.history, Apply(s, a).history)
  {
  }

  lemma FailureIsTwoSteps(s: State, w: nat, i: nat, tally: Tally, look: Look)
    requires CallingFor(s, w, i, tally) && LookedArm(s.deliveries[i], look).Push?
    requires !look.outcome.Accepted? && s.now == look.recordedAt
    ensures var a := Answer(w, look.outcome);
            && Enabled(s, a) && Enabled(Apply(s, a), SaveFail(w))
            && var t := Apply(Apply(s, a), SaveFail(w));
               RowDone(s, t, w, i, tally, look) && t.now == s.now && SameCalls(s.history, t.history)
  {
  }

  /** The provider's answer and its recording. */
  lemma AnswerIsSteps(s: State, w: nat, i: nat, tally: Tally, look: Look) returns (acts: seq<Action>, t: State)
    requires CallingFor(s, w, i, tally)
    requires LookedArm(s.deliveries[i], look).Push? && s.now <= look.recordedAt
    ensures Path(s, acts, t, w) && RowDone(s, t, w, i, tally, look) && t.now <= look.recordedAt
    ensures SameCalls(s.history, t.history)
  {
    var tick := Tick(look.recordedAt - s.now);
    var s1 := Apply(s, tick);
    PathOne(s, tick, w);
    var answer := Answer(w, look.outcome);
    if look.outcome.Accepted? {
      AcceptanceIsOneStep(s1, w, i, tally, look);
    } else {
      FailureIsTwoSteps(s1, w, i, tally, look);
    }
    PathThen(s, [tick], s1, answer, w);
    acts, t := [tick] + [answer], Apply(s1, answer);
    if !look.outcome.Accepted? {
      PathThen(s, acts, t, SaveFail(w), w);
      acts, t := acts + [SaveFail(w)], Apply(t, SaveFail(w));
    }
  }

  /** One iteration of the loop. */
  lemma RowIsSteps(s: State, w: nat, i: nat, tally: Tally, look: Look) returns (acts: seq<Action>, t: State)
    requires Before(s, w, i, tally) && i < |s.deliveries|
    requires LookInOrder(look) && s.now <= look.at
    ensures Path(s, acts, t, w) && RowDone(s, t, w, i, tally, look) && t.now <= look.recordedAt
    ensures CallCounted(s.history, t.history, i, s.deliveries[i], look)
  {
    var tick := Tick(look.at - s.now);
    var s1 := Apply(s, tick);
    PathOne(s, tick, w);
    var visit := Visit(w, look.reason, look.quietEnd);
    if LookedArm(s.deliveries[i], look).Push? {
      var s2 := Apply(s1, visit);
      PathThen(s, [tick], s1, visit, w);
      var acts1, t1 := AnswerIsSteps(s2, w, i, tally, look);
      acts, t := ([tick] + [visit]) + acts1, t1;
      PathCompose(s, [tick] + [visit], s2, acts1, t1, w);
    } else {
      VisitWithoutCall(s1, w, i, tally, look);
      PathThen(s, [tick], s1, visit, w);
      acts, t := [tick] + [visit], Apply(s1, visit);
    }
  }

  // ---------- The loop ----------

  predicate LooksInOrder(looks: seq<Look>, until: int) {
    && (forall i :: 0 <= i < |looks| ==> LookInOrder(looks[i]) && looks[i].recordedAt <= until)
    && (forall i, j :: 0 <= i < j < |looks| ==> looks[i].recordedAt <= looks[j].at)
  }

  /** The first i rows are handled, the others are as loaded. */
  predicate HandledTo(ds: seq<Delivery>, i: nat, loaded: seq<Delivery>, looks: seq<Look>)
    requires |looks| == |loaded| && i <= |loaded|
  {
    && |ds| == |loaded|
    && (forall j :: 0 <= j < i ==> ds[j] == After(loaded[j], looks[j]))
    && (forall j :: i <= j < |loaded| ==> ds[j] == loaded[j])
  }

  /** The calls counted on the first i rows grew as the pass has it, the others did not. */
  predicate CallsCountedTo(before: seq<History>, after: seq<History>, i: nat, loaded: seq<Delivery>, looks: seq<Look>)
    requires |looks| == |loaded| && i <= |loaded|
  {
    && |after| == |before| == |loaded|
    && (forall j :: 0 <= j < i ==> after[j].calls == before[j].calls + PushesOf(loaded[j], looks[j]))
    && (forall j :: i <= j < |loaded| ==> after[j].calls == before[j].calls)
  }

  /** The loop, begun in state s0, has reached row i. */
  predicate LoopAt(s0: State, s: State, w: nat, i: nat, loaded: seq<Delivery>, looks: seq<Look>, until: int) {
    && |looks| == |loaded| && i <= |loaded|
    && HandledTo(s.deliveries, i, loaded, looks)
    && CallsCountedTo(s0.history, s.history, i, loaded, looks)
    && Before(s, w, i, TallyOf(VerdictsFor(loaded, looks)[..i]))
    && s.now <= until && (forall j :: i <= j < |looks| ==> s.now <= looks[j].at)
    && SameSurroundings(s0, s) && OtherRunsSame(s0, s, w) && s.row == s0.row && s.claims == s0.claims
  }

  lemma IterationIsSteps(s0: State, s: State, w: nat, i: nat, loaded: seq<Delivery>, looks: seq<Look>, until: int)
    returns (acts: seq<Action>, t: State)
    requires LoopAt(s0, s, w, i, loaded, looks, until) && i < |loaded| && LooksInOrder(looks, until)
    ensures Path(s, acts, t, w)
    ensures LoopAt(s0, t, w, i + 1, loaded, looks, until)
  {
    var vs := VerdictsFor(loaded, looks);
    acts, t := RowIsSteps(s, w, i, TallyOf(vs[..i]), looks[i]);
    OneMoreVerdict(vs, i);
    assert vs[i] == VerdictFor(loaded[i], looks[i]);
  }

  lemma {:induction false} LoopIsSteps(
    s0: State, s: State, w: nat, i: nat, loaded: seq<Delivery>, looks: seq<Look>, until: int)
    returns (acts: seq<Action>, t: State)
    requires LoopAt(s0, s, w, i, loaded, looks, until) && LooksInOrder(looks, until)
    ensures Path(s, acts, t, w)
    ensures LoopAt(s0, t, w, |loaded|, loaded, looks, until)
    decreases |loaded| - i
  {
    if i == |loaded| {
      acts, t := [], s;
    } else {
      var acts1, s1 := IterationIsSteps(s0, s, w, i, loaded, looks, until);
      var acts2, s2 := LoopIsSteps(s0, s1, w, i + 1, loaded, looks, until);
      PathCompose(s, acts1, s1, acts2, s2, w);
      acts, t := acts1 + acts2, s2;
    }
  }

  lemma {:induction false} CancellingIsSteps(s: State, w: nat, i: nat, loaded: seq<Delivery>)
    returns (acts: seq<Action>, t: State)
    requires w in s.runs && s.runs[w].phase == Closing(i, loaded)
    requires |s.history| == |s.deliveries| == |loaded| && i <= |loaded|
    requires forall j :: 0 <= j < i ==> s.deliveries[j] == LapsedRow(loaded[j], s.now)
    requires forall j :: i <= j < |loaded| ==> s.deliveries[j] == loaded[j]
    ensures Path(s, acts, t, w)
    ensures t.deliveries == LapsedRows(loaded, s.now) && t.now == s.now && SameCalls(s.history, t.history)
    ensures w in t.runs && t.runs[w].phase == Closing(|loaded|, loaded)
    ensures SameSurroundings(s, t) && OtherRunsSame(s, t, w) && t.row == s.row && t.claims == s.claims
    decreases |loaded| - i
  {
    if i == |loaded| {
      acts, t := [], s;
    } else {
      var a := CancelNext(w);
      var s1 := Apply(s, a);
      PathOne(s, a, w);
      var acts2, s2 := CancellingIsSteps(s1, w, i + 1, loaded);
      PathCompose(s, [a], s1, acts2, s2, w);
      acts, t := [a] + acts2, s2;
    }
  }

  // ---------- The whole pass ----------

  predicate ClockInOrder(env: Surroundings, from: int, rows: nat) {
    && from <= env.acquiredAt <= env.quietCheckedAt <= env.finishedAt
    && (forall i :: 0 <= i < rows ==>
          env.quietCheckedAt <= env.lookedAt(i) <= env.recordedAt(i) <= env.finishedAt)
    && (forall i, j :: 0 <= i < j < rows ==> env.recordedAt(i) <= env.lookedAt(j))
  }

  lemma WorkedLooksAreInOrder(ds: seq<Delivery>, env: Surroundings, devices: map<nat, Device>, from: int)
    requires HaveDevices(ds, devices) && ClockInOrder(env, from, |Loaded(ds, env, devices)|)
    ensures LooksInOrder(WorkedLooks(ds, env, devices), env.finishedAt)
    ensures forall i :: 0 <= i < |Loaded(ds, env, devices)| ==>
              env.quietCheckedAt <= WorkedLooks(ds, env, devices)[i].at
  {
    var loaded := Loaded(ds, env, devices);
    var looks := WorkedLooks(ds, env, devices);
    forall i | 0 <= i < |looks| ensures LookInOrder(looks[i]) {
      EndFromMeaning(devices[loaded[i].device].quietPeriods, looks[i].at);
    }
  }

  /** The outcome of a pass as the protocol sees it: the worker is gone, the rows and the
      notification are as the pass leaves them, nothing else moved. */
  predicate PassDone(s: State, t: State, env: Surroundings, devices: map<nat, Device>)
    requires HaveDevices(s.deliveries, devices)
  {
    && t.row == RowAfter(s.row, s.deliveries, env, devices)
    && t.deliveries == RowsAfter(s.row.status, s.deliveries, env, devices)
    && t.runs == s.runs && t.claims == s.claims - 1 && SameSurroundings(s, t)
    && t.now <= env.finishedAt
    && CallsGrew(s, t, env, devices)
  }

  /** Provider calls counted on row k before the pass; a row still to be created has none. */
  function CallsBefore(s: State, k: nat): nat {
    if k < |s.history| then s.history[k].calls else 0
  }

  /** The provider calls counted on each row grew by those that the pass makes for it. */
  predicate CallsGrew(s: State, t: State, env: Surroundings, devices: map<nat, Device>)
    requires HaveDevices(s.deliveries, devices)
  {
    var loaded := Loaded(s.deliveries, env, devices);
    var looks := WorkedLooks(s.deliveries, env, devices);
    && |t.history| == |t.deliveries|
    && forall k :: 0 <= k < |t.history| ==>
         t.history[k].calls == CallsBefore(s, k) +
           if FateOf(s.row.status, env).Worked? && k < |loaded| then PushesOf(loaded[k], looks[k]) else 0
  }

  /** Ready for the pass of worker w. */
  predicate Ready(s: State, w: nat, env: Surroundings, devices: map<nat, Device>) {
    && s.claims > 0 && w !in s.runs && |s.history| == |s.deliveries|
    && HaveDevices(s.deliveries, devices)
    && ClockInOrder(env, s.now, |Loaded(s.deliveries, env, devices)|)
  }

  /** Time passes and the worker acquires. */
  lemma AcquiringIsSteps(s: State, w: nat, env: Surroundings, devices: map<nat, Device>)
    returns (acts: seq<Action>, t: State)
    requires Ready(s, w, env, devices)
    ensures Path(s, acts, t, w)
    ensures t == Apply(s.(now := env.acquiredAt), Acquire(w, env.locked))
  {
    var tick := Tick(env.acquiredAt - s.now);
    PathOne(s, tick, w);
    PathThen(s, [tick], Apply(s, tick), Acquire(w, env.locked), w);
    acts, t := [tick] + [Acquire(w, env.locked)], Apply(Apply(s, tick), Acquire(w, env.locked));
  }

  lemma LapsedPassIsSteps(s: State, w: nat, env: Surroundings, devices: map<nat, Device>)
    returns (acts: seq<Action>, t: State)
    requires Ready(s, w, env, devices) && FateOf(s.row.status, env).Lapsed?
    ensures Path(s, acts, t, w) && PassDone(s, t, env, devices)
  {
    var acts1, s1 := AcquiringIsSteps(s, w, env, devices);
    PathThen(s, acts1, s1, Lapse(w), w);
    var s2 := Apply(s1, Lapse(w));
    var acts3, s3 := CancellingIsSteps(s2, w, 0, s.deliveries);
    PathCompose(s, acts1 + [Lapse(w)], s2, acts3, s3, w);
    PathThen(s, acts1 + [Lapse(w)] + acts3, s3, CloseLapsed(w), w);
    acts, t := acts1 + [Lapse(w)] + acts3 + [CloseLapsed(w)], Apply(s3, CloseLapsed(w));
    assert t.runs == s.runs;
  }

  /** Time passes after the acquisition and the worker checks the application's quiet periods. */
  lemma CheckingIsSteps(s: State, w: nat, env: Surroundings, devices: map<nat, Device>)
    returns (acts: seq<Action>, s1: State, t: State)
    requires Ready(s, w, env, devices)
    requires FateOf(s.row.status, env).Postponed? || FateOf(s.row.status, env).Worked?
    ensures Path(s, acts, t, w)
    ensures s1 == Apply(s.(now := env.acquiredAt), Acquire(w, env.locked)).(now := env.quietCheckedAt)
    ensures var a := QuietCheck(w, EndFrom(env.applicationPeriods, env.quietCheckedAt));
            Enabled(s1, a) && t == Apply(s1, a)
  {
    EndFromMeaning(env.applicationPeriods, env.quietCheckedAt);
    var acts1, s0 := AcquiringIsSteps(s, w, env, devices);
    var tick := Tick(env.quietCheckedAt - env.acquiredAt);
    PathThen(s, acts1, s0, tick, w);
    s1 := Apply(s0, tick);
    var check := QuietCheck(w, EndFrom(env.applicationPeriods, env.quietCheckedAt));
    PathThen(s, acts1 + [tick], s1, check, w);
    acts, t := acts1 + [tick] + [check], Apply(s1, check);
  }

  /** After the quiet check, the worker loads the rows. */
  lemma LoadingIsSteps(s: State, w: nat, env: Surroundings, devices: map<nat, Device>)
    returns (acts: seq<Action>, t: State)
    requires Ready(s, w, env, devices) && FateOf(s.row.status, env).Worked?
    ensures Path(s, acts, t, w)
    ensures var loaded := Loaded(s.deliveries, env, devices);
            if loaded == [] then PassDone(s, t, env, devices)
            else
              && LoopAt(t, t, w, 0, loaded, WorkedLooks(s.deliveries, env, devices), env.finishedAt)
              && t.runs - {w} == s.runs && SameSurroundings(s, t) && t.claims == s.claims - 1
              && (forall k :: 0 <= k < |t.history| ==> t.history[k].calls == CallsBefore(s, k))
              && t.row == s.row.(status := PROCESSING, processingStartedAt := Some(env.acquiredAt))
  {
    var acts1, s0, s1 := CheckingIsSteps(s, w, env, devices);
    assert s1.runs - {w} == s.runs;
    var loaded := Loaded(s.deliveries, env, devices);
    var load := Load(w, Targets(env.linked, devices));
    PathThen(s, acts1, s1, load, w);
    acts, t := acts1 + [load], Apply(s1, load);
    assert t.deliveries == loaded;
    if loaded != [] {
      LoopStarts(t, w, loaded, s.deliveries, env, devices, s.now);
    }
  }

  lemma LoopStarts(t: State, w: nat, loaded: seq<Delivery>, ds: seq<Delivery>,
                   env: Surroundings, devices: map<nat, Device>, from: int)
    requires HaveDevices(ds, devices) && loaded == Loaded(ds, env, devices)
    requires ClockInOrder(env, from, |loaded|)
    requires t.deliveries == loaded && t.now == env.quietCheckedAt && Before(t, w, 0, ZERO_TALLY)
    ensures LoopAt(t, t, w, 0, loaded, WorkedLooks(ds, env, devices), env.finishedAt)
  {
  }

  /** After the last row, the worker writes the final status. */
  lemma FinishingIsSteps(s: State, w: nat, now: int) returns (acts: seq<Action>, t: State)
    requires w in s.runs && s.runs[w].phase.Sending? && s.runs[w].phase.next == |s.runs[w].phase.snap|
    requires s.now <= now
    ensures Path(s, acts, t, w)
    ensures t == EndRun(s.(now := now), w, FinishedRow(s.row, FinalStatus(s.runs[w].phase.tally), now))
  {
    var tick := Tick(now - s.now);
    PathOne(s, tick, w);
    PathThen(s, [tick], Apply(s, tick), Finish(w), w);
    acts, t := [tick] + [Finish(w)], Apply(Apply(s, tick), Finish(w));
  }

  lemma WorkedPassIsSteps(s: State, w: nat, env: Surroundings, devices: map<nat, Device>)
    returns (acts: seq<Action>, t: State)
    requires Ready(s, w, env, devices) && FateOf(s.row.status, env).Worked?
    ensures Path(s, acts, t, w) && PassDone(s, t, env, devices)
  {
    var acts1, s1 := LoadingIsSteps(s, w, env, devices);
    acts, t := acts1, s1;
    var loaded := Loaded(s.deliveries, env, devices);
    if loaded != [] {
      var looks := WorkedLooks(s.deliveries, env, devices);
      WorkedLooksAreInOrder(s.deliveries, env, devices, s.now);
      var acts2, s2 := LoopIsSteps(s1, s1, w, 0, loaded, looks, env.finishedAt);
      var acts3, s3 := FinishingIsSteps(s2, w, env.finishedAt);
      PathCompose(s, acts1, s1, acts2, s2, w);
      PathCompose(s, acts1 + acts2, s2, acts3, s3, w);
      acts, t := acts1 + acts2 + acts3, s3;
      var vs := VerdictsFor(loaded, looks);
      assert vs[..|loaded|] == vs;
      assert s2.deliveries == AfterPass(loaded, looks);
      assert s3.runs == s.runs;
    }
  }

  /** In device order, a row is pushed exactly when its device is among the pass's calls. */
  lemma PushesAreTheCalls(ds: seq<Delivery>, looks: seq<Look>, k: nat)
    requires |looks| == |ds| && InDeviceOrder(ds) && k < |ds|
    ensures PushesOf(ds[k], looks[k]) == if ds[k].device in CallsOf(ds, looks) then 1 else 0
  {
    CallsAreJustified(ds, looks, ds[k].device);
    if ds[k].device in CallsOf(ds, looks) {
      var i :| 0 <= i < |ds| && IsDeserving(ds, looks, i, ds[k].device);
      assert i == k;
    }
    assert IsDeserving(ds, looks, k, ds[k].device) <==> LookedArm(ds[k], looks[k]).Push?;
  }

  /** Whatever its surroundings, the whole pass is a schedule of the protocol in which only
      the worker acts, it ends in exactly the rows the pass writes, and the calls counted on
      each row grow exactly by the calls of the pass. */
  lemma PassIsAProtocolSchedule(s: State, w: nat, env: Surroundings, devices: map<nat, Device>)
    returns (acts: seq<Action>, t: State)
    requires Ready(s, w, env, devices)
    ensures Path(s, acts, t, w) && PassDone(s, t, env, devices)
    ensures var loaded := Loaded(s.deliveries, env, devices);
            FateOf(s.row.status, env).Worked? && InDeviceOrder(loaded) ==>
              |t.history| == |loaded| && forall k :: 0 <= k < |loaded| ==>
                t.history[k].calls == CallsBefore(s, k) +
                  if loaded[k].device in CallsOf(loaded, WorkedLooks(s.deliveries, env, devices)) then 1 else 0
  {
    acts, t := PassIsSchedule(s, w, env, devices);
    var loaded := Loaded(s.deliveries, env, devices);
    if FateOf(s.row.status, env).Worked? && InDeviceOrder(loaded) {
      forall k | 0 <= k < |loaded|
        ensures PushesOf(loaded[k], WorkedLooks(s.deliveries, env, devices)[k]) ==
                if loaded[k].device in CallsOf(loaded, WorkedLooks(s.deliveries, env, devices)) then 1 else 0
      {
        PushesAreTheCalls(loaded, WorkedLooks(s.deliveries, env, devices), k);
      }
    }
  }

  lemma PassIsSchedule(s: State, w: nat, env: Surroundings, devices: map<nat, Device>)
    returns (acts: seq<Action>, t: State)
    requires Ready(s, w, env, devices)
    ensures Path(s, acts, t, w) && PassDone(s, t, env, devices)
  {
    match FateOf(s.row.status, env)
    case NotAcquired => acts, t := AcquiringIsSteps(s, w, env, devices);
    case Lapsed => acts, t := LapsedPassIsSteps(s, w, env, devices);
    case Postponed(_) =>
      var s1;
      acts, s1, t := CheckingIsSteps(s, w, env, devices);
      assert t.runs == s.runs;
    case Worked => acts, t := WorkedPassIsSteps(s, w, env, devices);
  }
}
