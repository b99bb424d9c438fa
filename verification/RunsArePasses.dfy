/** The converse of the refinement: whatever other actors do meanwhile, a run of the protocol
    that is spared by the watchdog changes the rows exactly as a pass does. */
module RunsArePasses {
  import opened Options
  import opened Deliveries
  import opened Notifications
  import opened SendPass
  import opened Protocol
  import opened ProtocolSafety
  import opened ProtocolDeliveries
  import opened PassRefinement

  /** The looks that are complete, and the one at the row whose provider call is under way. */
  datatype Looks = Looks(made: seq<Look>, pending: Option<Look>)

  /** The run stands on a row as the pass would: before it, calling for it, or having counted
      its failure. */
  predicate OnRow(p: Phase, stored: Delivery, d: Delivery, pending: Option<Look>)
    requires (p.Sending? || p.Calling? || p.Counting?) && p.next < |p.snap|
  {
    match p
    case Sending(_, next, snap, _) => stored == d && snap[next] == d
    case Calling(_, next, snap, _) =>
      stored == d && snap[next] == d && pending.Some? && LookedArm(d, pending.value).Push?
    case Counting(_, next, snap, _) =>
      stored == CountFailure(d) && snap[next].attempts == d.attempts + 1
      && pending.Some? && LookedArm(d, pending.value).Push? && !pending.value.outcome.Accepted?
  }

  predicate CallsSoFar(before: seq<History>, now: seq<History>, loaded: seq<Delivery>, looks: Looks) {
    var n := |looks.made|;
    && n <= |loaded| == |before| == |now| && (looks.pending.Some? ==> n < |loaded|)
    && (forall j :: 0 <= j < n ==> now[j].calls == before[j].calls + PushesOf(loaded[j], looks.made[j]))
    && (forall j :: n <= j < |loaded| ==>
          now[j].calls == before[j].calls + if j == n && looks.pending.Some? then 1 else 0)
  }

  predicate IsWorking(p: Phase, ds: seq<Delivery>, loaded: seq<Delivery>) {
    && (p.Sending? || p.Calling? || p.Counting?)
    && |ds| == |p.snap| == |loaded| && p.next <= |loaded|
    && (!p.Sending? ==> p.next < |loaded|)
  }

  /** The rows are those of a pass that has made the given looks. */
  predicate RowsFollow(ds: seq<Delivery>, p: Phase, loaded: seq<Delivery>, looks: Looks)
    requires IsWorking(p, ds, loaded) && |looks.made| == p.next
  {
    && (forall j :: 0 <= j < p.next ==> ds[j] == After(loaded[j], looks.made[j]))
    && (forall j :: p.next < j < |loaded| ==> ds[j] == loaded[j] && p.snap[j] == loaded[j])
    && (p.next < |loaded| ==> OnRow(p, ds[p.next], loaded[p.next], looks.pending))
  }

  /** The looks come in the order of the clock; a pending one is the latest. */
  predicate LooksUntil(looks: Looks, now: int) {
    && LooksInOrder(looks.made, now)
    && (looks.pending.Some? ==>
          && looks.pending.value.at <= now
          && (looks.pending.value.quietEnd.Some? ==> looks.pending.value.at < looks.pending.value.quietEnd.value)
          && LooksInOrder(looks.made, looks.pending.value.at))
  }

  /** A run in this phase, over these rows and calls, does as a pass that has made the looks. */
  predicate PhaseFollows(p: Phase, ds: seq<Delivery>, calls: seq<History>, now: int,
                         loaded: seq<Delivery>, calls0: seq<History>, looks: Looks) {
    && IsWorking(p, ds, loaded)
    && |looks.made| == p.next && (p.Sending? <==> looks.pending.None?)
    && RowsFollow(ds, p, loaded, looks)
    && p.tally == TallyOf(VerdictsFor(loaded[..p.next], looks.made))
    && LooksUntil(looks, now)
    && CallsSoFar(calls0, calls, loaded, looks)
  }

  predicate Follows(s: State, w: nat, loaded: seq<Delivery>, calls0: seq<History>, looks: Looks) {
    w in s.runs && PhaseFollows(s.runs[w].phase, s.deliveries, s.history, s.now, loaded, calls0, looks)
  }

  lemma OneMoreLook(loaded: seq<Delivery>, made: seq<Look>, look: Look)
    requires |made| < |loaded|
    ensures TallyOf(VerdictsFor(loaded[..|made| + 1], made + [look])) ==
            Counted(TallyOf(VerdictsFor(loaded[..|made|], made)), VerdictFor(loaded[|made|], look))
  {
    var vs := VerdictsFor(loaded[..|made| + 1], made + [look]);
    assert vs[..|made|] == VerdictsFor(loaded[..|made|], made);
  }

  /** The look that the run completes now comes after the earlier ones. */
  predicate CompletesLook(looks: Looks, look: Look, now: int) {
    && look.recordedAt == now && look.at <= now && (look.quietEnd.Some? ==> look.at < look.quietEnd.value)
    && LooksInOrder(looks.made, look.at)
  }

  lemma LooksStayInOrder(looks: Looks, look: Look, now: int)
    requires CompletesLook(looks, look, now)
    ensures LooksUntil(Looks(looks.made + [look], None), now)
  {
  }

  /** The run has settled the row it stood on as the pass does with the given look. */
  lemma RowSettled(p: Phase, p': Phase, ds: seq<Delivery>, calls: seq<History>, calls': seq<History>, now: int,
                   loaded: seq<Delivery>, calls0: seq<History>, looks: Looks, look: Look)
    requires PhaseFollows(p, ds, calls, now, loaded, calls0, looks) && p.next < |loaded|
    requires p'.Sending? && p'.next == p.next + 1 && p'.tally == Counted(p.tally, VerdictFor(loaded[p.next], look))
    requires |p'.snap| == |loaded| && forall j :: p.next < j < |loaded| ==> p'.snap[j] == p.snap[j]
    requires CompletesLook(looks, look, now)
    requires CallsSoFar(calls0, calls', loaded, Looks(looks.made + [look], None))
    ensures PhaseFollows(p', ds[p.next := After(loaded[p.next], look)], calls', now,
                         loaded, calls0, Looks(looks.made + [look], None))
  {
    OneMoreLook(loaded, looks.made, look);
    LooksStayInOrder(looks, look, now);
  }

  lemma CallsAfterLook(before: seq<History>, now: seq<History>, now': seq<History>,
                       loaded: seq<Delivery>, made: seq<Look>, look: Look)
    requires CallsSoFar(before, now, loaded, Looks(made, None)) && |made| < |loaded|
    requires CallCounted(now, now', |made|, loaded[|made|], look)
    ensures CallsSoFar(before, now', loaded, Looks(made + [look], None))
    ensures LookedArm(loaded[|made|], look).Push? ==> CallsSoFar(before, now', loaded, Looks(made, Some(look)))
  {
  }

  lemma CallsAfterAnswer(before: seq<History>, now: seq<History>, loaded: seq<Delivery>, looks: Looks, look: Look)
    requires CallsSoFar(before, now, loaded, looks) && looks.pending.Some?
    requires LookedArm(loaded[|looks.made|], look).Push?
    ensures CallsSoFar(before, now, loaded, Looks(looks.made + [look], None))
  {
  }

  lemma {:induction false} VisitFollows(s: State, a: Action, loaded: seq<Delivery>, calls0: seq<History>, looks: Looks)
    returns (looks': Looks)
    requires Enabled(s, a) && a.Visit? && Follows(s, a.worker, loaded, calls0, looks)
    ensures Follows(Apply(s, a), a.worker, loaded, calls0, looks')
  {
    var t, p := Apply(s, a), s.runs[a.worker].phase;
    var look := Look(a.reason, s.now, a.quietEnd, Accepted, s.now);
    assert CallCounted(s.history, t.history, p.next, loaded[p.next], look);
    CallsAfterLook(calls0, s.history, t.history, loaded, looks.made, look);
    if LookedArm(loaded[p.next], look).Push? {
      looks' := Looks(looks.made, Some(look));
      assert t.runs[a.worker].phase == Calling(p.checkedAt, p.next, p.snap, p.tally) && t.deliveries == s.deliveries;
    } else {
      VisitSettles(s, a, loaded[p.next], look);
      RowSettled(p, t.runs[a.worker].phase, s.deliveries, s.history, t.history, s.now, loaded, calls0, looks, look);
      looks' := Looks(looks.made + [look], None);
    }
  }

  /** A visit without a call is the pass's treatment of the row. */
  lemma VisitSettles(s: State, a: Action, d: Delivery, look: Look)
    requires Enabled(s, a) && a.Visit? && look.reason == a.reason && look.at == s.now && look.quietEnd == a.quietEnd
    requires var p := s.runs[a.worker].phase; p.snap[p.next] == d && s.deliveries[p.next] == d
    requires !LookedArm(d, look).Push?
    ensures var p, t := s.runs[a.worker].phase, Apply(s, a);
            && t.deliveries == s.deliveries[p.next := After(d, look)] && a.worker in t.runs
            && t.runs[a.worker].phase == Sending(p.checkedAt, p.next + 1, p.snap, Counted(p.tally, VerdictFor(d, look)))
  {
  }

  lemma {:induction false} AnswerFollows(s: State, a: Action, loaded: seq<Delivery>, calls0: seq<History>, looks: Looks)
    returns (looks': Looks)
    requires Enabled(s, a) && a.Answer? && Follows(s, a.worker, loaded, calls0, looks)
    ensures Follows(Apply(s, a), a.worker, loaded, calls0, looks')
  {
    var t, p := Apply(s, a), s.runs[a.worker].phase;
    var look := looks.pending.value.(outcome := a.outcome, recordedAt := s.now);
    if a.outcome.Accepted? {
      CallsAfterAnswer(calls0, s.history, loaded, looks, look);
      RowSettled(p, t.runs[a.worker].phase, s.deliveries, s.history, t.history, s.now, loaded, calls0, looks, look);
      looks' := Looks(looks.made + [look], None);
    } else {
      looks' := Looks(looks.made, Some(look));
      assert t.deliveries == s.deliveries[p.next := CountFailure(loaded[p.next])];
    }
  }

  lemma {:induction false} SaveFailFollows(s: State, a: Action, loaded: seq<Delivery>, calls0: seq<History>,
                                           looks: Looks)
    returns (looks': Looks)
    requires Enabled(s, a) && a.SaveFail? && Follows(s, a.worker, loaded, calls0, looks)
    ensures Follows(Apply(s, a), a.worker, loaded, calls0, looks')
  {
    var t, p := Apply(s, a), s.runs[a.worker].phase;
    var look := looks.pending.value.(recordedAt := s.now);
    CallsAfterAnswer(calls0, s.history, loaded, looks, look);
    assert CallsSoFar(calls0, t.history, loaded, Looks(looks.made + [look], None));
    SaveFailSettles(s, a, loaded[p.next], look);
    RowSettled(p, t.runs[a.worker].phase, s.deliveries, s.history, t.history, s.now, loaded, calls0, looks, look);
    looks' := Looks(looks.made + [look], None);
  }

  lemma SaveFailSettles(s: State, a: Action, d: Delivery, look: Look)
    requires Enabled(s, a) && a.SaveFail? && look.recordedAt == s.now
    requires var p := s.runs[a.worker].phase; p.snap[p.next].attempts == d.attempts + 1
    requires s.deliveries[s.runs[a.worker].phase.next] == CountFailure(d)
    requires LookedArm(d, look).Push? && !look.outcome.Accepted?
    ensures var p, t := s.runs[a.worker].phase, Apply(s, a);
            && t.deliveries == s.deliveries[p.next := After(d, look)] && a.worker in t.runs
            && t.runs[a.worker].phase == Sending(p.checkedAt, p.next + 1, p.snap, Counted(p.tally, VerdictFor(d, look)))
  {
  }

  lemma OthersFollow(s: State, a: Action, w: nat, loaded: seq<Delivery>, calls0: seq<History>, looks: Looks)
    requires Enabled(s, a) && !IsRunStep(a) && Follows(s, w, loaded, calls0, looks)
    ensures Follows(Apply(s, a), w, loaded, calls0, looks)
  {
    OtherActorsWriteNoDelivery(s, a);
    assert s.now <= Apply(s, a).now;
  }

  lemma {:induction false} StepFollows(s: State, a: Action, w: nat, loaded: seq<Delivery>, calls0: seq<History>,
                                       looks: Looks)
    returns (looks': Looks)
    requires Enabled(s, a) && Exclusive(s) && Follows(s, w, loaded, calls0, looks) && w in Apply(s, a).runs
    ensures Follows(Apply(s, a), w, loaded, calls0, looks')
  {
    if !IsRunStep(a) {
      OthersFollow(s, a, w, loaded, calls0, looks);
      looks' := looks;
    } else {
      assert a.worker == w;
      if a.Visit? {
        looks' := VisitFollows(s, a, loaded, calls0, looks);
      } else if a.Answer? {
        looks' := AnswerFollows(s, a, loaded, calls0, looks);
      } else {
        looks' := SaveFailFollows(s, a, loaded, calls0, looks);
      }
    }
  }

  lemma LoadFollows(s: State, a: Action)
    requires Enabled(s, a) && a.Load? && a.worker in Apply(s, a).runs && |s.history| == |s.deliveries|
    ensures Follows(Apply(s, a), a.worker, Apply(s, a).deliveries, Apply(s, a).history, Looks([], None))
    ensures Apply(s, a).deliveries != []
  {
  }

  /** A step of the behaviour that the run survives, alone. */
  ghost predicate Survives(ss: seq<State>, acts: seq<Action>, m: nat, w: nat)
    requires m < |acts| && |ss| == |acts| + 1
  {
    && Exclusive(ss[m]) && Enabled(ss[m], acts[m]) && ss[m + 1] == Apply(ss[m], acts[m]) && w in ss[m + 1].runs
  }

  lemma {:induction false} FollowsThroughout(
    ss: seq<State>, acts: seq<Action>, i: nat, j: nat, w: nat, loaded: seq<Delivery>, calls0: seq<History>)
    returns (looks: Looks)
    requires |ss| == |acts| + 1 && i <= j < |ss| && Follows(ss[i], w, loaded, calls0, Looks([], None))
    requires forall m :: i <= m < j ==> Survives(ss, acts, m, w)
    ensures Follows(ss[j], w, loaded, calls0, looks)
    decreases j
  {
    looks := Looks([], None);
    if i < j {
      looks := FollowsThroughout(ss, acts, i, j - 1, w, loaded, calls0);
      assert Survives(ss, acts, j - 1, w);
      looks := StepFollows(ss[j - 1], acts[j - 1], w, loaded, calls0, looks);
    }
  }

  lemma RunFollows(ss: seq<State>, acts: seq<Action>, i: nat, j: nat, w: nat) returns (looks: Looks)
    requires SparedBehaviour(ss, acts) && i < j < |ss| && acts[i].Load? && acts[i].worker == w
    requires forall m :: i < m <= j ==> w in ss[m].runs
    ensures Follows(ss[j], w, ss[i + 1].deliveries, ss[i + 1].history, looks)
    ensures ss[i + 1].deliveries != []
  {
    ShapeHolds(ss, acts, i);
    assert w in ss[i + 1].runs;
    LoadFollows(ss[i], acts[i]);
    forall m | i + 1 <= m < j ensures Survives(ss, acts, m, w) {
      SparedIsExclusive(ss, acts, m);
      assert w in ss[m + 1].runs;
    }
    looks := FollowsThroughout(ss, acts, i + 1, j, w, ss[i + 1].deliveries, ss[i + 1].history);
  }

  /** From its load to its finish, a run leaves the rows, the status and the counted calls that
      a pass over the loaded rows leaves, for some looks in the order of the clock. */
  lemma {:induction false} RunIsAPass(ss: seq<State>, acts: seq<Action>, i: nat, j: nat, w: nat)
    returns (looks: seq<Look>)
    requires SparedBehaviour(ss, acts) && i < j < |acts|
    requires acts[i].Load? && acts[i].worker == w && acts[j] == Finish(w)
    requires forall m :: i < m <= j ==> w in ss[m].runs
    ensures var loaded := ss[i + 1].deliveries;
            && loaded != [] && |looks| == |loaded| && LooksInOrder(looks, ss[j].now)
            && ss[j + 1].deliveries == AfterPass(loaded, looks)
            && ss[j + 1].row.status == FinalStatus(TallyOf(VerdictsFor(loaded, looks)))
            && CallsSoFar(ss[i + 1].history, ss[j + 1].history, loaded, Looks(looks, None))
  {
    var made := RunFollows(ss, acts, i, j, w);
    looks := made.made;
    var loaded := ss[i + 1].deliveries;
    assert loaded[..|loaded|] == loaded;
    assert ss[j + 1] == Apply(ss[j], Finish(w));
  }

  /** So the status that any spared run writes tells the truth about the rows it leaves. */
  lemma {:induction false} RunStatusMeaning(ss: seq<State>, acts: seq<Action>, i: nat, j: nat, w: nat)
    requires SparedBehaviour(ss, acts) && i < j < |acts|
    requires acts[i].Load? && acts[i].worker == w && acts[j] == Finish(w)
    requires forall m :: i < m <= j ==> w in ss[m].runs
    ensures ss[j + 1].row.status.SENT? <==> AllSent(ss[j + 1].deliveries)
    ensures ss[j + 1].row.status.FAILED? ==> NoneSent(ss[j + 1].deliveries)
    ensures var r := ss[j + 1].row.status; r.SENT? || r.FAILED? || r.PARTIAL?
  {
    var looks := RunIsAPass(ss, acts, i, j, w);
    PassStatusMeaning(ss[i + 1].deliveries, looks);
  }
}
