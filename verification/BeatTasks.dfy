/** The periodic tasks: the minute dispatcher, the watchdog and the retry sweep, as loops
    over the ids their scan found while other actors keep writing. */
module BeatTasks {
  import opened Options
  import opened Deliveries
  import opened Notifications
  import opened Protocol

  type Rows = map<nat, Row>

  /** What surrounds one iteration: the writes of others before it, whether the row is locked
      by someone, the clock, and whether the broker accepts the submission. */
  datatype Turn = Turn(before: Rows -> Rows, locked: bool, now: int, brokerUp: bool)

  /** Nobody interferes and the broker is up. */
  ghost predicate Calm(turns: nat -> Turn, now: int) {
    forall i: nat :: IsCalm(turns(i), now)
  }

  ghost predicate IsCalm(turn: Turn, now: int) {
    !turn.locked && turn.now >= now && turn.brokerUp && forall rows: Rows :: turn.before(rows) == rows
  }

  predicate DueForDispatch(r: Row, now: int) {
    r.status.SCHEDULED? && r.scheduledFor.Some? && r.scheduledFor.value <= now
  }

  predicate StuckSince(r: Row, cutoff: int) {
    r.status.PROCESSING? && r.processingStartedAt.Some? && r.processingStartedAt.value < cutoff
  }

  function Requeued(r: Row): Row {
    r.(status := QUEUED, processingStartedAt := None)
  }

  predicate Increasing(ids: seq<nat>) {
    forall i, j :: 0 <= i < j < |ids| ==> ids[i] < ids[j]
  }

  /** The scan's order_by("id"). */
  method InOrder(ids: set<nat>) returns (order: seq<nat>)
    ensures Increasing(order)
    ensures forall id :: id in order <==> id in ids
  {
    order := [];
    var rest := ids;
    while rest != {}
      invariant Increasing(order) && rest <= ids
      invariant forall id :: id in ids <==> id in order || id in rest
      invariant forall i, id :: 0 <= i < |order| && id in rest ==> order[i] < id
      decreases rest
    {
      var least := Least(rest);
      order := order + [least];
      rest := rest - {least};
    }
  }

  method Least(ids: set<nat>) returns (least: nat)
    requires ids != {}
    ensures least in ids && forall id :: id in ids ==> least <= id
  {
    least :| least in ids;
    var rest := ids - {least};
    while rest != {}
      invariant least in ids && rest <= ids
      invariant forall id :: id in ids && id !in rest ==> least <= id
      decreases rest
    {
      var id :| id in rest;
      if id < least {
        least := id;
      }
      rest := rest - {id};
    }
  }

  // ---------- What a round makes of the rows ----------

  /** The two jobs that scan for rows and rewrite them one by one. */
  datatype Job = Dispatching | Requeueing(cutoff: int)

  /** The row must satisfy the job's condition when it is rewritten. */
  predicate Fires(job: Job, r: Row, turn: Turn) {
    match job
    case Dispatching => !turn.locked && DueForDispatch(r, turn.now)
    case Requeueing(cutoff) => StuckSince(r, cutoff)
  }

  /** The condition of the job's scan. */
  predicate IsDue(job: Job, r: Row, now: int) {
    match job
    case Dispatching => DueForDispatch(r, now)
    case Requeueing(cutoff) => StuckSince(r, cutoff)
  }

  function Rewritten(job: Job, r: Row): Row {
    match job
    case Dispatching => r.(status := QUEUED)
    case Requeueing(_) => Requeued(r)
  }

  /** The rows, the ids submitted so far, and whether a refused submission ended the round. */
  datatype Round = Round(rows: Rows, submitted: seq<nat>, raised: bool)

  function OneMore(job: Job, r: Round, id: nat, turn: Turn): Round {
    if r.raised then r
    else
      var seen := turn.before(r.rows);
      if id in seen && Fires(job, seen[id], turn)
      then Round(seen[id := Rewritten(job, seen[id])],
                 if turn.brokerUp then r.submitted + [id] else r.submitted, !turn.brokerUp)
      else r.(rows := seen)
  }

  function RoundAfter(job: Job, rows: Rows, ids: seq<nat>, turns: nat -> Turn): Round {
    if ids == [] then Round(rows, [], false)
    else OneMore(job, RoundAfter(job, rows, ids[..|ids| - 1], turns), ids[|ids| - 1], turns(|ids| - 1))
  }

  lemma RoundOfPrefix(job: Job, rows: Rows, ids: seq<nat>, turns: nat -> Turn, i: nat)
    requires i < |ids|
    ensures RoundAfter(job, rows, ids[..i + 1], turns) ==
            OneMore(job, RoundAfter(job, rows, ids[..i], turns), ids[i], turns(i))
  {
    assert ids[..i + 1][..i] == ids[..i];
  }

  /** Once the broker has refused a submission, the round writes and submits nothing more. */
  lemma {:induction false} RaisedRoundIsOver(job: Job, rows: Rows, ids: seq<nat>, turns: nat -> Turn, i: nat)
    requires i <= |ids| && RoundAfter(job, rows, ids[..i], turns).raised
    ensures RoundAfter(job, rows, ids, turns) == RoundAfter(job, rows, ids[..i], turns)
    decreases |ids|
  {
    if i == |ids| {
      assert ids[..i] == ids;
    } else {
      var k := |ids| - 1;
      assert ids[..k][..i] == ids[..i];
      RaisedRoundIsOver(job, rows, ids[..k], turns, i);
    }
  }

  /** An increasing selection of the scanned ids. */
  predicate Selection(chosen: seq<nat>, ids: seq<nat>) {
    Increasing(chosen) && forall k :: 0 <= k < |chosen| ==> chosen[k] in ids
  }

  lemma SelectionGrows(chosen: seq<nat>, ids: seq<nat>, id: nat)
    requires Increasing(ids + [id]) && Selection(chosen, ids)
    ensures Selection(chosen, ids + [id]) && Selection(chosen + [id], ids + [id])
  {
    forall k | 0 <= k < |chosen| ensures chosen[k] in ids + [id] && chosen[k] < id {
      assert chosen[k] in ids;
      var j :| 0 <= j < |ids| && ids[j] == chosen[k];
      assert (ids + [id])[j] == ids[j] && (ids + [id])[|ids|] == id;
    }
  }

  /** Whatever others write, a round submits an increasing selection of the ids it scanned. */
  lemma {:induction false} RoundSubmitsScannedIds(job: Job, rows: Rows, ids: seq<nat>, turns: nat -> Turn)
    requires Increasing(ids)
    ensures Selection(RoundAfter(job, rows, ids, turns).submitted, ids)
  {
    if ids != [] {
      var k := |ids| - 1;
      RoundSubmitsScannedIds(job, rows, ids[..k], turns);
      assert ids == ids[..k] + [ids[k]];
      SelectionGrows(RoundAfter(job, rows, ids[..k], turns).submitted, ids[..k], ids[k]);
    }
  }

  /** What the job makes of the table when it is alone. */
  function RewrittenAll(job: Job, rows: Rows, ids: seq<nat>): Rows {
    map id | id in rows :: if id in ids then Rewritten(job, rows[id]) else rows[id]
  }

  lemma DueIdsOfPrefix(job: Job, rows: Rows, ids: seq<nat>, k: nat, now: int)
    requires Increasing(ids) && k == |ids| - 1
    requires forall id :: id in ids ==> id in rows && IsDue(job, rows[id], now)
    ensures Increasing(ids[..k]) && ids == ids[..k] + [ids[k]] && ids[k] !in ids[..k]
    ensures ids[k] in rows && IsDue(job, rows[ids[k]], now)
    ensures forall id :: id in ids[..k] ==> id in rows && IsDue(job, rows[id], now)
  {
    assert forall id :: id in ids[..k] ==> id in ids;
  }

  lemma CalmStepRewrites(job: Job, rows: Rows, ids: seq<nat>, id: nat, turn: Turn, now: int)
    requires IsCalm(turn, now) && id in rows && id !in ids
    requires IsDue(job, rows[id], now)
    ensures OneMore(job, Round(RewrittenAll(job, rows, ids), ids, false), id, turn) ==
            Round(RewrittenAll(job, rows, ids + [id]), ids + [id], false)
  {
    var before := RewrittenAll(job, rows, ids);
    assert turn.before(before) == before && before[id] == rows[id];
    assert RewrittenAll(job, rows, ids + [id]) == before[id := Rewritten(job, rows[id])];
  }

  /** When nobody interferes and the broker is up, a round over rows that satisfy the job's
      condition rewrites and submits exactly those. */
  lemma {:induction false} CalmRoundRewritesExactly(job: Job, rows: Rows, ids: seq<nat>, turns: nat -> Turn, now: int)
    requires Increasing(ids) && Calm(turns, now)
    requires forall id :: id in ids ==> id in rows && IsDue(job, rows[id], now)
    ensures RoundAfter(job, rows, ids, turns) == Round(RewrittenAll(job, rows, ids), ids, false)
  {
    if ids != [] {
      var k := |ids| - 1;
      DueIdsOfPrefix(job, rows, ids, k, now);
      CalmRoundRewritesExactly(job, rows, ids[..k], turns, now);
      assert IsCalm(turns(k), now);
      CalmStepRewrites(job, rows, ids[..k], ids[k], turns(k), now);
    }
  }

  /** What a round means: an increasing selection of the scanned ids is submitted; when nobody
      interferes and the broker is up, exactly the scanned rows are rewritten and submitted. */
  ghost predicate Meant(job: Job, rows: Rows, ids: seq<nat>, turns: nat -> Turn, now: int, r: Round) {
    && Increasing(ids) && Selection(r.submitted, ids)
    && (Calm(turns, now) ==> r == Round(RewrittenAll(job, rows, ids), ids, false))
  }

  lemma {:induction false} RoundMeaning(job: Job, rows: Rows, ids: seq<nat>, turns: nat -> Turn, now: int)
    requires Increasing(ids)
    requires forall id :: id in ids ==> id in rows && IsDue(job, rows[id], now)
    ensures Meant(job, rows, ids, turns, now, RoundAfter(job, rows, ids, turns))
  {
    RoundSubmitsScannedIds(job, rows, ids, turns);
    if Calm(turns, now) {
      CalmRoundRewritesExactly(job, rows, ids, turns, now);
    }
  }

  class Beat {
    var rows: Rows
    var deliveries: map<nat, seq<Delivery>>
    var broker: seq<nat>

    /** Queues every scheduled notification whose date has come. A failing submission aborts
        the loop and is not rolled back. */
    method DispatchScheduledNotifications(now: int, turns: nat -> Turn)
      returns (queuedCount: nat, raised: bool, ghost ids: seq<nat>)
      modifies this`rows, this`broker
      ensures Increasing(ids) && forall id :: id in ids <==> id in old(rows) && DueForDispatch(old(rows)[id], now)
      ensures old(broker) <= broker && queuedCount == |broker| - |old(broker)|
      ensures Round(rows, broker[|old(broker)|..], raised) == RoundAfter(Dispatching, old(rows), ids, turns)
      ensures Meant(Dispatching, old(rows), ids, turns, now, Round(rows, broker[|old(broker)|..], raised))
    {
      var scheduledIds := InOrder(set id | id in rows && DueForDispatch(rows[id], now));
      ids := scheduledIds;
      queuedCount, raised := 0, false;
      ghost var submitted: seq<nat> := [];
      for i := 0 to |scheduledIds|
        invariant broker == old(broker) + submitted && queuedCount == |submitted|
        invariant Round(rows, submitted, false) == RoundAfter(Dispatching, old(rows), ids[..i], turns)
      {
        RoundOfPrefix(Dispatching, old(rows), ids, turns, i);
        var id := scheduledIds[i];
        var turn := turns(i);
        rows := turn.before(rows);
        if turn.locked || id !in rows {
          continue;
        }
        if !rows[id].status.SCHEDULED? {
          continue;
        }
        if rows[id].scheduledFor.None? || rows[id].scheduledFor.value > turn.now {
          continue;
        }
        rows := rows[id := rows[id].(status := QUEUED)];
        if !turn.brokerUp {
          RaisedRoundIsOver(Dispatching, old(rows), ids, turns, i + 1);
          RoundMeaning(Dispatching, old(rows), ids, turns, now);
          assert broker[|old(broker)|..] == submitted;
          return queuedCount, true, ids;
        }
        broker := broker + [id];
        queuedCount := queuedCount + 1;
        submitted := submitted + [id];
      }
      assert broker[|old(broker)|..] == submitted;
      assert ids[..|ids|] == ids;
      RoundMeaning(Dispatching, old(rows), ids, turns, now);
    }

    /** Requeues every row that has been processing since before the cutoff and still is. */
    method RequeueStuckProcessingNotifications(now: int, turns: nat -> Turn)
      returns (requeuedCount: nat, raised: bool, ghost ids: seq<nat>)
      modifies this`rows, this`broker
      ensures Increasing(ids)
              && forall id :: id in ids <==> id in old(rows) && StuckSince(old(rows)[id], now - STUCK_AFTER)
      ensures old(broker) <= broker && requeuedCount == |broker| - |old(broker)|
      ensures Round(rows, broker[|old(broker)|..], raised) ==
              RoundAfter(Requeueing(now - STUCK_AFTER), old(rows), ids, turns)
      ensures Meant(Requeueing(now - STUCK_AFTER), old(rows), ids, turns, now,
                    Round(rows, broker[|old(broker)|..], raised))
    {
      var cutoff := now - STUCK_AFTER;
      var stuckIds := InOrder(set id | id in rows && StuckSince(rows[id], cutoff));
      ids := stuckIds;
      requeuedCount, raised := 0, false;
      ghost var submitted: seq<nat> := [];
      for i := 0 to |stuckIds|
        invariant broker == old(broker) + submitted && requeuedCount == |submitted|
        invariant Round(rows, submitted, false) == RoundAfter(Requeueing(cutoff), old(rows), ids[..i], turns)
      {
        RoundOfPrefix(Requeueing(cutoff), old(rows), ids, turns, i);
        var id := stuckIds[i];
        var turn := turns(i);
        rows := turn.before(rows);
        if id in rows && StuckSince(rows[id], cutoff) {
          rows := rows[id := Requeued(rows[id])];
          if !turn.brokerUp {
            RaisedRoundIsOver(Requeueing(cutoff), old(rows), ids, turns, i + 1);
            RoundMeaning(Requeueing(cutoff), old(rows), ids, turns, now);
            assert broker[|old(broker)|..] == submitted;
            return requeuedCount, true, ids;
          }
          broker := broker + [id];
          requeuedCount := requeuedCount + 1;
          submitted := submitted + [id];
        }
      }
      assert broker[|old(broker)|..] == submitted;
      assert ids[..|ids|] == ids;
      RoundMeaning(Requeueing(cutoff), old(rows), ids, turns, now);
    }

    /** Submits every notification that has a due delivery, once and in any order; writes no row. */
    method RetryPendingDeliveries(now: int, turns: nat -> Turn) returns (raised: bool)
      modifies this`broker
      ensures old(broker) <= broker && NoDuplicates(broker[|old(broker)|..])
      ensures forall id :: id in broker[|old(broker)|..] ==> id in deliveries && SomeDue(deliveries[id], now)
      ensures !raised ==>
                forall id :: id in deliveries && SomeDue(deliveries[id], now) ==> id in broker[|old(broker)|..]
      ensures raised <==> exists i :: 0 <= i < |DueIds(deliveries, now)| && !turns(i).brokerUp
    {
      var todo := DueIds(deliveries, now);
      var submitted: seq<nat> := [];
      raised := false;
      while todo != {}
        invariant broker == old(broker) + submitted && NoDuplicates(submitted)
        invariant forall id :: id in DueIds(deliveries, now) <==> id in submitted || id in todo
        invariant forall id :: id in submitted ==> id !in todo
        invariant |submitted| + |todo| == |DueIds(deliveries, now)|
        invariant forall i :: 0 <= i < |submitted| ==> turns(i).brokerUp
        decreases todo
      {
        var id :| id in todo;
        if !turns(|submitted|).brokerUp {
          assert broker[|old(broker)|..] == submitted;
          return true;
        }
        broker := broker + [id];
        submitted := submitted + [id];
        todo := todo - {id};
      }
      assert broker[|old(broker)|..] == submitted;
    }
  }

  function DueIds(deliveries: map<nat, seq<Delivery>>, now: int): set<nat> {
    set id | id in deliveries && SomeDue(deliveries[id], now)
  }

  predicate NoDuplicates(ids: seq<nat>) {
    forall i, j :: 0 <= i < j < |ids| ==> ids[i] != ids[j]
  }

  // ---------- The same steps in the protocol ----------

  /** The protocol's step for a job on one notification. */
  function StepOf(job: Job): Action {
    match job
    case Dispatching => Dispatch
    case Requeueing(cutoff) => Watchdog(cutoff)
  }

  /** Seen from any one notification, an iteration is what the others wrote before it,
      followed by the protocol's step if the iteration is this notification's and the step is
      enabled at that moment (and, for the dispatcher, the row unlocked), else by nothing. */
  lemma IterationIsAProtocolStep(job: Job, r: Round, id: nat, turn: Turn, other: nat, s: State)
    requires !r.raised && other in turn.before(r.rows)
    requires s.row == turn.before(r.rows)[other] && s.now == turn.now
    requires job.Requeueing? ==> job.cutoff <= turn.now - STUCK_AFTER
    ensures other in OneMore(job, r, id, turn).rows
    ensures OneMore(job, r, id, turn).rows[other] ==
            if other == id && (job.Dispatching? ==> !turn.locked) && Enabled(s, StepOf(job))
            then Apply(s, StepOf(job)).row else s.row
    ensures OneMore(job, r, id, turn).submitted ==
            if id in turn.before(r.rows) && Fires(job, turn.before(r.rows)[id], turn) && turn.brokerUp
            then r.submitted + [id] else r.submitted
  {
  }
}
