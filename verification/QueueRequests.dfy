/** Queueing requests of API callers: the conditional update with its rollback, the bulk
    request, and races between callers. */
module QueueRequests {
  import opened Options
  import opened Notifications
  import opened Protocol
  import opened ProtocolSafety

  datatype Refusal = ApplicationInactive | NotSendable | NotFound | QueueUnavailable

  datatype QueueResult = Queued(id: nat) | Refused(id: nat, code: Refusal)

  /** A notification as one request loaded it; only its status is updated in memory. */
  class LoadedNotification {
    const id: nat
    const applicationActive: bool
    const scheduledFor: Option<int>
    var status: NotificationStatus

    constructor (id: nat, applicationActive: bool, scheduledFor: Option<int>, status: NotificationStatus)
      ensures this.id == id && this.applicationActive == applicationActive
      ensures this.scheduledFor == scheduledFor && this.status == status
    {
      this.id := id;
      this.applicationActive := applicationActive;
      this.scheduledFor := scheduledFor;
      this.status := status;
    }
  }

  type Rows = map<nat, Row>

  /** What other actors and the infrastructure do around one attempt: writes before it, the
      fate of the update, the fate of the submission, writes before the rollback. */
  datatype Turn = Turn(
    now: int,
    before: Rows -> Rows,
    updateFails: bool,
    brokerUp: bool,
    meanwhile: Rows -> Rows
  )

  /** The checks on the loaded notification. */
  predicate Sendable(status: NotificationStatus, scheduledFor: Option<int>, now: int) {
    && !(status.SCHEDULED? && scheduledFor.Some? && scheduledFor.value > now)
    && Queueable(status)
  }

  predicate WinsUpdate(rows: Rows, id: nat, status: NotificationStatus, turn: Turn) {
    !turn.updateFails && id in rows && rows[id].status == status
  }

  /** Nobody interferes with the request and nothing fails. */
  ghost predicate Calm(turns: seq<Turn>, now: int) {
    forall i :: 0 <= i < |turns| ==> IsCalm(turns[i], now)
  }

  ghost predicate IsCalm(turn: Turn, now: int) {
    && turn.now == now && !turn.updateFails && turn.brokerUp
    && forall rows: Rows :: turn.before(rows) == rows
  }

  /** A loaded notification, with the status it was loaded with, is sendable and up to date. */
  predicate Admissible(n: LoadedNotification, loadedStatus: NotificationStatus, rows: Rows, now: int) {
    n.applicationActive && Sendable(loadedStatus, n.scheduledFor, now)
    && n.id in rows && rows[n.id].status == loadedStatus
  }

  ghost function StatusesOf(found: map<nat, LoadedNotification>): map<nat, NotificationStatus>
    reads found.Values`status
  {
    map id | id in found :: found[id].status
  }

  /** The conditional update back to the previous status. */
  function RolledBack(rows: Rows, id: nat, prev: NotificationStatus): Rows {
    if id in rows && rows[id].status.QUEUED? then rows[id := rows[id].(status := prev)] else rows
  }

  /** The answer of one attempt, the loaded status and the rows after it. */
  datatype Attempt = Attempt(result: QueueResult, status: NotificationStatus, rows: Rows)

  function AttemptOf(n: LoadedNotification, status: NotificationStatus, rows: Rows, turn: Turn): Attempt {
    var seen := turn.before(rows);
    if !n.applicationActive then Attempt(Refused(n.id, ApplicationInactive), status, seen)
    else if !Sendable(status, n.scheduledFor, turn.now) || turn.updateFails
    then Attempt(Refused(n.id, NotSendable), status, seen)
    else if n.id !in seen then Attempt(Refused(n.id, NotFound), status, seen)
    else if seen[n.id].status != status then Attempt(Refused(n.id, NotSendable), status, seen)
    else
      var queued := seen[n.id := seen[n.id].(status := QUEUED)];
      if turn.brokerUp then Attempt(Queued(n.id), QUEUED, queued)
      else Attempt(Refused(n.id, QueueUnavailable), QUEUED, RolledBack(turn.meanwhile(queued), n.id, status))
  }

  class Backend {
    var rows: Rows
    var broker: seq<nat>

    method TryQueueNotification(n: LoadedNotification, turn: Turn) returns (r: QueueResult)
      modifies this, n`status
      ensures r.id == n.id
      ensures r.Queued? <==>
                && n.applicationActive && Sendable(old(n.status), n.scheduledFor, turn.now)
                && WinsUpdate(turn.before(old(rows)), n.id, old(n.status), turn) && turn.brokerUp
      ensures broker == if r.Queued? then old(broker) + [n.id] else old(broker)
      ensures n.status == if r.Queued? || r == Refused(n.id, QueueUnavailable) then QUEUED else old(n.status)
      ensures var seen := turn.before(old(rows));
              rows == if r.Queued? then seen[n.id := seen[n.id].(status := QUEUED)]
                      else if r == Refused(n.id, QueueUnavailable) && n.id in seen
                      then RolledBack(turn.meanwhile(seen[n.id := seen[n.id].(status := QUEUED)]), n.id, old(n.status))
                      else seen
      ensures r == Refused(n.id, ApplicationInactive) <==> !n.applicationActive
      ensures r == Refused(n.id, NotFound) <==>
                && n.applicationActive && Sendable(old(n.status), n.scheduledFor, turn.now)
                && !turn.updateFails && n.id !in turn.before(old(rows))
      ensures r == Refused(n.id, QueueUnavailable) <==>
                && n.applicationActive && Sendable(old(n.status), n.scheduledFor, turn.now)
                && WinsUpdate(turn.before(old(rows)), n.id, old(n.status), turn) && !turn.brokerUp
      ensures AttemptOf(n, old(n.status), old(rows), turn) == Attempt(r, n.status, rows)
    {
      rows := turn.before(rows);
      if !n.applicationActive {
        return Refused(n.id, ApplicationInactive);
      }
      if n.status.SCHEDULED? && n.scheduledFor.Some? && n.scheduledFor.value > turn.now {
        return Refused(n.id, NotSendable);
      }
      if !Queueable(n.status) {
        return Refused(n.id, NotSendable);
      }
      var previousStatus := n.status;
      if turn.updateFails {
        return Refused(n.id, NotSendable);
      }
      if n.id !in rows {
        return Refused(n.id, NotFound);
      }
      if rows[n.id].status != previousStatus {
        return Refused(n.id, NotSendable);
      }
      rows := rows[n.id := rows[n.id].(status := QUEUED)];
      n.status := QUEUED;
      if !turn.brokerUp {
        rows := turn.meanwhile(rows);
        if n.id in rows && rows[n.id].status.QUEUED? {
          rows := rows[n.id := rows[n.id].(status := previousStatus)];
        }
        return Refused(n.id, QueueUnavailable);
      }
      broker := broker + [n.id];
      return Queued(n.id);
    }

    /** One iteration of the bulk request, which extends one of its two lists. */
    method AnswerOne(queued: seq<nat>, errors: seq<QueueResult>, id: nat,
                     found: map<nat, LoadedNotification>, turn: Turn)
      returns (queued': seq<nat>, errors': seq<QueueResult>)
      requires forall k :: k in found ==> found[k].id == k
      modifies this, found.Values`status
      ensures Bulk(queued', errors', StatusesOf(found), rows) ==
              OneMore(Bulk(queued, errors, old(StatusesOf(found)), old(rows)),
                      AnswerTo(id, found, turn, old(StatusesOf(found)), old(rows)))
      ensures queued <= queued' && broker == old(broker) + queued'[|queued|..]
    {
      if id !in found {
        return queued, errors + [Refused(id, NotFound)];
      }
      var r := TryQueueNotification(found[id], turn);
      assert StatusesOf(found) == old(StatusesOf(found))[id := found[id].status];
      if r.Queued? {
        return queued + [r.id], errors;
      }
      return queued, errors + [r];
    }

    /** The bulk request, whatever the other actors write between the attempts. */
    method BulkSend(ids: seq<nat>, found: map<nat, LoadedNotification>, turns: seq<Turn>)
      returns (queued: seq<nat>, errors: seq<QueueResult>)
      requires |turns| == |ids|
      requires forall id :: id in found ==> found[id].id == id
      modifies this, found.Values`status
      ensures Bulk(queued, errors, StatusesOf(found), rows) ==
              BulkAfter(ids, found, turns, old(StatusesOf(found)), old(rows))
      ensures broker == old(broker) + queued
    {
      queued, errors := [], [];
      ghost var loaded, rows0 := StatusesOf(found), rows;
      ghost var b := Bulk([], [], loaded, rows);
      for i := 0 to |ids|
        invariant broker == old(broker) + queued
        invariant b == Bulk(queued, errors, StatusesOf(found), rows)
        invariant Reached(i, b, ids, found, turns, loaded, rows0)
      {
        ReachedNext(i, b, ids, found, turns, loaded, rows0);
        b := OneMore(b, AnswerTo(ids[i], found, turns[i], b.statuses, b.rows));
        queued, errors := AnswerOne(queued, errors, ids[i], found, turns[i]);
      }
      assert ids[..|ids|] == ids && turns[..|ids|] == turns;
    }
  }

  // ---------- The bulk request ----------

  datatype Reply = Reply(result: QueueResult, statuses: map<nat, NotificationStatus>, rows: Rows)

  function AnswerTo(id: nat, found: map<nat, LoadedNotification>, turn: Turn,
                    statuses: map<nat, NotificationStatus>, rows: Rows): (r: Reply)
    requires statuses.Keys == found.Keys
    ensures r.statuses.Keys == found.Keys
  {
    if id !in found then Reply(Refused(id, NotFound), statuses, rows)
    else
      var a := AttemptOf(found[id], statuses[id], rows, turn);
      Reply(a.result, statuses[id := a.status], a.rows)
  }

  /** The two answer lists so far, the loaded statuses and the rows. */
  datatype Bulk = Bulk(queued: seq<nat>, errors: seq<QueueResult>, statuses: map<nat, NotificationStatus>, rows: Rows)

  function OneMore(b: Bulk, a: Reply): Bulk {
    if a.result.Queued? then Bulk(b.queued + [a.result.id], b.errors, a.statuses, a.rows)
    else Bulk(b.queued, b.errors + [a.result], a.statuses, a.rows)
  }

  function BulkAfter(ids: seq<nat>, found: map<nat, LoadedNotification>, turns: seq<Turn>,
                     statuses: map<nat, NotificationStatus>, rows: Rows): (b: Bulk)
    requires |turns| == |ids| && statuses.Keys == found.Keys
    ensures b.statuses.Keys == found.Keys
  {
    if ids == [] then Bulk([], [], statuses, rows)
    else
      var k := |ids| - 1;
      var b := BulkAfter(ids[..k], found, turns[..k], statuses, rows);
      OneMore(b, AnswerTo(ids[k], found, turns[k], b.statuses, b.rows))
  }

  /** The loop has answered the first i ids. */
  ghost predicate Reached(i: nat, b: Bulk, ids: seq<nat>, found: map<nat, LoadedNotification>, turns: seq<Turn>,
                          statuses: map<nat, NotificationStatus>, rows: Rows)
    requires |turns| == |ids| && statuses.Keys == found.Keys
  {
    i <= |ids| && b == BulkAfter(ids[..i], found, turns[..i], statuses, rows)
  }

  lemma ReachedNext(i: nat, b: Bulk, ids: seq<nat>, found: map<nat, LoadedNotification>, turns: seq<Turn>,
                    statuses: map<nat, NotificationStatus>, rows: Rows)
    requires |turns| == |ids| && statuses.Keys == b.statuses.Keys == found.Keys && i < |ids|
    requires Reached(i, b, ids, found, turns, statuses, rows)
    ensures Reached(i + 1, OneMore(b, AnswerTo(ids[i], found, turns[i], b.statuses, b.rows)),
                    ids, found, turns, statuses, rows)
  {
    assert ids[..i + 1][..i] == ids[..i] && turns[..i + 1][..i] == turns[..i];
  }

  /** The ids, in order, shared out between two lists that keep their order. */
  ghost predicate Interleaves(ids: seq<nat>, a: seq<nat>, b: seq<nat>) {
    if ids == [] then a == b == []
    else
      var k := |ids| - 1;
      || (a != [] && a[|a| - 1] == ids[k] && Interleaves(ids[..k], a[..|a| - 1], b))
      || (b != [] && b[|b| - 1] == ids[k] && Interleaves(ids[..k], a, b[..|b| - 1]))
  }

  lemma InterleavesOneMore(ids: seq<nat>, a: seq<nat>, b: seq<nat>, id: nat)
    requires Interleaves(ids, a, b)
    ensures Interleaves(ids + [id], a + [id], b) && Interleaves(ids + [id], a, b + [id])
  {
    assert (ids + [id])[..|ids|] == ids && (a + [id])[..|a|] == a && (b + [id])[..|b|] == b;
  }

  lemma {:induction false} InterleavingPartitions(ids: seq<nat>, a: seq<nat>, b: seq<nat>)
    requires Interleaves(ids, a, b)
    ensures multiset(ids) == multiset(a) + multiset(b)
    decreases |ids|
  {
    if ids != [] {
      var k := |ids| - 1;
      assert ids == ids[..k] + [ids[k]];
      if a != [] && a[|a| - 1] == ids[k] && Interleaves(ids[..k], a[..|a| - 1], b) {
        InterleavingPartitions(ids[..k], a[..|a| - 1], b);
        assert a == a[..|a| - 1] + [ids[k]];
      } else {
        InterleavingPartitions(ids[..k], a, b[..|b| - 1]);
        assert b == b[..|b| - 1] + [ids[k]];
      }
    }
  }

  /** A notification is queued only from a status that may be queued, and then no more. */
  ghost predicate IsReply(r: Reply, id: nat, found: map<nat, LoadedNotification>,
                          statuses: map<nat, NotificationStatus>)
    requires r.statuses.Keys == statuses.Keys == found.Keys
  {
    && r.result.id == id
    && (r.result.Queued? ==> id in found && !statuses[id].QUEUED? && r.statuses[id].QUEUED?)
    && (r.result.Refused? && id !in found ==> r.result.code == NotFound)
    && (forall k :: k in found && statuses[k].QUEUED? ==> r.statuses[k].QUEUED?)
  }

  lemma AnswerIsReply(id: nat, found: map<nat, LoadedNotification>, turn: Turn,
                      statuses: map<nat, NotificationStatus>, rows: Rows)
    requires statuses.Keys == found.Keys && forall k :: k in found ==> found[k].id == k
    ensures IsReply(AnswerTo(id, found, turn, statuses, rows), id, found, statuses)
  {
  }

  lemma OneMoreInterleaves(ids: seq<nat>, b: Bulk, r: Reply)
    requires Interleaves(ids, b.queued, IdsOf(b.errors))
    ensures Interleaves(ids + [r.result.id], OneMore(b, r).queued, IdsOf(OneMore(b, r).errors))
  {
    InterleavesOneMore(ids, b.queued, IdsOf(b.errors), r.result.id);
    assert IdsOf(b.errors + [r.result]) == IdsOf(b.errors) + [r.result.id];
  }

  /** No id is queued twice, and what was not found is reported so. */
  ghost predicate ListsSound(b: Bulk, found: map<nat, LoadedNotification>)
    requires b.statuses.Keys == found.Keys
  {
    && Distinct(b.queued) && (forall id :: id in b.queued ==> id in found && b.statuses[id].QUEUED?)
    && (forall i :: 0 <= i < |b.errors| ==> b.errors[i].Refused?)
    && (forall i :: 0 <= i < |b.errors| && b.errors[i].id !in found ==> b.errors[i].code == NotFound)
  }

  lemma OneMoreIsSound(b: Bulk, found: map<nat, LoadedNotification>, id: nat, r: Reply)
    requires b.statuses.Keys == r.statuses.Keys == found.Keys
    requires ListsSound(b, found) && IsReply(r, id, found, b.statuses)
    ensures ListsSound(OneMore(b, r), found)
  {
    assert r.result.Queued? ==> id !in b.queued;
  }

  /** The two lists share the ids out in their order, and no id is queued twice. */
  ghost predicate InFull(ids: seq<nat>, b: Bulk, found: map<nat, LoadedNotification>)
    requires b.statuses.Keys == found.Keys
  {
    Interleaves(ids, b.queued, IdsOf(b.errors)) && ListsSound(b, found)
  }

  lemma OneMoreInFull(ids: seq<nat>, b: Bulk, found: map<nat, LoadedNotification>, id: nat, turn: Turn)
    requires b.statuses.Keys == found.Keys && forall k :: k in found ==> found[k].id == k
    requires InFull(ids, b, found)
    ensures InFull(ids + [id], OneMore(b, AnswerTo(id, found, turn, b.statuses, b.rows)), found)
  {
    var r := AnswerTo(id, found, turn, b.statuses, b.rows);
    AnswerIsReply(id, found, turn, b.statuses, b.rows);
    OneMoreInterleaves(ids, b, r);
    OneMoreIsSound(b, found, id, r);
  }

  /** Whatever the other actors write between the attempts: the two lists share the ids out
      in their order, and no id is queued twice. */
  lemma {:induction false} BulkAnswersInFull(ids: seq<nat>, found: map<nat, LoadedNotification>, turns: seq<Turn>,
                                             statuses: map<nat, NotificationStatus>, rows: Rows)
    requires |turns| == |ids| && statuses.Keys == found.Keys && forall k :: k in found ==> found[k].id == k
    ensures InFull(ids, BulkAfter(ids, found, turns, statuses, rows), found)
  {
    if ids != [] {
      var k := |ids| - 1;
      BulkAnswersInFull(ids[..k], found, turns[..k], statuses, rows);
      OneMoreInFull(ids[..k], BulkAfter(ids[..k], found, turns[..k], statuses, rows), found, ids[k], turns[k]);
      assert ids == ids[..k] + [ids[k]];
    }
  }

  /** So the ids are partitioned into queued ones and errors. */
  lemma BulkPartitions(ids: seq<nat>, found: map<nat, LoadedNotification>, turns: seq<Turn>,
                       statuses: map<nat, NotificationStatus>, rows: Rows)
    requires |turns| == |ids| && statuses.Keys == found.Keys && forall k :: k in found ==> found[k].id == k
    ensures var b := BulkAfter(ids, found, turns, statuses, rows);
            multiset(ids) == multiset(b.queued) + multiset(IdsOf(b.errors))
  {
    BulkAnswersInFull(ids, found, turns, statuses, rows);
    var b := BulkAfter(ids, found, turns, statuses, rows);
    InterleavingPartitions(ids, b.queued, IdsOf(b.errors));
  }

  /** What a calm bulk request makes of the rows and of the loaded statuses: exactly the
      admissible notifications among the ids are queued, everything else is as before. */
  ghost predicate AnsweredCalmly(ids: seq<nat>, queued: seq<nat>, found: map<nat, LoadedNotification>,
                                 loaded: map<nat, NotificationStatus>, rows0: Rows,
                                 statuses: map<nat, NotificationStatus>, rows: Rows, now: int)
    requires loaded.Keys == statuses.Keys == found.Keys
  {
    && (forall id :: id in queued <==>
          id in ids && id in found && Admissible(found[id], loaded[id], rows0, now))
    && rows == (map id | id in rows0 :: if id in queued then rows0[id].(status := QUEUED) else rows0[id])
    && statuses == (map id | id in loaded :: if id in queued then QUEUED else loaded[id])
  }

  lemma OneMoreIsCalm(ids: seq<nat>, b: Bulk, found: map<nat, LoadedNotification>,
                      loaded: map<nat, NotificationStatus>, rows0: Rows, now: int, id: nat, turn: Turn)
    requires b.statuses.Keys == loaded.Keys == found.Keys && IsCalm(turn, now)
             && forall k :: k in found ==> found[k].id == k
    requires AnsweredCalmly(ids, b.queued, found, loaded, rows0, b.statuses, b.rows, now)
    ensures var r := OneMore(b, AnswerTo(id, found, turn, b.statuses, b.rows));
            AnsweredCalmly(ids + [id], r.queued, found, loaded, rows0, r.statuses, r.rows, now)
  {
    var a := AnswerTo(id, found, turn, b.statuses, b.rows);
    assert a.result.Queued? <==> id in found && Admissible(found[id], b.statuses[id], b.rows, now);
    if a.result.Queued? {
      assert a.statuses == b.statuses[id := QUEUED] && a.rows == b.rows[id := b.rows[id].(status := QUEUED)];
    } else {
      assert a.statuses == b.statuses && a.rows == b.rows;
    }
  }

  /** When nobody interferes and nothing fails, exactly the admissible notifications are queued. */
  lemma {:induction false} BulkIsCalm(ids: seq<nat>, found: map<nat, LoadedNotification>, turns: seq<Turn>,
                                      statuses: map<nat, NotificationStatus>, rows: Rows, now: int)
    requires |turns| == |ids| && statuses.Keys == found.Keys && forall k :: k in found ==> found[k].id == k
    requires Calm(turns, now)
    ensures var b := BulkAfter(ids, found, turns, statuses, rows);
            AnsweredCalmly(ids, b.queued, found, statuses, rows, b.statuses, b.rows, now)
  {
    if ids != [] {
      var k := |ids| - 1;
      BulkIsCalm(ids[..k], found, turns[..k], statuses, rows, now);
      OneMoreIsCalm(ids[..k], BulkAfter(ids[..k], found, turns[..k], statuses, rows), found, statuses, rows, now,
                    ids[k], turns[k]);
      assert ids == ids[..k] + [ids[k]];
    }
  }

  function IdsOf(results: seq<QueueResult>): (ids: seq<nat>)
    ensures |ids| == |results|
    ensures forall i :: 0 <= i < |results| ==> ids[i] == results[i].id
  {
    seq(|results|, i requires 0 <= i < |results| => results[i].id)
  }

  // ---------- Races between callers ----------

  /** Runs the conditional updates of the given callers in the given order. */
  ghost predicate Race(s: State, order: seq<nat>, t: State)
    decreases |order|
  {
    if order == [] then t == s
    else Enabled(s, Cas(order[0])) && Race(Apply(s, Cas(order[0])), order[1..], t)
  }

  /** All the callers of the race have read the same status, the current one. */
  predicate AllRead(s: State, order: seq<nat>, status: NotificationStatus) {
    forall i :: 0 <= i < |order| ==> order[i] in s.callers && s.callers[order[i]] == Checked(status)
  }

  predicate Distinct(order: seq<nat>) {
    forall i, j :: 0 <= i < j < |order| ==> order[i] != order[j]
  }

  lemma {:induction false} LosersLeave(s: State, order: seq<nat>, status: NotificationStatus, t: State)
    requires AllRead(s, order, status) && Distinct(order) && !status.QUEUED?
    requires s.row.status.QUEUED? && Race(s, order, t)
    ensures t.callers == s.callers - (set c | c in order)
    ensures t.row == s.row && t.broker == s.broker && t.submitted == s.submitted
    decreases |order|
  {
    if order != [] {
      var s1 := Apply(s, Cas(order[0]));
      assert s1 == WithoutCaller(s, order[0]);
      assert AllRead(s1, order[1..], status);
      LosersLeave(s1, order[1..], status, t);
      assert order == [order[0]] + order[1..];
      assert (set c | c in order) == {order[0]} + (set c | c in order[1..]);
    }
  }

  /** Of any callers racing from the same status, in any order and with no other step in
      between, exactly the first wins; the others are gone without submitting anything. */
  lemma {:induction false} ExactlyOneCallerWins(s: State, order: seq<nat>, status: NotificationStatus, t: State)
    requires order != [] && AllRead(s, order, status) && Distinct(order) && Queueable(status)
    requires s.row.status == status && Race(s, order, t)
    ensures t.row == s.row.(status := QUEUED)
    ensures t.callers == (s.callers - (set c | c in order))[order[0] := Submitting(status)]
    ensures t.broker == s.broker && t.submitted == s.submitted
  {
    var s1 := Apply(s, Cas(order[0]));
    assert AllRead(s1, order[1..], status);
    LosersLeave(s1, order[1..], status, t);
    assert order == [order[0]] + order[1..];
    assert (set c | c in order) == {order[0]} + (set c | c in order[1..]);
    assert order[0] !in order[1..];
    assert s1.callers - (set c | c in order[1..]) ==
           (s.callers - (set c | c in order))[order[0] := Submitting(status)];
  }

  predicate CallerStep(a: Action) {
    a.Read? || a.Cas? || a.Submit? || a.Rollback?
  }

  /** Callers that hold the queued row: they must submit or roll back. */
  ghost predicate Holds(s: State, c: nat) {
    c in s.callers && !s.callers[c].Checked?
  }

  /** While callers only are at work: a queued row has either one task in the broker or one
      caller in charge of it, never both and never two; any other row has neither. */
  ghost predicate OneTaskAtMost(s: State) {
    && (forall c :: c in s.callers ==> Queueable(s.callers[c].prev))
    && s.submitted <= 1
    && (!s.row.status.QUEUED? ==> s.submitted == 0 && forall c :: !Holds(s, c))
    && (s.row.status.QUEUED? && s.submitted == 1 ==> forall c :: !Holds(s, c))
    && (s.row.status.QUEUED? && s.submitted == 0 ==> exists c :: Holds(s, c))
    && (forall c, d :: Holds(s, c) && Holds(s, d) ==> c == d)
  }

  lemma CallerStepKeepsOneTask(s: State, a: Action)
    requires OneTaskAtMost(s) && Enabled(s, a) && CallerStep(a)
    ensures OneTaskAtMost(Apply(s, a))
  {
    var t := Apply(s, a);
    match a
    case Read(c) =>
      assert forall d :: Holds(t, d) <==> Holds(s, d);
    case Cas(c) =>
      if s.row.status == s.callers[c].prev {
        assert Holds(t, c) && forall d :: Holds(t, d) ==> d == c || Holds(s, d);
      } else {
        assert forall d :: Holds(t, d) <==> Holds(s, d);
      }
    case Submit(c, ok) =>
      assert Holds(s, c) && forall d :: Holds(t, d) ==> Holds(s, d) && (ok ==> d != c);
      assert !ok ==> Holds(t, c);
    case Rollback(c) =>
      assert Holds(s, c) && forall d :: Holds(t, d) ==> Holds(s, d) && d != c;
  }

  /** However many callers read, race, submit, fail and roll back, at most one task reaches
      the broker; and if the row ends up queued with nobody in charge, exactly one did. */
  lemma {:induction false} CallersSubmitAtMostOneTask(ss: seq<State>, acts: seq<Action>, i: nat)
    requires |ss| == |acts| + 1 && Steps(ss, acts) && i < |ss|
    requires forall k :: 0 <= k < |acts| ==> CallerStep(acts[k])
    requires ss[0].callers == map[] && ss[0].submitted == 0 && !ss[0].row.status.QUEUED?
    ensures OneTaskAtMost(ss[i])
    ensures ss[i].broker == ss[0].broker + ss[i].submitted
  {
    if i > 0 {
      CallersSubmitAtMostOneTask(ss, acts, i - 1);
      CallerStepKeepsOneTask(ss[i - 1], acts[i - 1]);
    }
  }

  /** The only ways a caller changes the row: its update takes the status it has read to
      QUEUED, or its rollback takes a queued row back to a status that may be queued. So it
      never touches a PROCESSING row, nor the result of a run unless it had read that status. */
  lemma {:induction false} CallersRespectOthersWrites(ss: seq<State>, acts: seq<Action>, i: nat)
    requires Behaviour(ss, acts) && i < |acts| && (CallerStep(acts[i]) || acts[i].CallerCrash?)
    ensures var (r, r') := (ss[i].row, ss[i + 1].row);
            && (r.status.PROCESSING? || r.status.SENT? || r.status.NO_TARGET? ==> r' == r)
            && (r' != r ==> r' == r.(status := r'.status)
                            && ((acts[i].Cas? && Queueable(r.status) && r'.status.QUEUED?)
                                || (acts[i].Rollback? && r.status.QUEUED? && Queueable(r'.status))))
  {
    SafetyInvariants(ss, acts, i);
  }

  /** The row is queued, and the caller that queued it still holds the status it replaced. */
  predicate Awaits(s: State, c: nat, replaced: NotificationStatus) {
    s.row.status.QUEUED? && (c in s.callers ==> !s.callers[c].Checked? && s.callers[c].prev == replaced)
  }

  lemma AwaitsStep(s: State, a: Action, c: nat, replaced: NotificationStatus)
    requires Awaits(s, c, replaced) && Enabled(s, a) && Apply(s, a).row.status.QUEUED?
    ensures Awaits(Apply(s, a), c, replaced)
  {
    if !CallerStep(a) && !a.CallerCrash? {
      assert Apply(s, a).callers == s.callers;
    }
  }

  ghost predicate AwaitsKept(s: State, t: State, c: nat, replaced: NotificationStatus) {
    Awaits(s, c, replaced) && t.row.status.QUEUED? ==> Awaits(t, c, replaced)
  }

  lemma {:induction false} AwaitsThroughout(ss: seq<State>, i: nat, j: nat, c: nat, replaced: NotificationStatus)
    requires i <= j < |ss| && Awaits(ss[i], c, replaced)
    requires forall m :: i <= m < j ==> AwaitsKept(ss[m], ss[m + 1], c, replaced)
    requires forall m :: i <= m <= j ==> ss[m].row.status.QUEUED?
    ensures Awaits(ss[j], c, replaced)
    decreases j
  {
    if i < j {
      AwaitsThroughout(ss, i, j - 1, c, replaced);
      assert AwaitsKept(ss[j - 1], ss[j - 1 + 1], c, replaced);
    }
  }

  /** A rollback that nobody's write preceded restores exactly the row its own update replaced. */
  lemma UndisturbedRollbackRestores(ss: seq<State>, acts: seq<Action>, i: nat, j: nat, c: nat)
    requires Behaviour(ss, acts) && i < j < |acts| && acts[i] == Cas(c) && acts[j] == Rollback(c)
    requires ss[i].row.status == ss[i].callers[c].prev
    requires forall k :: i < k <= j ==> ss[k].row == ss[i + 1].row
    ensures ss[j + 1].row == ss[i].row
  {
    var replaced := ss[i].row.status;
    forall m | i + 1 <= m < j ensures AwaitsKept(ss[m], ss[m + 1], c, replaced) {
      if Awaits(ss[m], c, replaced) && ss[m + 1].row.status.QUEUED? {
        AwaitsStep(ss[m], acts[m], c, replaced);
      }
    }
    AwaitsThroughout(ss, i + 1, j, c, replaced);
  }
}
