/** What queueing a notification means: which attempts pass their checks, and how an attempt
    is a path of the protocol. */
module QueueMeaning {
  import opened Options
  import opened Notifications
  import opened Protocol
  import opened QueueRequests

  /** The statuses and dates from which a notification may be sent by hand. */
  predicate MayBeSent(status: NotificationStatus, scheduledFor: Option<int>, now: int) {
    match status
    case DRAFT => true
    case FAILED => true
    case PARTIAL => true
    case SCHEDULED => scheduledFor.None? || scheduledFor.value <= now
    case _ => false
  }

  /** Exactly when one attempt queues, and what it answers otherwise. */
  lemma AttemptMeaning(n: LoadedNotification, status: NotificationStatus, rows: Rows, turn: Turn)
    ensures var a, seen := AttemptOf(n, status, rows, turn), turn.before(rows);
            var current := n.id in seen && seen[n.id].status == status;
            if !n.applicationActive then a == Attempt(Refused(n.id, ApplicationInactive), status, seen)
            else if !MayBeSent(status, n.scheduledFor, turn.now) || turn.updateFails || (n.id in seen && !current)
            then a == Attempt(Refused(n.id, NotSendable), status, seen)
            else if n.id !in seen then a == Attempt(Refused(n.id, NotFound), status, seen)
            else if turn.brokerUp then a == Attempt(Queued(n.id), QUEUED, seen[n.id := seen[n.id].(status := QUEUED)])
            else a.result == Refused(n.id, QueueUnavailable) && a.status == QUEUED
  {
  }

  /** The protocol state of one notification, as a newly arrived caller finds it. */
  predicate Meets(s: State, c: nat, n: LoadedNotification, status: NotificationStatus, rows: Rows, turn: Turn) {
    && n.id in turn.before(rows) && s.row == turn.before(rows)[n.id]
    && s.row.status == status && s.row.scheduledFor == n.scheduledFor
    && s.now == turn.now && c !in s.callers
    && n.applicationActive && !turn.updateFails
  }

  /** On an up-to-date row the attempt passes its checks exactly when the protocol lets a new
      caller read the row. */
  lemma ChecksAreTheReadGuard(
    s: State, c: nat, n: LoadedNotification, status: NotificationStatus, rows: Rows, turn: Turn)
    requires Meets(s, c, n, status, rows, turn)
    ensures AttemptOf(n, status, rows, turn).result != Refused(n.id, NotSendable) <==> Enabled(s, Read(c))
  {
  }

  /** The caller has read the row and won the update. */
  function Won(s: State, c: nat): State
    requires Enabled(s, Read(c))
  {
    Apply(Apply(s, Read(c)), Cas(c))
  }

  /** An attempt that passes its checks is the protocol's path: read, update and submit, or
      read, update, refused submission and, on the row as others left it, rollback. */
  lemma {:induction false} AttemptIsAProtocolPath(
    s: State, c: nat, n: LoadedNotification, status: NotificationStatus, rows: Rows, turn: Turn)
    requires Meets(s, c, n, status, rows, turn) && Enabled(s, Read(c))
    ensures Enabled(Won(s, c), Submit(c, turn.brokerUp))
    ensures var a, t := AttemptOf(n, status, rows, turn), Apply(Won(s, c), Submit(c, turn.brokerUp));
            && (turn.brokerUp ==> a.result == Queued(n.id) && t.broker == s.broker + 1
                                  && n.id in a.rows && a.rows[n.id] == t.row)
            && (!turn.brokerUp ==> a.result == Refused(n.id, QueueUnavailable) && t.broker == s.broker)
    ensures var queued := turn.before(rows)[n.id := Won(s, c).row];
            var later := turn.meanwhile(queued);
            !turn.brokerUp && n.id in later ==>
              var t := Apply(Won(s, c), Submit(c, false)).(row := later[n.id]);
              && Enabled(t, Rollback(c))
              && AttemptOf(n, status, rows, turn).rows == later[n.id := Apply(t, Rollback(c)).row]
  {
    assert Won(s, c).row == s.row.(status := QUEUED);
    var queued := turn.before(rows)[n.id := Won(s, c).row];
    if !turn.brokerUp && n.id in turn.meanwhile(queued) {
      var later := turn.meanwhile(queued);
      assert later[n.id := later[n.id]] == later;
    }
  }

  /** A notification scheduled for later is never queued by an attempt: nothing is written. */
  lemma FutureDateIsNotQueued(n: LoadedNotification, status: NotificationStatus, rows: Rows, turn: Turn)
    requires status.SCHEDULED? && n.scheduledFor.Some? && turn.now < n.scheduledFor.value
    ensures var a := AttemptOf(n, status, rows, turn);
            a.result.Refused? && a.status == SCHEDULED && a.rows == turn.before(rows)
  {
  }

  /** Nor by the bulk request, however often its id is listed. */
  lemma {:induction false} FutureDateIsNotQueuedInBulk(
    ids: seq<nat>, found: map<nat, LoadedNotification>, turns: seq<Turn>,
    statuses: map<nat, NotificationStatus>, rows: Rows, id: nat)
    requires |turns| == |ids| && statuses.Keys == found.Keys && forall k :: k in found ==> found[k].id == k
    requires id in found && statuses[id].SCHEDULED? && found[id].scheduledFor.Some?
    requires forall i :: 0 <= i < |turns| ==> turns[i].now < found[id].scheduledFor.value
    ensures var b := BulkAfter(ids, found, turns, statuses, rows);
            id !in b.queued && b.statuses[id].SCHEDULED?
  {
    if ids != [] {
      var k := |ids| - 1;
      FutureDateIsNotQueuedInBulk(ids[..k], found, turns[..k], statuses, rows, id);
      var b := BulkAfter(ids[..k], found, turns[..k], statuses, rows);
      AnswerIsReply(ids[k], found, turns[k], b.statuses, b.rows);
      if ids[k] == id {
        FutureDateIsNotQueued(found[id], b.statuses[id], b.rows, turns[k]);
      }
    }
  }

  /** When nobody interferes and nothing fails, the bulk request queues exactly these. */
  lemma CalmBulkQueues(
    ids: seq<nat>, found: map<nat, LoadedNotification>, turns: seq<Turn>,
    statuses: map<nat, NotificationStatus>, rows: Rows, now: int, id: nat)
    requires |turns| == |ids| && statuses.Keys == found.Keys && forall k :: k in found ==> found[k].id == k
    requires Calm(turns, now)
    ensures id in BulkAfter(ids, found, turns, statuses, rows).queued <==>
              && id in ids && id in found && found[id].applicationActive
              && MayBeSent(statuses[id], found[id].scheduledFor, now)
              && id in rows && rows[id].status == statuses[id]
  {
    BulkIsCalm(ids, found, turns, statuses, rows, now);
  }
}
