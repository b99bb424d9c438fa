/** The notification row and the status rules shared by every actor. */
module Notifications {
  import opened Options
  import opened Deliveries

  datatype NotificationStatus = DRAFT | SCHEDULED | QUEUED | PROCESSING | SENT | FAILED | PARTIAL | NO_TARGET

  datatype Row = Row(
    status: NotificationStatus,
    scheduledFor: Option<int>,
    processingStartedAt: Option<int>,
    sentAt: Option<int>
  )

  /** Statuses a worker may start from. */
  predicate Startable(s: NotificationStatus) {
    s.DRAFT? || s.QUEUED? || s.FAILED? || s.PARTIAL?
  }

  /** Statuses an API caller may queue from. */
  predicate Queueable(s: NotificationStatus) {
    s.DRAFT? || s.FAILED? || s.PARTIAL? || s.SCHEDULED?
  }

  /** The status of a row created with or without a requested date. */
  function InitialRow(scheduledFor: Option<int>): Row {
    Row(if scheduledFor.Some? then SCHEDULED else DRAFT, scheduledFor, None, None)
  }

  /** The five counters of a pass. */
  datatype Tally = Tally(sent: nat, failed: nat, skipped: nat, deferred: nat, waiting: nat)

  const ZERO_TALLY := Tally(0, 0, 0, 0, 0)

  /** Counts one more row. */
  function Counted(t: Tally, v: Verdict): Tally {
    match v
    case WasSent => t.(sent := t.sent + 1)
    case HasFailed => t.(failed := t.failed + 1)
    case WasSkipped => t.(skipped := t.skipped + 1)
    case WasDeferred => t.(deferred := t.deferred + 1)
    case IsWaiting => t.(waiting := t.waiting + 1)
  }

  function TallyOf(verdicts: seq<Verdict>): Tally {
    if verdicts == [] then ZERO_TALLY
    else Counted(TallyOf(verdicts[..|verdicts| - 1]), verdicts[|verdicts| - 1])
  }

  /** The status written at the end of a full pass. */
  function FinalStatus(t: Tally): NotificationStatus {
    var successful := t.sent + t.skipped;
    if t.deferred > 0 || t.waiting > 0 then PARTIAL
    else if t.failed == 0 && successful > 0 then SENT
    else if successful == 0 && t.failed > 0 then FAILED
    else PARTIAL
  }

  /** The row a full pass leaves behind. */
  function FinishedRow(row: Row, status: NotificationStatus, now: int): Row {
    row.(status := status, sentAt := if status.SENT? then Some(now) else None, processingStartedAt := None)
  }

  // ---------- What the final status says about the rows ----------

  function VerdictsFor(ds: seq<Delivery>, looks: seq<Look>): (vs: seq<Verdict>)
    requires |looks| == |ds|
    ensures |vs| == |ds|
    ensures forall i :: 0 <= i < |ds| ==> vs[i] == VerdictFor(ds[i], looks[i])
  {
    seq(|ds|, i requires 0 <= i < |ds| => VerdictFor(ds[i], looks[i]))
  }

  predicate Never(verdicts: seq<Verdict>, v: Verdict) {
    forall i :: 0 <= i < |verdicts| ==> verdicts[i] != v
  }

  /** The counters add up to the number of rows, and each is zero exactly when its verdict
      never occurred. */
  lemma {:induction false} TallyOfMeaning(verdicts: seq<Verdict>)
    ensures var t := TallyOf(verdicts);
            && t.sent + t.failed + t.skipped + t.deferred + t.waiting == |verdicts|
            && (t.sent == 0 <==> Never(verdicts, WasSent))
            && (t.failed == 0 <==> Never(verdicts, HasFailed))
            && (t.skipped == 0 <==> Never(verdicts, WasSkipped))
            && (t.deferred == 0 <==> Never(verdicts, WasDeferred))
            && (t.waiting == 0 <==> Never(verdicts, IsWaiting))
  {
    if verdicts != [] {
      var k := |verdicts| - 1;
      TallyOfMeaning(verdicts[..k]);
      forall v ensures Never(verdicts, v) <==> Never(verdicts[..k], v) && verdicts[k] != v {
        assert forall i :: 0 <= i < k ==> verdicts[..k][i] == verdicts[i];
      }
    }
  }

  predicate OnlySuccesses(verdicts: seq<Verdict>) {
    forall i :: 0 <= i < |verdicts| ==> verdicts[i] == WasSent || verdicts[i] == WasSkipped
  }

  predicate OnlyFailures(verdicts: seq<Verdict>) {
    forall i :: 0 <= i < |verdicts| ==> verdicts[i] == HasFailed
  }

  lemma SuccessesByElimination(verdicts: seq<Verdict>)
    ensures OnlySuccesses(verdicts) <==>
              Never(verdicts, HasFailed) && Never(verdicts, WasDeferred) && Never(verdicts, IsWaiting)
  {
  }

  lemma FailuresByElimination(verdicts: seq<Verdict>)
    ensures OnlyFailures(verdicts) <==>
              Never(verdicts, WasSent) && Never(verdicts, WasSkipped)
              && Never(verdicts, WasDeferred) && Never(verdicts, IsWaiting)
  {
  }

  lemma FinalStatusMeaning(verdicts: seq<Verdict>)
    requires verdicts != []
    ensures FinalStatus(TallyOf(verdicts)).SENT? <==> OnlySuccesses(verdicts)
    ensures FinalStatus(TallyOf(verdicts)).FAILED? <==> OnlyFailures(verdicts)
    ensures var s := FinalStatus(TallyOf(verdicts)); s.SENT? || s.FAILED? || s.PARTIAL?
  {
    TallyOfMeaning(verdicts);
    SuccessesByElimination(verdicts);
    FailuresByElimination(verdicts);
    assert |verdicts| > 0;
  }

  predicate AllSent(ds: seq<Delivery>) {
    forall i :: 0 <= i < |ds| ==> ds[i].status.Sent?
  }

  /** No row is sent, and none was put off to a later pass. */
  predicate AllFailed(ds: seq<Delivery>, verdicts: seq<Verdict>)
    requires |verdicts| == |ds|
  {
    forall i :: 0 <= i < |ds| ==> !ds[i].status.Sent? && verdicts[i] != WasDeferred && verdicts[i] != IsWaiting
  }

  lemma VerdictMatchesRow(d: Delivery, look: Look)
    ensures After(d, look).status.Sent? <==> VerdictFor(d, look) == WasSent || VerdictFor(d, look) == WasSkipped
    ensures VerdictFor(d, look) == HasFailed <==>
              !After(d, look).status.Sent? && VerdictFor(d, look) != WasDeferred && VerdictFor(d, look) != IsWaiting
  {
  }

  lemma {:induction false} VerdictsMatchRows(ds: seq<Delivery>, looks: seq<Look>)
    requires |looks| == |ds|
    ensures OnlySuccesses(VerdictsFor(ds, looks)) <==> AllSent(AfterPass(ds, looks))
    ensures OnlyFailures(VerdictsFor(ds, looks)) <==> AllFailed(AfterPass(ds, looks), VerdictsFor(ds, looks))
  {
    var vs, after := VerdictsFor(ds, looks), AfterPass(ds, looks);
    forall i | 0 <= i < |ds|
      ensures after[i].status.Sent? <==> vs[i] == WasSent || vs[i] == WasSkipped
      ensures vs[i] == HasFailed <==> !after[i].status.Sent? && vs[i] != WasDeferred && vs[i] != IsWaiting
    {
      VerdictMatchesRow(ds[i], looks[i]);
    }
  }

  /** After a full pass over at least one row: the five counters add up to the number of
      rows; the status is SENT exactly when every row is sent, FAILED exactly when no row is
      sent and none was deferred or left waiting, and PARTIAL in all other cases. */
  lemma {:induction false} PassStatusMeaning(ds: seq<Delivery>, looks: seq<Look>)
    requires ds != [] && |looks| == |ds|
    ensures var t := TallyOf(VerdictsFor(ds, looks));
            t.sent + t.failed + t.skipped + t.deferred + t.waiting == |ds|
    ensures FinalStatus(TallyOf(VerdictsFor(ds, looks))).SENT? <==> AllSent(AfterPass(ds, looks))
    ensures FinalStatus(TallyOf(VerdictsFor(ds, looks))).FAILED? <==>
              AllFailed(AfterPass(ds, looks), VerdictsFor(ds, looks))
    ensures var s := FinalStatus(TallyOf(VerdictsFor(ds, looks))); s.SENT? || s.FAILED? || s.PARTIAL?
  {
    var vs := VerdictsFor(ds, looks);
    TallyOfMeaning(vs);
    FinalStatusMeaning(vs);
    VerdictsMatchRows(ds, looks);
  }
}
