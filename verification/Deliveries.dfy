/** Delivery rows: what one pass over a notification does to each of them. */
module Deliveries {
  import opened Options
  import opened QuietPeriods

  const MAX_DELIVERY_ATTEMPTS: nat := 3
  const MINUTE: int := 60_000_000

  datatype DeliveryStatus = Pending | Sent | Failed

  /** One row per (notification, device). */
  datatype Delivery = Delivery(
    device: nat,
    status: DeliveryStatus,
    attempts: nat,
    nextRetryAt: Option<int>,
    lastAttemptAt: Option<int>,
    sentAt: Option<int>
  )

  datatype CancelReason = ApplicationInactive | DeviceUnlinked | PushTokenInactive | SubscriptionRequired

  /** What the push provider answers. */
  datatype Outcome = Accepted | InvalidToken | TemporaryError | OtherError

  datatype Device = Device(tokenActive: bool, isActive: bool, failureCount: nat, quietPeriods: seq<QuietPeriod>)

  function NewDelivery(device: nat): Delivery {
    Delivery(device, Pending, 0, None, None, None)
  }

  function CanRetry(d: Delivery): bool {
    !d.status.Sent? && d.attempts < MAX_DELIVERY_ATTEMPTS
  }

  function ShouldWait(d: Delivery, now: int): bool {
    d.nextRetryAt.Some? && d.nextRetryAt.value > now
  }

  /** The backoff after the given number of failures. */
  function RetryDelay(attempts: nat): int {
    if attempts == 1 then 1 * MINUTE
    else if attempts == 2 then 5 * MINUTE
    else if attempts == 3 then 15 * MINUTE
    else 30 * MINUTE
  }

  function MarkSent(d: Delivery, now: int): Delivery {
    d.(status := Sent, sentAt := Some(now), lastAttemptAt := Some(now), nextRetryAt := None)
  }

  function MarkDeferred(d: Delivery, now: int, retryAt: int): Delivery {
    d.(status := Pending, lastAttemptAt := Some(now), nextRetryAt := Some(retryAt))
  }

  function Cancel(d: Delivery, now: int): Delivery {
    d.(status := Failed, lastAttemptAt := Some(now), nextRetryAt := None)
  }

  /** The atomic increment that opens the recording of a failure. */
  function CountFailure(d: Delivery): Delivery {
    d.(attempts := d.attempts + 1)
  }

  /** The save that closes it, on the refreshed attempt count. */
  function SaveFailure(d: Delivery, now: int): Delivery {
    if d.attempts >= MAX_DELIVERY_ATTEMPTS
    then d.(lastAttemptAt := Some(now), status := Failed, nextRetryAt := None)
    else d.(lastAttemptAt := Some(now), status := Pending, nextRetryAt := Some(now + RetryDelay(d.attempts)))
  }

  function IneligibilityReason(applicationActive: bool, linked: bool, device: Device): Option<CancelReason> {
    if !applicationActive then Some(ApplicationInactive)
    else if !linked then Some(DeviceUnlinked)
    else if !device.tokenActive || !device.isActive then Some(PushTokenInactive)
    else None
  }

  // ---------- One row in one pass ----------

  /** Everything a pass learns about one row: eligibility, the clock, the end of the
      device's quiet period, and the provider's answer should it be called. */
  datatype Look = Look(
    reason: Option<CancelReason>,
    at: int,
    quietEnd: Option<int>,
    outcome: Outcome,
    recordedAt: int
  )

  datatype Arm = SkipSent | CancelRow | Wait | Defer(until: int) | Exhausted | Push

  /** The branch taken for a row, in the order of the loop body. */
  function ArmFor(d: Delivery, reason: Option<CancelReason>, now: int, quietEnd: Option<int>): Arm {
    if d.status.Sent? then SkipSent
    else if reason.Some? then CancelRow
    else if ShouldWait(d, now) then Wait
    else if quietEnd.Some? then Defer(quietEnd.value)
    else if !CanRetry(d) then Exhausted
    else Push
  }

  function LookedArm(d: Delivery, look: Look): Arm {
    ArmFor(d, look.reason, look.at, look.quietEnd)
  }

  function After(d: Delivery, look: Look): Delivery {
    match LookedArm(d, look)
    case SkipSent => d
    case CancelRow => Cancel(d, look.at)
    case Wait => d
    case Defer(until) => MarkDeferred(d, look.at, until)
    case Exhausted => d
    case Push =>
      if look.outcome.Accepted? then MarkSent(d, look.recordedAt)
      else SaveFailure(CountFailure(d), look.recordedAt)
  }

  datatype Verdict = WasSkipped | WasSent | HasFailed | WasDeferred | IsWaiting

  function VerdictFor(d: Delivery, look: Look): Verdict {
    match LookedArm(d, look)
    case SkipSent => WasSkipped
    case CancelRow => HasFailed
    case Wait => IsWaiting
    case Defer(_) => WasDeferred
    case Exhausted => HasFailed
    case Push => if look.outcome.Accepted? then WasSent else HasFailed
  }

  function AfterPass(ds: seq<Delivery>, looks: seq<Look>): (r: seq<Delivery>)
    requires |looks| == |ds|
    ensures |r| == |ds|
    ensures forall i :: 0 <= i < |ds| ==> r[i] == After(ds[i], looks[i])
  {
    if ds == [] then [] else [After(ds[0], looks[0])] + AfterPass(ds[1..], looks[1..])
  }

  // ---------- Retry sweeps ----------

  /** The filter of the retry sweep. */
  predicate Due(d: Delivery, now: int) {
    d.status.Pending? && d.nextRetryAt.Some? && d.nextRetryAt.value <= now
  }

  predicate SomeDue(ds: seq<Delivery>, now: int) {
    exists i :: 0 <= i < |ds| && Due(ds[i], now)
  }

  /** Provider calls a row may still cost. */
  function Budget(d: Delivery): nat {
    if CanRetry(d) then MAX_DELIVERY_ATTEMPTS - d.attempts else 0
  }

  function TotalBudget(ds: seq<Delivery>): nat {
    if ds == [] then 0 else Budget(ds[0]) + TotalBudget(ds[1..])
  }

  function PendingCount(ds: seq<Delivery>): (n: nat)
    ensures n <= |ds|
  {
    if ds == [] then 0 else (if ds[0].status.Pending? then 1 else 0) + PendingCount(ds[1..])
  }

  /** A pass spends something on this row: it calls the provider, or cancels a pending row. */
  predicate Workable(d: Delivery, look: Look) {
    LookedArm(d, look).Push? || (LookedArm(d, look).CancelRow? && d.status.Pending?)
  }

  predicate NoDeviceQuiet(looks: seq<Look>) {
    forall i :: 0 <= i < |looks| ==> looks[i].quietEnd.None?
  }

  /** Pending rows that still have attempts left. */
  predicate PendingRowsHaveBudget(ds: seq<Delivery>) {
    forall i :: 0 <= i < |ds| && ds[i].status.Pending? ==> ds[i].attempts < MAX_DELIVERY_ATTEMPTS
  }

  ghost predicate MeasureDrops(before: seq<Delivery>, after: seq<Delivery>) {
    || TotalBudget(after) < TotalBudget(before)
    || (TotalBudget(after) == TotalBudget(before) && PendingCount(after) < PendingCount(before))
  }

  /** Outside device quiet periods a pass never raises the measure, and lowers it exactly
      when some row is workable. */
  lemma {:induction false} PassProgress(ds: seq<Delivery>, looks: seq<Look>)
    requires |looks| == |ds| && NoDeviceQuiet(looks)
    ensures TotalBudget(AfterPass(ds, looks)) <= TotalBudget(ds)
    ensures (exists i :: 0 <= i < |ds| && Workable(ds[i], looks[i])) <==> MeasureDrops(ds, AfterPass(ds, looks))
    ensures (forall i :: 0 <= i < |ds| ==> !Workable(ds[i], looks[i])) ==>
              TotalBudget(AfterPass(ds, looks)) == TotalBudget(ds)
              && PendingCount(AfterPass(ds, looks)) == PendingCount(ds)
    ensures TotalBudget(AfterPass(ds, looks)) == TotalBudget(ds) ==>
              PendingCount(AfterPass(ds, looks)) <= PendingCount(ds)
  {
    if ds != [] {
      PassProgress(ds[1..], looks[1..]);
      var rest := AfterPass(ds[1..], looks[1..]);
      var first := After(ds[0], looks[0]);
      assert AfterPass(ds, looks)[0] == first && AfterPass(ds, looks)[1..] == rest;
      assert (exists i :: 0 <= i < |ds| && Workable(ds[i], looks[i])) <==>
             Workable(ds[0], looks[0]) || (exists i :: 0 <= i < |ds| - 1 && Workable(ds[1..][i], looks[1..][i])) by {
        if i :| 0 <= i < |ds| && Workable(ds[i], looks[i]) {
          assert i > 0 ==> Workable(ds[1..][i - 1], looks[1..][i - 1]);
        }
        if i :| 0 <= i < |ds| - 1 && Workable(ds[1..][i], looks[1..][i]) {
          assert Workable(ds[i + 1], looks[i + 1]);
        }
      }
    }
  }

  /** A sweep that finds a due row with attempts left makes progress: at sending time that
      row is either pushed or cancelled. */
  lemma {:induction false} SweepMakesProgress(ds: seq<Delivery>, looks: seq<Look>, sweptAt: int)
    requires |looks| == |ds| && NoDeviceQuiet(looks)
    requires SomeDue(ds, sweptAt) && PendingRowsHaveBudget(ds)
    requires forall i :: 0 <= i < |looks| ==> sweptAt <= looks[i].at
    ensures MeasureDrops(ds, AfterPass(ds, looks))
    ensures PendingRowsHaveBudget(AfterPass(ds, looks))
  {
    PassProgress(ds, looks);
    var i :| 0 <= i < |ds| && Due(ds[i], sweptAt);
    assert Workable(ds[i], looks[i]);
  }

  /** A run of sweeps: each finds a due row, then a pass runs. */
  ghost predicate SweepRun(history: seq<seq<Delivery>>, looks: seq<seq<Look>>, times: seq<int>) {
    && |history| == |looks| + 1 && |times| == |looks|
    && forall k :: 0 <= k < |looks| ==>
         && |looks[k]| == |history[k]| && NoDeviceQuiet(looks[k])
         && SomeDue(history[k], times[k])
         && (forall i :: 0 <= i < |looks[k]| ==> times[k] <= looks[k][i].at)
         && history[k + 1] == AfterPass(history[k], looks[k])
  }

  function Measure(ds: seq<Delivery>): nat {
    TotalBudget(ds) * (|ds| + 1) + PendingCount(ds)
  }

  lemma {:induction false} SmallerLeadingDigit(high: nat, low: nat, higher: nat, base: nat)
    requires high < higher && low < base
    ensures high * base + low < higher * base
    decreases higher
  {
    assert (high + 1) * base == high * base + base;
    if high + 1 < higher {
      SmallerLeadingDigit(high, low, higher - 1, base);
      assert higher * base == (higher - 1) * base + base;
    }
  }

  lemma {:induction false} MeasureIsLexicographic(before: seq<Delivery>, after: seq<Delivery>)
    requires |before| == |after| && MeasureDrops(before, after)
    ensures Measure(after) < Measure(before)
  {
    if TotalBudget(after) < TotalBudget(before) {
      SmallerLeadingDigit(TotalBudget(after), PendingCount(after), TotalBudget(before), |before| + 1);
    }
  }

  /** Sweeping ends: from rows whose pending ones have attempts left, the number of
      successive sweeps that find something due is bounded by the initial measure. */
  lemma {:induction false} SweepingTerminates(history: seq<seq<Delivery>>, looks: seq<seq<Look>>, times: seq<int>)
    requires SweepRun(history, looks, times) && PendingRowsHaveBudget(history[0])
    ensures |looks| + Measure(history[|looks|]) <= Measure(history[0])
    ensures PendingRowsHaveBudget(history[|looks|])
    decreases |looks|
  {
    if looks != [] {
      var k := |looks| - 1;
      SweepingTerminates(history[..k + 1], looks[..k], times[..k]);
      SweepMakesProgress(history[k], looks[k], times[k]);
      MeasureIsLexicographic(history[k], history[k + 1]);
    }
  }

  // ---------- The exhausted pending row ----------

  /** Re-sending an exhausted row during its device's quiet period makes it pending again,
      because the deferral is decided before the attempt cap. */
  lemma DeferralRevivesExhaustedRow(d: Delivery, look: Look)
    requires d.status.Failed? && d.attempts == MAX_DELIVERY_ATTEMPTS && d.nextRetryAt.None?
    requires look.reason.None? && look.quietEnd.Some?
    ensures After(d, look).status.Pending? && After(d, look).attempts == MAX_DELIVERY_ATTEMPTS
    ensures forall now :: look.quietEnd.value <= now ==> Due(After(d, look), now)
  {
  }

  /** A pending row without attempts left is due for ever: every sweep that finds it leaves
      it exactly as it was, until its device becomes ineligible or quiet. */
  lemma {:induction false} ExhaustedPendingRowIsSweptForever(d: Delivery, looks: seq<Look>, sweptAt: int)
    requires Due(d, sweptAt) && d.attempts >= MAX_DELIVERY_ATTEMPTS
    requires forall i :: 0 <= i < |looks| ==>
               looks[i].reason.None? && looks[i].quietEnd.None? && sweptAt <= looks[i].at
    ensures AfterAll(d, looks) == d
    ensures forall i :: 0 <= i < |looks| ==> VerdictFor(AfterAll(d, looks[..i]), looks[i]) == HasFailed
                                             && Due(AfterAll(d, looks[..i]), looks[i].at)
    decreases |looks|
  {
    if looks != [] {
      var k := |looks| - 1;
      ExhaustedPendingRowIsSweptForever(d, looks[..k], sweptAt);
      forall i | 0 <= i < |looks|
        ensures VerdictFor(AfterAll(d, looks[..i]), looks[i]) == HasFailed && Due(AfterAll(d, looks[..i]), looks[i].at)
      {
        if i < k {
          assert looks[..k][..i] == looks[..i];
        }
      }
    }
  }

  function AfterAll(d: Delivery, looks: seq<Look>): Delivery {
    if looks == [] then d else After(AfterAll(d, looks[..|looks| - 1]), looks[|looks| - 1])
  }

  /** Exactly when a due row lets a sweep make progress on it: it has attempts left or its
      device has become ineligible. */
  lemma DueRowIsWorkableIff(d: Delivery, look: Look, sweptAt: int)
    requires Due(d, sweptAt) && look.quietEnd.None? && sweptAt <= look.at
    ensures Workable(d, look) <==> d.attempts < MAX_DELIVERY_ATTEMPTS || look.reason.Some?
  {
  }
}
