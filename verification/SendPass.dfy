/** One uninterrupted pass of the send worker over a notification, updating its rows in place. */
module SendPass {
  import opened Options
  import opened QuietPeriods
  import opened EffectiveDate
  import opened Deliveries
  import opened Notifications

  /** What the pass reads from outside: the row lock, billing, the application, the active
      links in device order, the clock and the provider. Clock and provider are consulted
      per position in the delivery list. */
  datatype Surroundings = Surroundings(
    locked: bool,
    paid: bool,
    applicationPeriods: seq<QuietPeriod>,
    applicationActive: bool,
    linked: seq<nat>,
    acquiredAt: int,
    quietCheckedAt: int,
    lookedAt: nat -> int,
    outcome: nat -> Outcome,
    recordedAt: nat -> int,
    finishedAt: int
  )

  datatype SendNotificationResult = SendNotificationResult(
    targetCount: nat,
    sentCount: nat,
    failedCount: nat,
    skippedCount: nat
  )

  function ResultOf(targets: nat, t: Tally): SendNotificationResult {
    SendNotificationResult(targets, t.sent, t.failed, t.skipped)
  }

  const NOTHING_SENT := SendNotificationResult(0, 0, 0, 0)

  function LookFor(d: Delivery, position: nat, env: Surroundings, devices: map<nat, Device>): Look
    requires d.device in devices
  {
    Look(IneligibilityReason(env.applicationActive, d.device in env.linked, devices[d.device]),
         env.lookedAt(position),
         EndFrom(devices[d.device].quietPeriods, env.lookedAt(position)),
         env.outcome(position),
         env.recordedAt(position))
  }

  predicate HaveDevices(ds: seq<Delivery>, devices: map<nat, Device>) {
    forall i :: 0 <= i < |ds| ==> ds[i].device in devices
  }

  function LooksFor(ds: seq<Delivery>, env: Surroundings, devices: map<nat, Device>): (looks: seq<Look>)
    requires HaveDevices(ds, devices)
    ensures |looks| == |ds|
    ensures forall i :: 0 <= i < |ds| ==> looks[i] == LookFor(ds[i], i, env, devices)
  {
    seq(|ds|, i requires 0 <= i < |ds| => LookFor(ds[i], i, env, devices))
  }

  /** Devices that a first pass materializes rows for: linked, with a live push token. */
  function Targets(linked: seq<nat>, devices: map<nat, Device>): (ids: seq<nat>)
    ensures forall id :: id in ids <==> id in linked && id in devices && devices[id].tokenActive
  {
    if linked == [] then []
    else
      var k := |linked| - 1;
      var before := Targets(linked[..k], devices);
      assert linked == linked[..k] + [linked[k]];
      if linked[k] in devices && devices[linked[k]].tokenActive then before + [linked[k]] else before
  }

  lemma {:induction false} TargetsKeepOrder(linked: seq<nat>, devices: map<nat, Device>)
    requires StrictlyIncreasing(linked)
    ensures StrictlyIncreasing(Targets(linked, devices))
  {
    if linked != [] {
      var k := |linked| - 1;
      var before := Targets(linked[..k], devices);
      TargetsKeepOrder(linked[..k], devices);
      forall i | 0 <= i < |before| ensures before[i] < linked[k] {
        assert before[i] in before;
      }
    }
  }

  predicate StrictlyIncreasing(ids: seq<nat>) {
    forall i, j :: 0 <= i < j < |ids| ==> ids[i] < ids[j]
  }

  function FreshDeliveries(ids: seq<nat>): (ds: seq<Delivery>)
    ensures |ds| == |ids|
    ensures forall i :: 0 <= i < |ids| ==> ds[i] == NewDelivery(ids[i])
  {
    seq(|ids|, i requires 0 <= i < |ids| => NewDelivery(ids[i]))
  }

  /** The rows a pass works on: the stored ones, else one new row per target. */
  function Loaded(ds: seq<Delivery>, env: Surroundings, devices: map<nat, Device>): (r: seq<Delivery>)
    ensures HaveDevices(ds, devices) ==> HaveDevices(r, devices)
  {
    assert forall i :: 0 <= i < |Targets(env.linked, devices)| ==>
      Targets(env.linked, devices)[i] in Targets(env.linked, devices);
    if ds != [] then ds else FreshDeliveries(Targets(env.linked, devices))
  }

  /** A row when the owner's subscription has lapsed. */
  function LapsedRow(d: Delivery, now: int): Delivery {
    if d.status.Sent? then d else Cancel(d, now)
  }

  /** The device after its row was handled. */
  function DeviceAfter(dev: Device, d: Delivery, look: Look): Device {
    if !LookedArm(d, look).Push? then dev
    else match look.outcome
      case Accepted => dev.(failureCount := 0)
      case InvalidToken => dev.(failureCount := dev.failureCount + 1, tokenActive := false, isActive := false)
      case _ => dev.(failureCount := dev.failureCount + 1)
  }

  /** The devices the provider was called for, in order. */
  function CallsOf(ds: seq<Delivery>, looks: seq<Look>): seq<nat>
    requires |looks| == |ds|
  {
    if ds == [] then []
    else
      var k := |ds| - 1;
      CallsOf(ds[..k], looks[..k]) + if LookedArm(ds[k], looks[k]).Push? then [ds[k].device] else []
  }

  predicate InDeviceOrder(ds: seq<Delivery>) {
    forall i, j :: 0 <= i < j < |ds| ==> ds[i].device < ds[j].device
  }

  /** The devices once the rows were handled one after the other. */
  function DevicesAfter(ds: seq<Delivery>, looks: seq<Look>, devices: map<nat, Device>): (r: map<nat, Device>)
    requires |looks| == |ds| && HaveDevices(ds, devices)
    ensures r.Keys == devices.Keys
  {
    if ds == [] then devices
    else
      var k := |ds| - 1;
      var before := DevicesAfter(ds[..k], looks[..k], devices);
      before[ds[k].device := DeviceAfter(before[ds[k].device], ds[k], looks[k])]
  }

  lemma {:induction false} UntouchedDevice(ds: seq<Delivery>, looks: seq<Look>, devices: map<nat, Device>, id: nat)
    requires |looks| == |ds| && HaveDevices(ds, devices) && id in devices
    requires forall i :: 0 <= i < |ds| ==> ds[i].device != id
    ensures DevicesAfter(ds, looks, devices)[id] == devices[id]
  {
    if ds != [] {
      UntouchedDevice(ds[..|ds| - 1], looks[..|ds| - 1], devices, id);
    }
  }

  /** Each device is changed by its own row only. */
  lemma {:induction false} DevicesAfterMeaning(ds: seq<Delivery>, looks: seq<Look>, devices: map<nat, Device>, i: nat)
    requires |looks| == |ds| && HaveDevices(ds, devices) && InDeviceOrder(ds) && i < |ds|
    ensures DevicesAfter(ds, looks, devices)[ds[i].device] == DeviceAfter(devices[ds[i].device], ds[i], looks[i])
  {
    var k := |ds| - 1;
    if i == k {
      UntouchedDevice(ds[..k], looks[..k], devices, ds[k].device);
    } else {
      DevicesAfterMeaning(ds[..k], looks[..k], devices, i);
    }
  }

  /** The first i rows are handled and the others untouched. */
  ghost predicate HandledUpTo(i: nat, loaded: seq<Delivery>, looks: seq<Look>,
                              devices0: map<nat, Device>, calls0: seq<nat>,
                              ds: seq<Delivery>, devices: map<nat, Device>, calls: seq<nat>)
    requires |looks| == |loaded| && i <= |loaded| && HaveDevices(loaded, devices0)
  {
    && |ds| == |loaded|
    && (forall j :: 0 <= j < i ==> ds[j] == After(loaded[j], looks[j]))
    && (forall j :: i <= j < |loaded| ==> ds[j] == loaded[j])
    && devices == DevicesAfter(loaded[..i], looks[..i], devices0)
    && calls == calls0 + CallsOf(loaded[..i], looks[..i])
  }

  lemma HandleOneMore(i: nat, loaded: seq<Delivery>, looks: seq<Look>, devices0: map<nat, Device>, calls0: seq<nat>,
                      ds: seq<Delivery>, devices: map<nat, Device>, calls: seq<nat>)
    requires |looks| == |loaded| && i < |loaded| && HaveDevices(loaded, devices0) && InDeviceOrder(loaded)
    requires HandledUpTo(i, loaded, looks, devices0, calls0, ds, devices, calls)
    ensures devices[loaded[i].device] == devices0[loaded[i].device]
    ensures HandledUpTo(i + 1, loaded, looks, devices0, calls0,
                        ds[i := After(loaded[i], looks[i])],
                        devices[loaded[i].device := DeviceAfter(devices[loaded[i].device], loaded[i], looks[i])],
                        calls + if LookedArm(loaded[i], looks[i]).Push? then [loaded[i].device] else [])
  {
    UntouchedDevice(loaded[..i], looks[..i], devices0, loaded[i].device);
    assert loaded[..i + 1][..i] == loaded[..i] && looks[..i + 1][..i] == looks[..i];
  }

  lemma HandledAll(loaded: seq<Delivery>, looks: seq<Look>, devices0: map<nat, Device>, calls0: seq<nat>,
                   ds: seq<Delivery>, devices: map<nat, Device>, calls: seq<nat>)
    requires |looks| == |loaded| && HaveDevices(loaded, devices0)
    requires HandledUpTo(|loaded|, loaded, looks, devices0, calls0, ds, devices, calls)
    ensures ds == AfterPass(loaded, looks)
    ensures devices == DevicesAfter(loaded, looks, devices0)
    ensures calls == calls0 + CallsOf(loaded, looks)
  {
    assert loaded[..|loaded|] == loaded && looks[..|loaded|] == looks;
  }

  /** The rows the provider is to be called for, whatever the order of the checks. */
  predicate Deserves(d: Delivery, look: Look) {
    && !d.status.Sent? && d.attempts < MAX_DELIVERY_ATTEMPTS
    && look.reason.None? && look.quietEnd.None?
    && (d.nextRetryAt.Some? ==> d.nextRetryAt.value <= look.at)
  }

  predicate IsDeserving(ds: seq<Delivery>, looks: seq<Look>, i: nat, id: nat)
    requires |looks| == |ds| && i < |ds|
  {
    ds[i].device == id && Deserves(ds[i], looks[i])
  }

  /** The provider is called exactly for the devices of the deserving rows. */
  lemma {:induction false} CallsAreJustified(ds: seq<Delivery>, looks: seq<Look>, id: nat)
    requires |looks| == |ds|
    ensures id in CallsOf(ds, looks) <==> exists i :: 0 <= i < |ds| && IsDeserving(ds, looks, i, id)
  {
    if ds != [] {
      var k := |ds| - 1;
      CallsAreJustified(ds[..k], looks[..k], id);
      assert IsDeserving(ds, looks, k, id) <==> ds[k].device == id && LookedArm(ds[k], looks[k]).Push?;
      assert forall i :: 0 <= i < k ==> (IsDeserving(ds[..k], looks[..k], i, id) <==> IsDeserving(ds, looks, i, id));
    }
  }

  /** The calls follow the device order: no device is called twice in a pass. */
  lemma {:induction false} CallsKeepDeviceOrder(ds: seq<Delivery>, looks: seq<Look>)
    requires |looks| == |ds| && InDeviceOrder(ds)
    ensures StrictlyIncreasing(CallsOf(ds, looks))
  {
    if ds != [] {
      var k := |ds| - 1;
      CallsKeepDeviceOrder(ds[..k], looks[..k]);
      var before := CallsOf(ds[..k], looks[..k]);
      forall j | 0 <= j < |before| ensures before[j] < ds[k].device {
        assert before[j] in before;
        CallsAreJustified(ds[..k], looks[..k], before[j]);
      }
    }
  }

  // ---------- The outcome of a whole pass ----------

  datatype Fate = NotAcquired | Lapsed | Postponed(until: int) | Worked

  /** How far a pass gets, in the order of its checks. */
  function FateOf(status: NotificationStatus, env: Surroundings): Fate {
    if env.locked || !Startable(status) then NotAcquired
    else if !env.paid then Lapsed
    else
      var end := EndFrom(env.applicationPeriods, env.quietCheckedAt);
      if end.Some? then Postponed(end.value) else Worked
  }

  function LapsedRows(ds: seq<Delivery>, now: int): (r: seq<Delivery>)
    ensures |r| == |ds|
    ensures forall i :: 0 <= i < |ds| ==> r[i] == LapsedRow(ds[i], now)
  {
    seq(|ds|, i requires 0 <= i < |ds| => LapsedRow(ds[i], now))
  }

  function WorkedLooks(ds: seq<Delivery>, env: Surroundings, devices: map<nat, Device>): (looks: seq<Look>)
    requires HaveDevices(ds, devices)
    ensures |looks| == |Loaded(ds, env, devices)|
  {
    LooksFor(Loaded(ds, env, devices), env, devices)
  }

  function WorkedTally(ds: seq<Delivery>, env: Surroundings, devices: map<nat, Device>): Tally
    requires HaveDevices(ds, devices)
  {
    TallyOf(VerdictsFor(Loaded(ds, env, devices), WorkedLooks(ds, env, devices)))
  }

  /** The delivery rows after a pass. */
  function RowsAfter(status: NotificationStatus, ds: seq<Delivery>, env: Surroundings, devices: map<nat, Device>)
    : seq<Delivery>
    requires HaveDevices(ds, devices)
  {
    match FateOf(status, env)
    case NotAcquired => ds
    case Lapsed => LapsedRows(ds, env.acquiredAt)
    case Postponed(_) => ds
    case Worked => AfterPass(Loaded(ds, env, devices), WorkedLooks(ds, env, devices))
  }

  /** The notification row after a pass. */
  function RowAfter(row: Row, ds: seq<Delivery>, env: Surroundings, devices: map<nat, Device>): Row
    requires HaveDevices(ds, devices)
  {
    match FateOf(row.status, env)
    case NotAcquired => row
    case Lapsed => row.(status := FAILED, sentAt := None, processingStartedAt := None)
    case Postponed(until) => Row(SCHEDULED, Some(until), None, None)
    case Worked =>
      var status := if Loaded(ds, env, devices) == [] then NO_TARGET else FinalStatus(WorkedTally(ds, env, devices));
      FinishedRow(row, status, env.finishedAt)
  }

  predicate NoneSent(ds: seq<Delivery>) {
    forall i :: 0 <= i < |ds| ==> !ds[i].status.Sent?
  }

  /** When an acquired pass ends FAILED, none of its rows is sent exactly when the owner pays
      or none was sent before: a lapsed subscription fails a notification with sent rows. */
  lemma {:induction false} FailedMeansNoneSentIff(
    row: Row, ds: seq<Delivery>, env: Surroundings, devices: map<nat, Device>)
    requires HaveDevices(ds, devices) && !FateOf(row.status, env).NotAcquired?
    requires RowAfter(row, ds, env, devices).status.FAILED?
    ensures NoneSent(RowsAfter(row.status, ds, env, devices)) <==> env.paid || NoneSent(ds)
  {
    if env.paid {
      PassStatusMeaning(Loaded(ds, env, devices), WorkedLooks(ds, env, devices));
    } else {
      var lapsed := LapsedRows(ds, env.acquiredAt);
      assert forall i :: 0 <= i < |ds| ==> (lapsed[i].status.Sent? <==> ds[i].status.Sent?);
    }
  }

  lemma OneMoreVerdict(verdicts: seq<Verdict>, i: nat)
    requires i < |verdicts|
    ensures TallyOf(verdicts[..i + 1]) == Counted(TallyOf(verdicts[..i]), verdicts[i])
  {
    assert verdicts[..i + 1][..i] == verdicts[..i];
  }

  /** A notification with its delivery rows, and the device rows they refer to. */
  class Notification {
    var status: NotificationStatus
    var scheduledFor: Option<int>
    var processingStartedAt: Option<int>
    var sentAt: Option<int>
    var deliveries: seq<Delivery>
    var devices: map<nat, Device>
    var calls: seq<nat>

    /** Rows are kept in device order, at most one per device, each with an existing device. */
    ghost predicate Valid()
      reads this
    {
      && InDeviceOrder(deliveries)
      && HaveDevices(deliveries, devices)
    }

    function TheRow(): Row
      reads this
    {
      Row(status, scheduledFor, processingStartedAt, sentAt)
    }

    /** Takes the row from a startable status to PROCESSING, unless someone holds its lock. */
    method Acquire(locked: bool, now: int) returns (acquired: bool)
      modifies this`status, this`processingStartedAt
      ensures acquired <==> !locked && Startable(old(status))
      ensures TheRow() == if acquired
                          then old(TheRow()).(status := PROCESSING, processingStartedAt := Some(now))
                          else old(TheRow())
    {
      if locked {
        return false;
      }
      if !Startable(status) {
        return false;
      }
      status := PROCESSING;
      processingStartedAt := Some(now);
      return true;
    }

    /** Cancels every row that is not sent yet, and counts them. */
    method CancelUnsent(now: int) returns (pending: nat)
      modifies this`deliveries
      ensures deliveries == LapsedRows(old(deliveries), now)
      ensures pending == UnsentCount(old(deliveries))
    {
      ghost var before := deliveries;
      pending := 0;
      for i := 0 to |deliveries|
        invariant |deliveries| == |before|
        invariant forall j :: 0 <= j < i ==> deliveries[j] == LapsedRow(before[j], now)
        invariant forall j :: i <= j < |before| ==> deliveries[j] == before[j]
        invariant pending == UnsentCount(before[..i])
      {
        assert before[..i + 1][..i] == before[..i];
        if !deliveries[i].status.Sent? {
          deliveries := deliveries[i := Cancel(deliveries[i], now)];
          pending := pending + 1;
        }
      }
      assert before[..|before|] == before;
    }

    /** Cancels every row that is not sent yet and closes the notification. */
    method FailForLapsedSubscription(now: int) returns (result: SendNotificationResult)
      requires Valid()
      modifies this`deliveries, this`status, this`sentAt, this`processingStartedAt
      ensures Valid()
      ensures deliveries == LapsedRows(old(deliveries), now)
      ensures TheRow() == old(TheRow()).(status := FAILED, sentAt := None, processingStartedAt := None)
      ensures result.sentCount == 0 && result.skippedCount == 0
      ensures result.targetCount == result.failedCount == UnsentCount(old(deliveries))
    {
      var pending := CancelUnsent(now);
      status := FAILED;
      sentAt := None;
      processingStartedAt := None;
      result := SendNotificationResult(pending, 0, pending, 0);
    }

    /** Creates the missing rows of a notification that has none yet. */
    method LoadTargetDeliveries(linked: seq<nat>)
      requires Valid() && StrictlyIncreasing(linked)
      modifies this`deliveries
      ensures Valid()
      ensures deliveries == if old(deliveries) != [] then old(deliveries)
                            else FreshDeliveries(Targets(linked, devices))
    {
      if deliveries != [] {
        return;
      }
      var ids := Targets(linked, devices);
      deliveries := FreshDeliveries(ids);
      TargetsKeepOrder(linked, devices);
      assert forall i :: 0 <= i < |ids| ==> ids[i] in ids;
    }

    /** Calls the provider for one row and records the answer on the row and its device. */
    method PushTo(i: nat, look: Look) returns (sent: bool)
      requires Valid() && i < |deliveries| && LookedArm(deliveries[i], look).Push?
      modifies this`deliveries, this`devices, this`calls
      ensures Valid()
      ensures sent <==> look.outcome.Accepted?
      ensures deliveries == old(deliveries)[i := After(old(deliveries)[i], look)]
      ensures devices == old(devices)[old(deliveries)[i].device :=
                DeviceAfter(old(devices)[old(deliveries)[i].device], old(deliveries)[i], look)]
      ensures calls == old(calls) + [old(deliveries)[i].device]
    {
      var id := deliveries[i].device;
      calls := calls + [id];
      if look.outcome.Accepted? {
        deliveries := deliveries[i := MarkSent(deliveries[i], look.recordedAt)];
        if devices[id].failureCount != 0 {
          devices := devices[id := devices[id].(failureCount := 0)];
        }
        return true;
      }
      devices := devices[id := devices[id].(failureCount := devices[id].failureCount + 1)];
      if look.outcome.InvalidToken? {
        devices := devices[id := devices[id].(tokenActive := false, isActive := false)];
      }
      deliveries := deliveries[i := CountFailure(deliveries[i])];
      deliveries := deliveries[i := SaveFailure(deliveries[i], look.recordedAt)];
      return false;
    }

    /** A whole pass. */
    method SendNotification(env: Surroundings) returns (result: SendNotificationResult)
      requires Valid() && StrictlyIncreasing(env.linked)
      modifies this
      ensures Valid()
      ensures TheRow() == RowAfter(old(TheRow()), old(deliveries), env, old(devices))
      ensures deliveries == RowsAfter(old(status), old(deliveries), env, old(devices))
      ensures !FateOf(old(status), env).Worked? ==> devices == old(devices) && calls == old(calls)
      ensures FateOf(old(status), env).Worked? ==>
                var loaded := Loaded(old(deliveries), env, old(devices));
                var looks := WorkedLooks(old(deliveries), env, old(devices));
                && devices == DevicesAfter(loaded, looks, old(devices))
                && calls == old(calls) + CallsOf(loaded, looks)
      ensures result == match FateOf(old(status), env)
                        case NotAcquired => NOTHING_SENT
                        case Lapsed =>
                          SendNotificationResult(UnsentCount(old(deliveries)), 0, UnsentCount(old(deliveries)), 0)
                        case Postponed(_) => NOTHING_SENT
                        case Worked =>
                          ResultOf(|Loaded(old(deliveries), env, old(devices))|,
                                   WorkedTally(old(deliveries), env, old(devices)))
    {
      var acquired := Acquire(env.locked, env.acquiredAt);
      if !acquired {
        return NOTHING_SENT;
      }
      if !env.paid {
        result := FailForLapsedSubscription(env.acquiredAt);
        return;
      }
      var quietPeriodEnd := EndFrom(env.applicationPeriods, env.quietCheckedAt);
      if quietPeriodEnd.Some? {
        status := SCHEDULED;
        scheduledFor := quietPeriodEnd;
        sentAt := None;
        processingStartedAt := None;
        return NOTHING_SENT;
      }
      LoadTargetDeliveries(env.linked);
      if deliveries == [] {
        status := NO_TARGET;
        sentAt := None;
        processingStartedAt := None;
        return NOTHING_SENT;
      }
      var tally := WorkThrough(env);
      var finalStatus := FinalStatus(tally);
      status := finalStatus;
      sentAt := if finalStatus.SENT? then Some(env.finishedAt) else None;
      processingStartedAt := None;
      result := ResultOf(|deliveries|, tally);
    }

    /** One iteration of the delivery loop: the arms in their order. */
    method HandleRow(i: nat, env: Surroundings) returns (verdict: Verdict)
      requires Valid() && i < |deliveries|
      modifies this`deliveries, this`devices, this`calls
      ensures Valid()
      ensures var d := old(deliveries)[i];
              var look := LookFor(d, i, env, old(devices));
              && verdict == VerdictFor(d, look)
              && deliveries == old(deliveries)[i := After(d, look)]
              && devices == old(devices)[d.device := DeviceAfter(old(devices)[d.device], d, look)]
              && calls == old(calls) + if LookedArm(d, look).Push? then [d.device] else []
    {
      var delivery := deliveries[i];
      var device := devices[delivery.device];
      var look := LookFor(delivery, i, env, devices);
      if delivery.status.Sent? {
        return WasSkipped;
      }
      var reason := IneligibilityReason(env.applicationActive, delivery.device in env.linked, device);
      if reason.Some? {
        deliveries := deliveries[i := Cancel(delivery, look.at)];
        return HasFailed;
      }
      if ShouldWait(delivery, look.at) {
        return IsWaiting;
      }
      var deviceQuietPeriodEnd := EndFrom(device.quietPeriods, look.at);
      if deviceQuietPeriodEnd.Some? {
        deliveries := deliveries[i := MarkDeferred(delivery, look.at, deviceQuietPeriodEnd.value)];
        return WasDeferred;
      }
      if !CanRetry(delivery) {
        return HasFailed;
      }
      var sent := PushTo(i, look);
      return if sent then WasSent else HasFailed;
    }

    /** The delivery loop, with its five counters. */
    method WorkThrough(env: Surroundings) returns (tally: Tally)
      requires Valid()
      modifies this`deliveries, this`devices, this`calls
      ensures Valid()
      ensures var looks := LooksFor(old(deliveries), env, old(devices));
              && deliveries == AfterPass(old(deliveries), looks)
              && devices == DevicesAfter(old(deliveries), looks, old(devices))
              && calls == old(calls) + CallsOf(old(deliveries), looks)
      ensures tally == TallyOf(VerdictsFor(old(deliveries), LooksFor(old(deliveries), env, old(devices))))
    {
      tally := ZERO_TALLY;
      ghost var loaded := deliveries;
      ghost var before := devices;
      ghost var looks := LooksFor(loaded, env, devices);
      ghost var verdicts := VerdictsFor(loaded, looks);
      for i := 0 to |deliveries|
        invariant Valid() && |deliveries| == |loaded|
        invariant HandledUpTo(i, loaded, looks, before, old(calls), deliveries, devices, calls)
        invariant tally == TallyOf(verdicts[..i])
      {
        HandleOneMore(i, loaded, looks, before, old(calls), deliveries, devices, calls);
        assert LookFor(deliveries[i], i, env, devices) == looks[i];
        var verdict := HandleRow(i, env);
        assert verdict == verdicts[i];
        OneMoreVerdict(verdicts, i);
        tally := Counted(tally, verdict);
      }
      HandledAll(loaded, looks, before, old(calls), deliveries, devices, calls);
      assert verdicts[..|loaded|] == verdicts;
    }
  }

  function UnsentCount(ds: seq<Delivery>): nat {
    if ds == [] then 0
    else UnsentCount(ds[..|ds| - 1]) + if ds[|ds| - 1].status.Sent? then 0 else 1
  }
}
