/** What a pass means for each row, each device and the notification, in terms of what it
    finds in its surroundings. */
module PassMeaning {
  import opened Options
  import opened QuietPeriods
  import opened EffectiveDate
  import opened Deliveries
  import opened Notifications
  import opened SendPass

  /** The application is active, the device linked to it and alive. */
  predicate Eligible(id: nat, env: Surroundings, devices: map<nat, Device>)
    requires id in devices
  {
    env.applicationActive && id in env.linked && devices[id].tokenActive && devices[id].isActive
  }

  /** Row i is to be pushed: its device is eligible and not quiet when looked at, and the row
      is unsent, due and has failed fewer than three times. */
  ghost predicate MustBePushed(ds: seq<Delivery>, i: nat, env: Surroundings, devices: map<nat, Device>)
    requires i < |ds| && HaveDevices(ds, devices)
  {
    var d, at := ds[i], env.lookedAt(i);
    && Eligible(d.device, env, devices)
    && !d.status.Sent? && d.attempts < 3
    && (d.nextRetryAt.Some? ==> d.nextRetryAt.value <= at)
    && !Quiet(devices[d.device].quietPeriods, at)
  }

  lemma PushedIff(ds: seq<Delivery>, i: nat, env: Surroundings, devices: map<nat, Device>)
    requires i < |ds| && HaveDevices(ds, devices)
    ensures LookedArm(ds[i], LooksFor(ds, env, devices)[i]).Push? <==> MustBePushed(ds, i, env, devices)
  {
    EndFromMeaning(devices[ds[i].device].quietPeriods, env.lookedAt(i));
  }

  /** A working pass calls the provider for exactly the devices of the rows to be pushed. */
  lemma {:induction false} PassCallsExactly(ds: seq<Delivery>, env: Surroundings, devices: map<nat, Device>, id: nat)
    requires HaveDevices(ds, devices)
    ensures var loaded := Loaded(ds, env, devices);
            id in CallsOf(loaded, WorkedLooks(ds, env, devices)) <==>
              exists i :: 0 <= i < |loaded| && loaded[i].device == id && MustBePushed(loaded, i, env, devices)
  {
    var loaded, looks := Loaded(ds, env, devices), WorkedLooks(ds, env, devices);
    CallsAreJustified(loaded, looks, id);
    forall i | 0 <= i < |loaded|
      ensures IsDeserving(loaded, looks, i, id) <==> loaded[i].device == id && MustBePushed(loaded, i, env, devices)
    {
      PushedIff(loaded, i, env, devices);
    }
  }

  // ---------- Each row ----------

  /** The rows of a working pass: what becomes of row i in each case. */
  lemma {:induction false} WorkedRowMeaning(
    status: NotificationStatus, ds: seq<Delivery>, env: Surroundings, devices: map<nat, Device>, i: nat)
    requires HaveDevices(ds, devices) && FateOf(status, env).Worked? && i < |Loaded(ds, env, devices)|
    ensures |RowsAfter(status, ds, env, devices)| == |Loaded(ds, env, devices)|
    ensures var d, r := Loaded(ds, env, devices)[i], RowsAfter(status, ds, env, devices)[i];
            var dev, at, recorded := devices[d.device], env.lookedAt(i), env.recordedAt(i);
            var waits := d.nextRetryAt.Some? && at < d.nextRetryAt.value;
            var quiet := Quiet(dev.quietPeriods, at);
            && r.device == d.device
            && (d.status.Sent? ==> r == d)
            && (!d.status.Sent? && !Eligible(d.device, env, devices) ==>
                  r == Delivery(d.device, Failed, d.attempts, None, Some(at), d.sentAt))
            && (!d.status.Sent? && Eligible(d.device, env, devices) && waits ==> r == d)
            && (!d.status.Sent? && Eligible(d.device, env, devices) && !waits && quiet ==>
                  r == Delivery(d.device, Pending, d.attempts, EndFrom(dev.quietPeriods, at), Some(at), d.sentAt))
            && (!d.status.Sent? && Eligible(d.device, env, devices) && !waits && !quiet && d.attempts >= 3 ==> r == d)
            && (MustBePushed(Loaded(ds, env, devices), i, env, devices) ==>
                  match env.outcome(i)
                  case Accepted => r == Delivery(d.device, Sent, d.attempts, None, Some(recorded), Some(recorded))
                  case _ =>
                    if d.attempts == 2 then r == Delivery(d.device, Failed, 3, None, Some(recorded), d.sentAt)
                    else
                      r == Delivery(d.device, Pending, d.attempts + 1,
                                    Some(recorded + if d.attempts == 0 then 60_000_000 else 300_000_000),
                                    Some(recorded), d.sentAt))
  {
    var loaded, looks := Loaded(ds, env, devices), WorkedLooks(ds, env, devices);
    EndFromMeaning(devices[loaded[i].device].quietPeriods, env.lookedAt(i));
    assert RowsAfter(status, ds, env, devices)[i] == After(loaded[i], looks[i]);
  }

  /** The rows that a first pass creates. */
  lemma LoadedMeaning(ds: seq<Delivery>, env: Surroundings, devices: map<nat, Device>)
    ensures ds != [] ==> Loaded(ds, env, devices) == ds
    ensures ds == [] ==>
              forall i :: 0 <= i < |Loaded(ds, env, devices)| ==>
                var d := Loaded(ds, env, devices)[i];
                d == Delivery(d.device, Pending, 0, None, None, None)
    ensures ds == [] ==>
              forall id :: (exists i :: 0 <= i < |Loaded(ds, env, devices)| && Loaded(ds, env, devices)[i].device == id)
                           <==> id in env.linked && id in devices && devices[id].tokenActive
  {
    var targets, loaded := Targets(env.linked, devices), Loaded(ds, env, devices);
    if ds == [] {
      forall id
        ensures (exists i :: 0 <= i < |loaded| && loaded[i].device == id)
                <==> id in env.linked && id in devices && devices[id].tokenActive
      {
        if id in targets {
          var i :| 0 <= i < |targets| && targets[i] == id;
          assert loaded[i].device == id;
        }
        if i :| 0 <= i < |loaded| && loaded[i].device == id {
          assert targets[i] == id;
        }
      }
    }
  }

  // ---------- The notification ----------

  /** A run may start: the row is unlocked and in none of the statuses that forbid it. */
  predicate MayStart(s: NotificationStatus, env: Surroundings) {
    !env.locked && !s.SCHEDULED? && !s.PROCESSING? && !s.SENT? && !s.NO_TARGET?
  }

  /** How far a pass gets, by what it meets in the order of its checks. */
  lemma FateMeaning(s: NotificationStatus, env: Surroundings)
    ensures FateOf(s, env).NotAcquired? <==> !MayStart(s, env)
    ensures FateOf(s, env).Lapsed? <==> MayStart(s, env) && !env.paid
    ensures FateOf(s, env).Postponed? <==>
              MayStart(s, env) && env.paid && Quiet(env.applicationPeriods, env.quietCheckedAt)
    ensures FateOf(s, env).Worked? <==>
              MayStart(s, env) && env.paid && !Quiet(env.applicationPeriods, env.quietCheckedAt)
  {
    EndFromMeaning(env.applicationPeriods, env.quietCheckedAt);
  }

  /** A pass that may not start, or meets a quiet application, leaves the rows alone; in a
      quiet period it puts the notification off to its end. */
  lemma {:induction false} IdlePassMeaning(row: Row, ds: seq<Delivery>, env: Surroundings, devices: map<nat, Device>)
    requires HaveDevices(ds, devices)
    ensures !MayStart(row.status, env) ==>
              RowAfter(row, ds, env, devices) == row && RowsAfter(row.status, ds, env, devices) == ds
    ensures MayStart(row.status, env) && env.paid && Quiet(env.applicationPeriods, env.quietCheckedAt) ==>
              && RowsAfter(row.status, ds, env, devices) == ds
              && RowAfter(row, ds, env, devices) ==
                 Row(SCHEDULED, EndFrom(env.applicationPeriods, env.quietCheckedAt), None, None)
  {
    FateMeaning(row.status, env);
  }

  /** A pass for an owner who does not pay cancels every unsent row and fails. */
  lemma {:induction false} LapsedPassMeaning(row: Row, ds: seq<Delivery>, env: Surroundings, devices: map<nat, Device>)
    requires HaveDevices(ds, devices) && MayStart(row.status, env) && !env.paid
    ensures RowAfter(row, ds, env, devices) == Row(FAILED, row.scheduledFor, None, None)
    ensures |RowsAfter(row.status, ds, env, devices)| == |ds|
    ensures forall i :: 0 <= i < |ds| ==>
              var d := ds[i];
              RowsAfter(row.status, ds, env, devices)[i] ==
              if d.status.Sent? then d
              else Delivery(d.device, Failed, d.attempts, None, Some(env.acquiredAt), d.sentAt)
  {
    FateMeaning(row.status, env);
  }

  /** A working pass keeps the requested date and writes a status that fits the rows. */
  lemma {:induction false} WorkingPassMeaning(row: Row, ds: seq<Delivery>, env: Surroundings, devices: map<nat, Device>)
    requires HaveDevices(ds, devices) && MayStart(row.status, env) && env.paid
    requires !Quiet(env.applicationPeriods, env.quietCheckedAt)
    ensures var r, rows := RowAfter(row, ds, env, devices), RowsAfter(row.status, ds, env, devices);
            && r.scheduledFor == row.scheduledFor && r.processingStartedAt == None
            && r.sentAt == (if r.status.SENT? then Some(env.finishedAt) else None)
            && (r.status.NO_TARGET? <==> Loaded(ds, env, devices) == [])
            && (r.status.SENT? <==> rows != [] && AllSent(rows))
            && (r.status.FAILED? ==> NoneSent(rows))
            && (r.status.NO_TARGET? || r.status.SENT? || r.status.FAILED? || r.status.PARTIAL?)
  {
    FateMeaning(row.status, env);
    if Loaded(ds, env, devices) != [] {
      PassStatusMeaning(Loaded(ds, env, devices), WorkedLooks(ds, env, devices));
    }
  }

  /** The waiting times by number of failures; the last two are never used, because the third
      failure is final. */
  lemma RetryDelayMeaning(attempts: nat)
    ensures RetryDelay(attempts) == if attempts == 1 then 60_000_000 else if attempts == 2 then 300_000_000
                                    else if attempts == 3 then 900_000_000 else 1_800_000_000
  {
  }

  // ---------- Each device ----------

  /** A pass changes a device only if it calls the provider for its row: an acceptance clears
      the failure count, any refusal adds one, and only an invalid token kills the device. */
  lemma {:induction false} WorkedDeviceMeaning(ds: seq<Delivery>, env: Surroundings, devices: map<nat, Device>, i: nat)
    requires HaveDevices(ds, devices) && InDeviceOrder(Loaded(ds, env, devices)) && i < |Loaded(ds, env, devices)|
    ensures var loaded := Loaded(ds, env, devices);
            var id := loaded[i].device;
            var dev, after := devices[id], DevicesAfter(loaded, WorkedLooks(ds, env, devices), devices)[id];
            if !MustBePushed(loaded, i, env, devices) then after == dev
            else match env.outcome(i)
              case Accepted => after == Device(dev.tokenActive, dev.isActive, 0, dev.quietPeriods)
              case InvalidToken => after == Device(false, false, dev.failureCount + 1, dev.quietPeriods)
              case _ => after == Device(dev.tokenActive, dev.isActive, dev.failureCount + 1, dev.quietPeriods)
  {
    var loaded := Loaded(ds, env, devices);
    DevicesAfterMeaning(loaded, WorkedLooks(ds, env, devices), devices, i);
    PushedIff(loaded, i, env, devices);
  }

  // ---------- The result ----------

  lemma {:induction false} TallyIsMultiplicity(vs: seq<Verdict>)
    ensures var t, m := TallyOf(vs), multiset(vs);
            && t.sent == m[WasSent] && t.failed == m[HasFailed] && t.skipped == m[WasSkipped]
            && t.deferred == m[WasDeferred] && t.waiting == m[IsWaiting]
  {
    if vs != [] {
      var k := |vs| - 1;
      TallyIsMultiplicity(vs[..k]);
      assert vs == vs[..k] + [vs[k]];
    }
  }

  function VerdictsOf(ds: seq<Delivery>, env: Surroundings, devices: map<nat, Device>): (vs: seq<Verdict>)
    requires HaveDevices(ds, devices)
    ensures |vs| == |Loaded(ds, env, devices)|
  {
    VerdictsFor(Loaded(ds, env, devices), WorkedLooks(ds, env, devices))
  }

  /** The verdict on row i: sent before, sent now, put off, waiting, or failed. */
  lemma {:induction false} VerdictMeaning(
    status: NotificationStatus, ds: seq<Delivery>, env: Surroundings, devices: map<nat, Device>, i: nat)
    requires HaveDevices(ds, devices) && FateOf(status, env).Worked? && i < |Loaded(ds, env, devices)|
    ensures var d, r := Loaded(ds, env, devices)[i], RowsAfter(status, ds, env, devices)[i];
            var v := VerdictsOf(ds, env, devices)[i];
            && (v == WasSkipped <==> d.status.Sent?)
            && (v == WasSent <==> !d.status.Sent? && r.status.Sent?)
            && (v == IsWaiting <==> !d.status.Sent? && Eligible(d.device, env, devices)
                                    && d.nextRetryAt.Some? && env.lookedAt(i) < d.nextRetryAt.value)
            && (v == WasDeferred <==> !d.status.Sent? && Eligible(d.device, env, devices)
                                      && (d.nextRetryAt.Some? ==> d.nextRetryAt.value <= env.lookedAt(i))
                                      && Quiet(devices[d.device].quietPeriods, env.lookedAt(i)))
  {
    var loaded, looks := Loaded(ds, env, devices), WorkedLooks(ds, env, devices);
    EndFromMeaning(devices[loaded[i].device].quietPeriods, env.lookedAt(i));
    assert RowsAfter(status, ds, env, devices)[i] == After(loaded[i], looks[i]);
  }

  /** The numbers that a pass reports. */
  lemma ResultMeaning(ds: seq<Delivery>, env: Surroundings, devices: map<nat, Device>)
    requires HaveDevices(ds, devices)
    ensures var r := ResultOf(|Loaded(ds, env, devices)|, WorkedTally(ds, env, devices));
            var m := multiset(VerdictsOf(ds, env, devices));
            && r.targetCount == |Loaded(ds, env, devices)|
            && r.sentCount == m[WasSent] && r.failedCount == m[HasFailed] && r.skippedCount == m[WasSkipped]
  {
    TallyIsMultiplicity(VerdictsOf(ds, env, devices));
  }

  /** The rows that a lapsed subscription cancels are counted. */
  lemma {:induction false} UnsentCountMeaning(ds: seq<Delivery>)
    ensures UnsentCount(ds) == |set i | 0 <= i < |ds| && !ds[i].status.Sent?|
  {
    if ds != [] {
      var k := |ds| - 1;
      UnsentCountMeaning(ds[..k]);
      var before := set i | 0 <= i < k && !ds[..k][i].status.Sent?;
      var all := set i | 0 <= i < |ds| && !ds[i].status.Sent?;
      assert all == if ds[k].status.Sent? then before else before + {k};
    }
  }
}
