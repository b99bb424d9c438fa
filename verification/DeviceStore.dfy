/** The endpoints that identify, link and unlink devices, on tables they update in place. */
module DeviceStore {
  import opened Options
  import opened Devices

  // ---------- What each endpoint makes of the tables ----------

  predicate HasToken(db: Database, device: nat, token: string) {
    device in db.devices && db.devices[device].pushToken == token
  }

  ghost function Find(db: Database, token: string): (r: Option<nat>)
    ensures r.Some? ==> HasToken(db, r.value, token)
    ensures r.None? ==> forall d :: !HasToken(db, d, token)
  {
    if d :| HasToken(db, d, token) then Some(d) else None
  }

  /** The previous token names a device of the caller, and the new one no one else's. */
  ghost predicate Rotatable(db: Database, user: nat, data: Data) {
    && data.previousPushToken != "" && data.previousPushToken != data.pushToken
    && Find(db, data.previousPushToken).Some?
    && db.devices[Find(db, data.previousPushToken).value].user == Some(user)
    && (Find(db, data.pushToken).Some? ==>
          db.devices[Find(db, data.pushToken).value].user in {None, Some(user)})
  }

  function WithToken(db: Database, device: nat, token: string): Database
    requires device in db.devices
  {
    db.(devices := db.devices[device := db.devices[device].(pushToken := token)])
  }

  ghost function Rotated(db: Database, user: nat, data: Data, now: int): Database
    requires Rotatable(db, user, data)
  {
    var old' := Find(db, data.previousPushToken).value;
    var clash := Find(db, data.pushToken);
    var merged := if clash.Some? then Merged(db, clash.value, old') else db;
    FieldsApplied(WithToken(merged, old', data.pushToken), old', user, data, now)
  }

  function BlankDevice(token: string): Device {
    Device(None, token, "", "", Active, true, 0, None, 0)
  }

  /** The identify upsert: rotation, else update (and takeover), else a new device. */
  ghost function Identified(db: Database, user: nat, data: Data, newId: nat, now: int): Database {
    if Rotatable(db, user, data) then Rotated(db, user, data, now)
    else
      var found := Find(db, data.pushToken);
      if found.Some? then FieldsApplied(db, found.value, user, data, now)
      else FieldsApplied(db.(devices := db.devices[newId := BlankDevice(data.pushToken)]), newId, user, data, now)
  }

  ghost function IdentifiedDevice(db: Database, user: nat, data: Data, newId: nat): nat {
    if Rotatable(db, user, data) then Find(db, data.previousPushToken).value
    else if Find(db, data.pushToken).Some? then Find(db, data.pushToken).value
    else newId
  }

  predicate IsLink(db: Database, l: nat, device: nat, application: nat) {
    l in db.links && db.links[l].device == device && db.links[l].application == application
  }

  ghost function FindLink(db: Database, device: nat, application: nat): (r: Option<nat>)
    ensures r.Some? ==> IsLink(db, r.value, device, application)
    ensures r.None? ==> forall l :: !IsLink(db, l, device, application)
  {
    if l :| IsLink(db, l, device, application) then Some(l) else None
  }

  /** Get-or-create of a link, with reactivation. */
  ghost function Linked(db: Database, device: nat, user: nat, application: nat, newLink: nat): Database {
    var found := FindLink(db, device, application);
    if found.None? then db.(links := db.links[newLink := Link(device, application, true, None, None, user)])
    else if db.links[found.value].isActive then db
    else db.(links := db.links[found.value := Reactivated(db.links[found.value], user)])
  }

  /** Ends the active link of a device to an application, if there is one. */
  ghost function LinkEnded(db: Database, device: nat, application: nat, source: UnlinkSource, now: int): Database {
    var found := FindLink(db, device, application);
    if found.None? || !db.links[found.value].isActive then db
    else db.(links := db.links[found.value := Deactivated(db.links[found.value], now, source)])
  }

  ghost function Unlinked(db: Database, user: nat, token: string, application: nat, source: UnlinkSource, now: int)
    : Database {
    var found := Find(db, token);
    if found.None? || db.devices[found.value].user != Some(user) then db
    else LinkEnded(db, found.value, application, source, now)
  }

  lemma FindIsTheDevice(db: Database, d: nat, token: string)
    requires TokensUnique(db.devices) && HasToken(db, d, token)
    ensures Find(db, token) == Some(d)
  {
  }

  lemma FindLinkIsTheLink(db: Database, l: nat, device: nat, application: nat)
    requires LinksUnique(db.links) && IsLink(db, l, device, application)
    ensures FindLink(db, device, application) == Some(l)
  {
  }

  // ---------- The tables ----------

  class Store {
    var devices: map<nat, Device>
    var links: map<nat, Link>
    var deliveries: map<nat, Delivery>
    var quietPeriods: map<nat, nat>

    function View(): Database
      reads this
    {
      Database(devices, links, deliveries, quietPeriods)
    }

    /** The row of a token. */
    method SelectExistingDevice(token: string) returns (r: Option<nat>)
      requires TokensUnique(devices)
      ensures r == Find(View(), token)
    {
      if d :| d in devices && devices[d].pushToken == token {
        FindIsTheDevice(View(), d, token);
        return Some(d);
      }
      assert forall d :: !HasToken(View(), d, token);
      return None;
    }

    method ApplyDeviceFields(device: nat, user: nat, data: Data, now: int)
      requires device in devices
      modifies this`devices, this`links
      ensures View() == FieldsApplied(old(View()), device, user, data, now)
    {
      var d := devices[device];
      if d.user.Some? && d.user.value != user {
        links := TakenOver(links, device, now);
      }
      d := d.(user := Some(user));
      d := d.(name := data.deviceName);
      d := d.(platform := data.platform);
      d := d.(tokenStatus := Active);
      d := d.(isActive := true);
      d := d.(invalidatedAt := None);
      d := d.(failureCount := 0);
      d := d.(lastSeenAt := now);
      devices := devices[device := d];
    }

    /** The loop over the source's links. */
    method MergeLinks(source: nat, target: nat)
      requires source != target && LinksUnique(links)
      modifies this`links
      ensures links == MergedLinks(old(links), source, target, LinksOf(old(links), source))
    {
      ghost var before := links;
      var todo := LinksOf(links, source);
      // the dictionary built before the loop: the target's link of each application
      var targetLinks := map l | l in links && links[l].device == target :: links[l].application;
      ghost var done: set<nat> := {};
      while todo != {}
        invariant done + todo == LinksOf(before, source) && done !! todo
        invariant links == MergedLinks(before, source, target, done)
        decreases todo
      {
        var l :| l in todo;
        MergeLinkUntouchedYet(before, links, source, target, done, l);
        if k :| k in targetLinks && targetLinks[k] == links[l].application {
          MergeClashingLink(before, links, source, target, done, l, k);
          if links[l].isActive && !links[k].isActive {
            links := links[k := Reactivated(links[k], links[l].activatedBy)];
          }
        } else {
          assert forall k :: k in before && before[k].device == target ==>
                   k in targetLinks && targetLinks[k] == before[k].application;
          MergeFreeLink(before, links, source, target, done, l);
          links := links[l := links[l].(device := target)];
        }
        done, todo := done + {l}, todo - {l};
      }
    }

    method MergeDeviceInto(source: nat, target: nat)
      requires Valid(View()) && source in devices && target in devices && source != target
      modifies this
      ensures View() == Merged(old(View()), source, target)
    {
      MergeLinks(source, target);
      deliveries := MovedDeliveries(deliveries, source, target);
      quietPeriods := MovedPeriods(quietPeriods, source, target);
      DeleteDevice(source);
    }

    method DeleteDevice(device: nat)
      modifies this
      ensures View() == Deleted(old(View()), device)
    {
      devices := devices - {device};
      links := map l | l in links && links[l].device != device :: links[l];
      deliveries := map d | d in deliveries && deliveries[d].device != device :: deliveries[d];
      quietPeriods := map q | q in quietPeriods && quietPeriods[q] != device :: quietPeriods[q];
    }

    method RotatePushToken(user: nat, data: Data, now: int) returns (r: Option<nat>)
      requires Valid(View())
      modifies this
      ensures r.Some? <==> Rotatable(old(View()), user, data)
      ensures r.Some? ==> r == Find(old(View()), data.previousPushToken)
                          && View() == Rotated(old(View()), user, data, now)
      ensures r.None? ==> View() == old(View())
    {
      if data.previousPushToken == "" || data.previousPushToken == data.pushToken {
        return None;
      }
      var old' := SelectExistingDevice(data.previousPushToken);
      if old'.None? || devices[old'.value].user != Some(user) {
        return None;
      }
      var clash := SelectExistingDevice(data.pushToken);
      if clash.Some? {
        if devices[clash.value].user != None && devices[clash.value].user != Some(user) {
          return None;
        }
        MergeDeviceInto(clash.value, old'.value);
      }
      devices := devices[old'.value := devices[old'.value].(pushToken := data.pushToken)];
      ApplyDeviceFields(old'.value, user, data, now);
      return old';
    }

    /** The upsert; `rival` is the owner of a row that another request commits for the same
        token between the lookup and the insert, which then fails on the unique token. */
    method UpsertAuthenticatedDevice(user: nat, data: Data, newId: nat, now: int, rival: Option<(nat, Device)>)
      returns (device: nat, created: bool)
      requires Valid(View()) && newId !in devices
      requires rival.Some? ==>
                 rival.value.0 !in devices && rival.value.0 != newId && rival.value.1.pushToken == data.pushToken
      modifies this
      ensures var seen := if rival.Some? && !Rotatable(old(View()), user, data)
                             && Find(old(View()), data.pushToken).None?
                          then old(View()).(devices := old(devices)[rival.value.0 := rival.value.1])
                          else old(View());
              && View() == Identified(seen, user, data, newId, now)
              && device == IdentifiedDevice(seen, user, data, newId)
              && (created <==> device == newId)
    {
      var rotated := RotatePushToken(user, data, now);
      if rotated.Some? {
        return rotated.value, false;
      }
      var existing := SelectExistingDevice(data.pushToken);
      if existing.Some? {
        ApplyDeviceFields(existing.value, user, data, now);
        return existing.value, false;
      }
      if rival.Some? {
        ghost var before := View();
        devices := devices[rival.value.0 := rival.value.1];
        // the insert fails; the row is fetched again and updated
        RivalIsNotRotatable(before, user, data, rival.value.0, rival.value.1);
        existing := SelectExistingDevice(data.pushToken);
        assert HasToken(View(), rival.value.0, data.pushToken);
        ApplyDeviceFields(existing.value, user, data, now);
        return existing.value, false;
      }
      devices := devices[newId := BlankDevice(data.pushToken)];
      ApplyDeviceFields(newId, user, data, now);
      return newId, true;
    }

    /** Get-or-create of the link after the upsert. */
    method LinkToApplication(device: nat, user: nat, application: nat, newLink: nat) returns (created: bool)
      requires LinksUnique(links) && newLink !in links
      modifies this`links
      ensures View() == Linked(old(View()), device, user, application, newLink)
      ensures created <==> FindLink(old(View()), device, application).None?
    {
      if l :| l in links && links[l].device == device && links[l].application == application {
        FindLinkIsTheLink(View(), l, device, application);
        if !links[l].isActive {
          links := links[l := Reactivated(links[l], user)];
        }
        return false;
      }
      assert forall l :: !IsLink(View(), l, device, application);
      links := links[newLink := Link(device, application, true, None, None, user)];
      return true;
    }

    /** Unlink by push token, from the device itself or from its inbox. */
    method UnlinkFromApplication(user: nat, token: string, application: nat, source: UnlinkSource, now: int)
      returns (unlinked: bool)
      requires Valid(View())
      modifies this`links
      ensures View() == Unlinked(old(View()), user, token, application, source, now)
      ensures unlinked <==> View() != old(View())
    {
      unlinked := false;
      var device := SelectExistingDevice(token);
      if device.Some? && devices[device.value].user == Some(user) {
        var found;
        found, unlinked := EndLink(device.value, application, source, now);
      }
    }

    /** Sets the audit on the link of a device to an application, if it is active; a device
        that was never linked is told apart. */
    method EndLink(device: nat, application: nat, source: UnlinkSource, now: int) returns (found: bool, ended: bool)
      requires LinksUnique(links)
      modifies this`links
      ensures View() == LinkEnded(old(View()), device, application, source, now)
      ensures found <==> FindLink(old(View()), device, application).Some?
      ensures ended <==> View() != old(View())
    {
      if l :| l in links && links[l].device == device && links[l].application == application {
        FindLinkIsTheLink(View(), l, device, application);
        if links[l].isActive {
          ghost var before := links[l];
          links := links[l := Deactivated(links[l], now, source)];
          assert links[l] != before;
          return true, true;
        }
        return true, false;
      }
      assert forall l :: !IsLink(View(), l, device, application);
      return false, false;
    }
  }

  /** The loop of a merge has handled the links in `done` and comes to link l. */
  ghost predicate MergingLink(before: map<nat, Link>, links: map<nat, Link>, source: nat, target: nat,
                              done: set<nat>, l: nat) {
    && source != target && LinksUnique(before)
    && links == MergedLinks(before, source, target, done)
    && done <= LinksOf(before, source) && l in LinksOf(before, source) && l !in done
  }

  lemma MergeLinkUntouchedYet(before: map<nat, Link>, links: map<nat, Link>, source: nat, target: nat,
                              done: set<nat>, l: nat)
    requires MergingLink(before, links, source, target, done, l)
    ensures l in links && links[l] == before[l]
  {
  }

  lemma MergeFreeLink(before: map<nat, Link>, links: map<nat, Link>, source: nat, target: nat,
                      done: set<nat>, l: nat)
    requires MergingLink(before, links, source, target, done, l) && !Clashes(before, source, target, l)
    ensures MergedLinks(before, source, target, done + {l}) == links[l := before[l].(device := target)]
  {
  }

  lemma MergeClashingLink(before: map<nat, Link>, links: map<nat, Link>, source: nat, target: nat,
                          done: set<nat>, l: nat, k: nat)
    requires MergingLink(before, links, source, target, done, l)
    requires k in before && before[k].device == target && before[k].application == before[l].application
    ensures k in links && links[k] == before[k]
    ensures MergedLinks(before, source, target, done + {l}) ==
            if before[l].isActive && !before[k].isActive
            then links[k := Reactivated(before[k], before[l].activatedBy)] else links
  {
  }

  /** A rival's row for the new token does not make the rotation possible. */
  lemma RivalIsNotRotatable(db: Database, user: nat, data: Data, id: nat, d: Device)
    requires TokensUnique(db.devices) && !Rotatable(db, user, data) && Find(db, data.pushToken).None?
    requires id !in db.devices && d.pushToken == data.pushToken
    ensures var seen := db.(devices := db.devices[id := d]);
            TokensUnique(seen.devices) && !Rotatable(seen, user, data) && Find(seen, data.pushToken) == Some(id)
  {
    var seen := db.(devices := db.devices[id := d]);
    assert forall e :: e in db.devices ==> !HasToken(db, e, data.pushToken);
    FindIsTheDevice(seen, id, data.pushToken);
    var old' := Find(seen, data.previousPushToken);
    if old'.Some? && data.previousPushToken != data.pushToken {
      assert HasToken(db, old'.value, data.previousPushToken);
      FindIsTheDevice(db, old'.value, data.previousPushToken);
    }
  }
}
