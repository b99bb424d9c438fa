/** Every history of device requests: what it keeps, and what a takeover ends. */
module DeviceHistory {
  import opened Options
  import opened Devices
  import opened DeviceStore

  /** What the endpoints commit, one transaction each. The link endpoint commits twice: it
      identifies, and later links the device it got, whatever happened to it in between. */
  datatype Request =
    | Identify(user: nat, data: Data, newId: nat, now: int)
    | AddLink(device: nat, user: nat, application: nat, newLink: nat)
    | Unlink(user: nat, token: string, application: nat, source: UnlinkSource, now: int)
    | Evict(device: nat, application: nat, now: int)
    | Invalidate(device: nat, now: int)
    | DeleteDevice(device: nat)
    | ForgetOwner(device: nat)

  /** New rows get ids that are not in use. */
  predicate FreshIds(db: Database, r: Request) {
    && (r.Identify? ==> r.newId !in db.devices)
    && (r.AddLink? ==> r.newLink !in db.links)
  }

  ghost function Served(db: Database, r: Request): Database {
    match r
    case Identify(user, data, newId, now) => Identified(db, user, data, newId, now)
    case AddLink(device, user, application, newLink) =>
      if device !in db.devices then db else Linked(db, device, user, application, newLink)
    case Unlink(user, token, application, source, now) => Unlinked(db, user, token, application, source, now)
    case Evict(device, application, now) => LinkEnded(db, device, application, OwnerEviction, now)
    case Invalidate(device, now) =>
      if device !in db.devices then db
      else db.(devices := db.devices[device := db.devices[device].(
                                       tokenStatus := Invalid, isActive := false, invalidatedAt := Some(now))])
    case DeleteDevice(device) => Deleted(db, device)
    case ForgetOwner(device) =>
      if device !in db.devices then db
      else db.(devices := db.devices[device := db.devices[device].(user := None)])
  }

  const EMPTY := Database(map[], map[], map[], map[])

  ghost predicate History(dbs: seq<Database>, rs: seq<Request>) {
    && |dbs| == |rs| + 1 && dbs[0] == EMPTY
    && forall i :: 0 <= i < |rs| ==> FreshIds(dbs[i], rs[i]) && dbs[i + 1] == Served(dbs[i], rs[i])
  }

  lemma HistoryExtends(dbs: seq<Database>, rs: seq<Request>, r: Request)
    requires History(dbs, rs) && FreshIds(dbs[|rs|], r)
    ensures History(dbs + [Served(dbs[|rs|], r)], rs + [r])
  {
  }

  // ---------- The constraints ----------

  lemma FieldsAppliedKeepsValid(db: Database, device: nat, user: nat, data: Data, now: int)
    requires Valid(db) && device in db.devices
    ensures Valid(FieldsApplied(db, device, user, data, now))
  {
  }

  lemma WithTokenKeepsValid(db: Database, device: nat, token: string)
    requires Valid(db) && device in db.devices
    requires forall d :: HasToken(db, d, token) ==> d == device
    ensures Valid(WithToken(db, device, token))
  {
    assert forall d :: d in db.devices && db.devices[d].pushToken == token ==> HasToken(db, d, token);
  }

  lemma {:induction false} RotatedKeepsValid(db: Database, user: nat, data: Data, now: int)
    requires Valid(db) && Rotatable(db, user, data)
    ensures Valid(Rotated(db, user, data, now))
  {
    var old' := Find(db, data.previousPushToken).value;
    var clash := Find(db, data.pushToken);
    var merged := db;
    if clash.Some? {
      MergeConserves(db, clash.value, old');
      merged := Merged(db, clash.value, old');
      assert forall d :: d in db.devices && d != clash.value ==> !HasToken(db, d, data.pushToken);
    }
    WithTokenKeepsValid(merged, old', data.pushToken);
    FieldsAppliedKeepsValid(WithToken(merged, old', data.pushToken), old', user, data, now);
  }

  lemma {:induction false} IdentifiedKeepsValid(db: Database, user: nat, data: Data, newId: nat, now: int)
    requires Valid(db) && newId !in db.devices
    ensures Valid(Identified(db, user, data, newId, now))
    ensures IdentifiedDevice(db, user, data, newId) in Identified(db, user, data, newId, now).devices
  {
    if Rotatable(db, user, data) {
      RotatedKeepsValid(db, user, data, now);
    } else if Find(db, data.pushToken).Some? {
      FieldsAppliedKeepsValid(db, Find(db, data.pushToken).value, user, data, now);
    } else {
      var db1 := db.(devices := db.devices[newId := BlankDevice(data.pushToken)]);
      assert Valid(db1) by {
        assert forall d :: d in db.devices ==> !HasToken(db, d, data.pushToken);
      }
      FieldsAppliedKeepsValid(db1, newId, user, data, now);
    }
  }

  lemma LinkedKeepsValid(db: Database, device: nat, user: nat, application: nat, newLink: nat)
    requires Valid(db) && device in db.devices && newLink !in db.links
    ensures Valid(Linked(db, device, user, application, newLink))
  {
    var found := FindLink(db, device, application);
    if found.None? {
      assert forall l :: l in db.links ==> !IsLink(db, l, device, application);
    }
  }

  lemma LinkEndedKeepsValid(db: Database, device: nat, application: nat, source: UnlinkSource, now: int)
    requires Valid(db)
    ensures Valid(LinkEnded(db, device, application, source, now))
  {
  }

  lemma {:induction false} ServedKeepsValid(db: Database, r: Request)
    requires Valid(db) && FreshIds(db, r)
    ensures Valid(Served(db, r))
  {
    match r
    case Identify(user, data, newId, now) => IdentifiedKeepsValid(db, user, data, newId, now);
    case AddLink(device, user, application, newLink) =>
      if device in db.devices {
        LinkedKeepsValid(db, device, user, application, newLink);
      }
    case Unlink(user, token, application, source, now) =>
      if Find(db, token).Some? {
        LinkEndedKeepsValid(db, Find(db, token).value, application, source, now);
      }
    case Evict(device, application, now) => LinkEndedKeepsValid(db, device, application, OwnerEviction, now);
    case Invalidate(device, now) =>
    case DeleteDevice(device) =>
    case ForgetOwner(device) =>
  }

  /** Over any history of requests: push tokens are unique, a device has at most one link per
      application and one row per notification, a link is active exactly when it carries no
      unlink audit, and every row refers to a stored device. */
  lemma {:induction false} HistoryKeepsConstraints(dbs: seq<Database>, rs: seq<Request>, i: nat)
    requires History(dbs, rs) && i < |dbs|
    ensures Valid(dbs[i])
  {
    if i > 0 {
      HistoryKeepsConstraints(dbs, rs, i - 1);
      ServedKeepsValid(dbs[i - 1], rs[i - 1]);
    }
  }

  // ---------- Takeover ----------

  /** Every active link of an owned device was activated on behalf of its present owner. */
  ghost predicate Truthful(db: Database) {
    forall l :: l in db.links && db.links[l].isActive && db.links[l].device in db.devices
                && db.devices[db.links[l].device].user.Some? ==>
      db.devices[db.links[l].device].user.value == db.links[l].activatedBy
  }

  /** An active link of a device, activated for someone else. */
  predicate IsForeign(db: Database, device: nat, user: nat, l: nat) {
    l in db.links && db.links[l].device == device && db.links[l].isActive && db.links[l].activatedBy != user
  }

  /** ... to an application that the device it is merged into is not linked to. */
  ghost predicate IsForeignAndNew(db: Database, source: nat, target: nat, user: nat, l: nat) {
    IsForeign(db, source, user, l) && !LinkedTo(db, target, db.links[l].application)
  }

  /** The row of the identified token has no owner and carries an active link that had been
      activated for someone else; when the token is rotated onto a device of the caller, a
      link to an application that this device is not linked to. */
  ghost predicate Inherits(db: Database, user: nat, data: Data) {
    var found := Find(db, data.pushToken);
    && found.Some? && db.devices[found.value].user.None?
    && if Rotatable(db, user, data)
       then exists l :: IsForeignAndNew(db, found.value, Find(db, data.previousPushToken).value, user, l)
       else exists l :: IsForeign(db, found.value, user, l)
  }

  lemma ForeignLinkSurvivesMerge(db: Database, source: nat, target: nat, user: nat, l: nat)
    requires Valid(db) && source != target && IsForeignAndNew(db, source, target, user, l)
    ensures exists k :: IsForeign(Merged(db, source, target), target, user, k)
  {
    var db' := Merged(db, source, target);
    var application := db.links[l].application;
    if Clashes(db.links, source, target, l) {
      var k :| k in db.links && db.links[k].device == target && db.links[k].application == application;
      assert !db.links[k].isActive by {
        if db.links[k].isActive {
          assert ActiveLink(db, k, target, application);
        }
      }
      var twin := ActiveLinkOf(db.links, source, application).value;
      assert SameLink(db.links[twin], db.links[l]);
      assert db'.links[k] == Reactivated(db.links[k], db.links[l].activatedBy);
      assert IsForeign(db', target, user, k);
    } else {
      assert db'.links[l] == db.links[l].(device := target);
      assert IsForeign(db', target, user, l);
    }
  }

  lemma ForeignLinkOfMerge(db: Database, source: nat, target: nat, user: nat, k: nat)
    requires Valid(db) && source != target && IsForeign(Merged(db, source, target), target, user, k)
    ensures IsForeign(db, target, user, k) || exists l :: IsForeignAndNew(db, source, target, user, l)
  {
    var merged := MergedLink(db.links, source, target, LinksOf(db.links, source), k);
    assert Merged(db, source, target).links[k] == merged;
    var application := db.links[k].application;
    if db.links[k].device == source {
      assert forall x :: !ActiveLink(db, x, target, application);
      assert IsForeignAndNew(db, source, target, user, k);
    } else if !db.links[k].isActive {
      var twin := ActiveLinkOf(db.links, source, application).value;
      forall x ensures !ActiveLink(db, x, target, application) {
        assert ActiveLink(db, x, target, application) ==> SameLink(db.links[x], db.links[k]);
      }
      assert IsForeignAndNew(db, source, target, user, twin);
    }
  }

  /** A merge into a device of the user is truthful exactly when it brings no foreign link. */
  lemma MergeIsTruthfulIff(db: Database, source: nat, target: nat, user: nat)
    requires Valid(db) && Truthful(db) && source != target && target in db.devices
    requires db.devices[target].user == Some(user)
    ensures Truthful(Merged(db, source, target)) <==> !exists l :: IsForeignAndNew(db, source, target, user, l)
  {
    var db' := Merged(db, source, target);
    if l :| IsForeignAndNew(db, source, target, user, l) {
      ForeignLinkSurvivesMerge(db, source, target, user, l);
      var k :| IsForeign(db', target, user, k);
      assert target in db'.devices && db'.devices[target].user == Some(user);
    } else {
      forall k ensures !IsForeign(db', target, user, k) {
        assert !IsForeign(db, target, user, k);
        if IsForeign(db', target, user, k) {
          ForeignLinkOfMerge(db, source, target, user, k);
        }
      }
      TruthOfMerge(db, source, target, user);
    }
  }

  lemma TruthOfMerge(db: Database, source: nat, target: nat, user: nat)
    requires Truthful(db) && source != target && target in db.devices && db.devices[target].user == Some(user)
    requires forall k :: !IsForeign(Merged(db, source, target), target, user, k)
    ensures Truthful(Merged(db, source, target))
  {
    var db' := Merged(db, source, target);
    forall k | k in db'.links && db'.links[k].isActive && db'.links[k].device in db'.devices
               && db'.devices[db'.links[k].device].user.Some?
      ensures db'.devices[db'.links[k].device].user.value == db'.links[k].activatedBy
    {
      if db'.links[k].device == target {
        assert !IsForeign(db', target, user, k);
      } else {
        MergedLinkOrigin(db, source, target, k);
        assert db'.links[k] == db.links[k];
      }
    }
  }

  /** Writing the fields of a device that is the user's, another's or nobody's. */
  lemma FieldsAppliedIsTruthfulIff(db: Database, device: nat, user: nat, data: Data, now: int)
    requires Truthful(db) && device in db.devices
    ensures Truthful(FieldsApplied(db, device, user, data, now)) <==>
              !(db.devices[device].user.None? && exists l :: IsForeign(db, device, user, l))
  {
    var db' := FieldsApplied(db, device, user, data, now);
    if db.devices[device].user.None? && exists l :: IsForeign(db, device, user, l) {
      var l :| IsForeign(db, device, user, l);
      assert db'.links[l].device in db'.devices && db'.devices[device].user == Some(user);
    } else {
      forall l | l in db'.links && db'.links[l].isActive && db'.links[l].device in db'.devices
                 && db'.devices[db'.links[l].device].user.Some?
        ensures db'.devices[db'.links[l].device].user.value == db'.links[l].activatedBy
      {
        assert db.devices[device].user.None? ==> db'.links[l] == db.links[l] && !IsForeign(db, device, user, l);
      }
    }
  }

  /** Of a device that is the user's already, only fields change. */
  lemma OwnFieldsKeepTruth(db: Database, device: nat, user: nat, data: Data, now: int)
    requires device in db.devices && db.devices[device].user == Some(user)
    ensures Truthful(FieldsApplied(WithToken(db, device, data.pushToken), device, user, data, now)) <==> Truthful(db)
  {
    var db' := FieldsApplied(WithToken(db, device, data.pushToken), device, user, data, now);
    assert db'.links == db.links;
    assert forall d :: d in db.devices <==> d in db'.devices;
    assert forall d :: d in db.devices ==> db'.devices[d].user == db.devices[d].user;
  }

  /** After one identification, by rotation or not, every active link of an owned device was
      activated for its owner, exactly when the caller inherits no link of an ownerless row. */
  lemma {:induction false} IdentifyIsTruthfulIff(db: Database, user: nat, data: Data, newId: nat, now: int)
    requires Valid(db) && Truthful(db) && newId !in db.devices
    ensures Truthful(Identified(db, user, data, newId, now)) <==> !Inherits(db, user, data)
  {
    var found := Find(db, data.pushToken);
    if Rotatable(db, user, data) {
      var device := Find(db, data.previousPushToken).value;
      OwnFieldsKeepTruth(MergedForRotation(db, user, data), device, user, data, now);
      if found.Some? {
        MergeIsTruthfulIff(db, found.value, device, user);
        if db.devices[found.value].user.Some? {
          OwnRowBringsNothing(db, found.value, device, user);
        }
      }
    } else if found.Some? {
      FieldsAppliedIsTruthfulIff(db, found.value, user, data, now);
    } else {
      var db1 := db.(devices := db.devices[newId := BlankDevice(data.pushToken)]);
      assert Truthful(db1);
      FieldsAppliedIsTruthfulIff(db1, newId, user, data, now);
      assert forall l :: !IsForeign(db1, newId, user, l);
    }
  }

  lemma OwnRowBringsNothing(db: Database, source: nat, target: nat, user: nat)
    requires Truthful(db) && source in db.devices && db.devices[source].user == Some(user)
    ensures !exists l :: IsForeignAndNew(db, source, target, user, l)
  {
  }

  /** The link is created or revived on a device that has become another user's meanwhile. */
  ghost predicate LinksLate(db: Database, device: nat, user: nat, application: nat) {
    && device in db.devices && db.devices[device].user.Some? && db.devices[device].user.value != user
    && !LinkedTo(db, device, application)
  }

  /** Linking a device keeps truth exactly when it is not late. */
  lemma {:induction false} LinkIsTruthfulIff(db: Database, device: nat, user: nat, application: nat, newLink: nat)
    requires Valid(db) && Truthful(db) && device in db.devices && newLink !in db.links
    ensures Truthful(Linked(db, device, user, application, newLink)) <==> !LinksLate(db, device, user, application)
  {
    var db' := Linked(db, device, user, application, newLink);
    var found := FindLink(db, device, application);
    var l := if found.Some? then found.value else newLink;
    if found.Some? && db.links[l].isActive {
      assert ActiveLink(db, l, device, application);
    } else {
      forall k ensures !ActiveLink(db, k, device, application) {
        assert k in db.links && found.Some? && SameLink(db.links[k], db.links[l]) ==> k == l;
        assert found.None? ==> !IsLink(db, k, device, application);
      }
      assert db'.links[l].isActive && db'.links[l].device == device && db'.links[l].activatedBy == user;
      assert forall k :: k in db'.links && k != l ==> k in db.links && db'.links[k] == db.links[k];
    }
  }

  /** The two ways a request lets a link outlive the ownership under which it was activated. */
  ghost predicate Misattributes(db: Database, r: Request) {
    || (r.Identify? && Inherits(db, r.user, r.data))
    || (r.AddLink? && LinksLate(db, r.device, r.user, r.application))
  }

  lemma ServedIsTruthfulIff(db: Database, r: Request)
    requires Valid(db) && Truthful(db) && FreshIds(db, r)
    ensures Truthful(Served(db, r)) <==> !Misattributes(db, r)
  {
    match r
    case Identify(user, data, newId, now) => IdentifyIsTruthfulIff(db, user, data, newId, now);
    case AddLink(device, user, application, newLink) =>
      if device in db.devices {
        LinkIsTruthfulIff(db, device, user, application, newLink);
      }
    case Unlink(_, _, _, _, _) =>
    case Evict(_, _, _) =>
    case Invalidate(_, _) =>
    case DeleteDevice(_) =>
    case ForgetOwner(_) =>
  }

  lemma {:induction false} TruthfulHolds(dbs: seq<Database>, rs: seq<Request>, i: nat)
    requires History(dbs, rs) && i < |dbs|
    requires forall k :: 0 <= k < |rs| ==> !Misattributes(dbs[k], rs[k])
    ensures Truthful(dbs[i])
  {
    if i > 0 {
      TruthfulHolds(dbs, rs, i - 1);
      HistoryKeepsConstraints(dbs, rs, i - 1);
      ServedIsTruthfulIff(dbs[i - 1], rs[i - 1]);
    }
  }

  /** Over a whole history: nothing activated under a previous owner is ever active under the
      present one, exactly when no identification inherits a link of an ownerless row and no
      link request comes late. */
  lemma {:induction false} LinksBelongToOwnersIff(dbs: seq<Database>, rs: seq<Request>)
    requires History(dbs, rs)
    ensures (forall i :: 0 <= i < |dbs| ==> Truthful(dbs[i]))
            <==> (forall i :: 0 <= i < |rs| ==> !Misattributes(dbs[i], rs[i]))
  {
    if forall i :: 0 <= i < |rs| ==> !Misattributes(dbs[i], rs[i]) {
      forall i | 0 <= i < |dbs| ensures Truthful(dbs[i]) {
        TruthfulHolds(dbs, rs, i);
      }
    }
    if forall i :: 0 <= i < |dbs| ==> Truthful(dbs[i]) {
      forall i | 0 <= i < |rs| ensures !Misattributes(dbs[i], rs[i]) {
        HistoryKeepsConstraints(dbs, rs, i);
        assert Truthful(dbs[i]) && Truthful(dbs[i + 1]);
        ServedIsTruthfulIff(dbs[i], rs[i]);
      }
    }
  }

  ghost predicate AllOwned(db: Database) {
    forall d :: d in db.devices ==> db.devices[d].user.Some?
  }

  lemma ServedKeepsOwned(db: Database, r: Request)
    requires AllOwned(db) && !r.ForgetOwner?
    ensures AllOwned(Served(db, r))
  {
    if r.Identify? {
      IdentifiedKeepsOwned(db, r.user, r.data, r.newId, r.now);
    }
  }

  lemma IdentifiedKeepsOwned(db: Database, user: nat, data: Data, newId: nat, now: int)
    requires AllOwned(db)
    ensures AllOwned(Identified(db, user, data, newId, now))
  {
    if Rotatable(db, user, data) {
      var merged := MergedForRotation(db, user, data);
      assert AllOwned(merged) && Identified(db, user, data, newId, now).devices.Keys == merged.devices.Keys;
    }
  }

  /** As long as no device loses its owner and no link request comes late, every device is
      owned and every active link was activated by its present owner: nothing activated under
      a previous owner survives. */
  lemma {:induction false} NoLinkSurvivesItsOwner(dbs: seq<Database>, rs: seq<Request>, i: nat)
    requires History(dbs, rs) && i < |dbs|
    requires forall k :: 0 <= k < |rs| ==> !rs[k].ForgetOwner?
    requires forall k :: 0 <= k < |rs| && rs[k].AddLink? ==>
               !LinksLate(dbs[k], rs[k].device, rs[k].user, rs[k].application)
    ensures Truthful(dbs[i]) && AllOwned(dbs[i])
  {
    if i > 0 {
      NoLinkSurvivesItsOwner(dbs, rs, i - 1);
      HistoryKeepsConstraints(dbs, rs, i - 1);
      ServedKeepsOwned(dbs[i - 1], rs[i - 1]);
      ServedIsTruthfulIff(dbs[i - 1], rs[i - 1]);
    }
  }

  lemma PlainTakeover(db: Database, user: nat, data: Data, newId: nat, now: int, l: nat)
    requires Valid(db) && Find(db, data.pushToken).Some? && !Rotatable(db, user, data)
    requires l in db.links && db.links[l].device == Find(db, data.pushToken).value && db.links[l].isActive
    ensures var db' := Identified(db, user, data, newId, now);
            var found := Find(db, data.pushToken).value;
            && l in db'.links
            && (db'.links[l].isActive <==> db.devices[found].user in {None, Some(user)})
            && (!db'.links[l].isActive ==> db'.links[l].unlinkSource == Some(Takeover))
            && (LinkedTo(db', found, db.links[l].application) <==> db'.links[l].isActive)
  {
    var db' := Identified(db, user, data, newId, now);
    var found := Find(db, data.pushToken).value;
    var application := db.links[l].application;
    assert db' == FieldsApplied(db, found, user, data, now);
    if db'.links[l].isActive {
      assert ActiveLink(db', l, found, application);
    } else {
      forall k ensures !ActiveLink(db', k, found, application) {
        assert k in db.links && SameLink(db.links[k], db.links[l]) ==> k == l;
      }
    }
  }

  /** What an identification makes of an application that the row of the token is linked to,
      by rotation or not: the identified device is linked to it exactly when that row was
      the caller's own or had no owner. Without rotation a link that ends says so. */
  lemma {:induction false} TakeoverEndsLinksIffOwnedByAnother(
    db: Database, user: nat, data: Data, newId: nat, now: int, l: nat)
    requires Valid(db) && newId !in db.devices && Find(db, data.pushToken).Some?
    requires l in db.links && db.links[l].device == Find(db, data.pushToken).value && db.links[l].isActive
    ensures LinkedTo(Identified(db, user, data, newId, now), IdentifiedDevice(db, user, data, newId),
                     db.links[l].application)
            <==> db.devices[Find(db, data.pushToken).value].user in {None, Some(user)}
    ensures var db' := Identified(db, user, data, newId, now);
            !Rotatable(db, user, data) ==>
              && l in db'.links
              && (db'.links[l].isActive <==> db.devices[Find(db, data.pushToken).value].user in {None, Some(user)})
              && (!db'.links[l].isActive ==> db'.links[l].unlinkSource == Some(Takeover))
  {
    var found := Find(db, data.pushToken).value;
    var application := db.links[l].application;
    assert ActiveLink(db, l, found, application);
    if Rotatable(db, user, data) {
      RotationUnitesApplications(db, user, data, now, application);
    } else {
      PlainTakeover(db, user, data, newId, now, l);
    }
  }

  /** A device whose owner was forgotten is taken over with its links still active. */
  lemma ForgottenOwnerKeepsLinks(token: string, first: nat, second: nat, application: nat)
    returns (dbs: seq<Database>, rs: seq<Request>)
    requires first != second
    ensures History(dbs, rs) && |rs| == 4 && rs[2] == ForgetOwner(0)
    ensures 0 in dbs[4].devices && dbs[4].devices[0].user == Some(second)
    ensures 0 in dbs[4].links && dbs[4].links[0].isActive && dbs[4].links[0].activatedBy == first
  {
    var before, rs0 := LinkThenForgetOwner(token, first, application);
    FindIsTheDevice(before[3], 0, token);
    var r := Identify(second, Data(token, "", "", "android"), 1, 1);
    HistoryExtends(before, rs0, r);
    dbs, rs := before + [Served(before[3], r)], rs0 + [r];
  }

  /** A link request whose device is taken over between its two transactions: the device is
      the second user's, its active link was activated for the first. */
  lemma {:induction false} TakeoverBetweenIdentifyAndLink(token: string, first: nat, second: nat, application: nat)
    returns (dbs: seq<Database>, rs: seq<Request>)
    requires first != second
    ensures History(dbs, rs) && |rs| == 3 && rs[2] == AddLink(0, first, application, 0) && Misattributes(dbs[2], rs[2])
    ensures rs[0].Identify? && rs[0].user == first && IdentifiedDevice(dbs[0], first, rs[0].data, 0) == 0
    ensures 0 in dbs[3].devices && dbs[3].devices[0].user == Some(second)
    ensures 0 in dbs[3].links && dbs[3].links[0] == Link(0, application, true, None, None, first)
  {
    var data := Data(token, "", "", "android");
    var db1 := FirstDevice(token, first);
    FindIsTheDevice(db1, 0, token);
    rs := [Identify(first, data, 0, 0), Identify(second, data, 1, 1), AddLink(0, first, application, 0)];
    var db2 := Served(db1, rs[1]);
    assert db2.devices.Keys == {0} && db2.devices[0].user == Some(second) && db2.links == map[];
    dbs := [EMPTY, db1, db2, Served(db2, rs[2])];
  }

  lemma FirstDevice(token: string, first: nat) returns (db: Database)
    ensures db == Served(EMPTY, Identify(first, Data(token, "", "", "android"), 0, 0))
    ensures IdentifiedDevice(EMPTY, first, Data(token, "", "", "android"), 0) == 0
    ensures db.devices.Keys == {0} && HasToken(db, 0, token) && db.devices[0].user == Some(first) && db.links == map[]
  {
    assert Find(EMPTY, token).None?;
    db := Served(EMPTY, Identify(first, Data(token, "", "", "android"), 0, 0));
  }

  /** A rotation moves the links of an ownerless row, still active, onto the caller's device. */
  lemma {:induction false} RotationInheritsForgottenLinks(
    tokenA: string, tokenB: string, first: nat, second: nat, application: nat)
    returns (dbs: seq<Database>, rs: seq<Request>)
    requires first != second && tokenA != tokenB && tokenA != ""
    ensures History(dbs, rs) && |rs| == 5 && rs[2] == ForgetOwner(0) && Misattributes(dbs[4], rs[4])
    ensures dbs[5].devices.Keys == {1}
    ensures dbs[5].devices[1].user == Some(second) && dbs[5].devices[1].pushToken == tokenB
    ensures 0 in dbs[5].links && dbs[5].links[0].device == 1 && dbs[5].links[0].isActive
            && dbs[5].links[0].activatedBy == first
  {
    var before, rs0 := LinkThenForgetOwner(tokenB, first, application);
    var r := Identify(second, Data(tokenA, "", "", "android"), 1, 1);
    var r' := Identify(second, Data(tokenB, tokenA, "", "android"), 2, 2);
    var db3 := SecondDevice(before[3], tokenA, tokenB, second);
    RotationOntoSecondDevice(db3, tokenA, tokenB, second, Link(0, application, true, None, None, first));
    HistoryExtends(before, rs0, r);
    HistoryExtends(before + [db3], rs0 + [r], r');
    dbs, rs := before + [db3] + [Served(db3, r')], rs0 + [r] + [r'];
  }

  lemma LinkThenForgetOwner(token: string, first: nat, application: nat)
    returns (dbs: seq<Database>, rs: seq<Request>)
    ensures History(dbs, rs) && |rs| == 3 && rs[2] == ForgetOwner(0)
    ensures dbs[3].devices.Keys == {0} && HasToken(dbs[3], 0, token) && dbs[3].devices[0].user == None
    ensures dbs[3].links == map[0 := Link(0, application, true, None, None, first)]
  {
    var db1 := FirstDevice(token, first);
    rs := [Identify(first, Data(token, "", "", "android"), 0, 0), AddLink(0, first, application, 0), ForgetOwner(0)];
    var db2 := Served(db1, rs[1]);
    assert db2.links == map[0 := Link(0, application, true, None, None, first)];
    dbs := [EMPTY, db1, db2, Served(db2, rs[2])];
  }

  lemma SecondDevice(db: Database, tokenA: string, tokenB: string, second: nat) returns (db': Database)
    requires tokenA != tokenB && db.devices.Keys == {0} && HasToken(db, 0, tokenB)
    ensures db' == Served(db, Identify(second, Data(tokenA, "", "", "android"), 1, 1)) && db'.links == db.links
    ensures db'.devices.Keys == {0, 1} && HasToken(db', 0, tokenB) && HasToken(db', 1, tokenA)
    ensures db'.devices[0] == db.devices[0] && db'.devices[1].user == Some(second)
  {
    assert Find(db, tokenA).None?;
    db' := Served(db, Identify(second, Data(tokenA, "", "", "android"), 1, 1));
  }

  lemma RotationOntoSecondDevice(db: Database, tokenA: string, tokenB: string, second: nat, link: Link)
    requires tokenA != tokenB && tokenA != "" && link.device == 0 && link.isActive && link.activatedBy != second
    requires db.devices.Keys == {0, 1} && db.links == map[0 := link]
    requires HasToken(db, 0, tokenB) && HasToken(db, 1, tokenA)
    requires db.devices[0].user == None && db.devices[1].user == Some(second)
    ensures var r := Identify(second, Data(tokenB, tokenA, "", "android"), 2, 2);
            var db' := Served(db, r);
            && Misattributes(db, r) && db'.devices.Keys == {1}
            && db'.devices[1].user == Some(second) && db'.devices[1].pushToken == tokenB
            && 0 in db'.links && db'.links[0] == link.(device := 1)
  {
    var data := Data(tokenB, tokenA, "", "android");
    FindIsTheDevice(db, 0, tokenB);
    FindIsTheDevice(db, 1, tokenA);
    assert Rotatable(db, second, data);
    assert IsForeignAndNew(db, 0, 1, second, 0);
    var merged := Merged(db, 0, 1);
    assert merged.devices.Keys == {1} && merged.links[0] == link.(device := 1);
  }

  // ---------- Foreign devices ----------

  /** The row is the user's, as the request describes it, and fully live. */
  predicate LiveFor(d: Device, user: nat, data: Data, now: int) {
    && d.user == Some(user) && d.pushToken == data.pushToken
    && d.name == data.deviceName && d.platform == data.platform
    && d.tokenStatus.Active? && d.isActive && d.failureCount == 0 && d.invalidatedAt == None
    && d.lastSeenAt == now
  }

  /** The rows that refer to a device are the same before and after. */
  ghost predicate SameHistory(db: Database, db': Database, d: nat) {
    && (forall x :: x in db.deliveries && db.deliveries[x].device == d ==>
          x in db'.deliveries && db'.deliveries[x] == db.deliveries[x])
    && (forall x :: x in db'.deliveries && db'.deliveries[x].device == d ==>
          x in db.deliveries && db.deliveries[x].device == d)
    && (forall q :: (q in db.quietPeriods && db.quietPeriods[q] == d)
                    <==> (q in db'.quietPeriods && db'.quietPeriods[q] == d))
  }

  /** A device keeps its links, each of them as `change` has it. */
  ghost predicate LinksBecome(db: Database, db': Database, d: nat, change: Link -> Link) {
    forall l :: (l in db.links && db.links[l].device == d <==> l in db'.links && db'.links[l].device == d)
                && (l in db.links && db.links[l].device == d ==> db'.links[l] == change(db.links[l]))
  }

  function EndedBy(now: int): Link -> Link {
    (l: Link) =>
      if l.isActive then Link(l.device, l.application, false, Some(now), Some(Takeover), l.activatedBy) else l
  }

  /** A request of one user never removes, merges or renames another user's device, and
      neither takes from nor adds to its deliveries and quiet periods. If the token is not
      that device's, the device and its links stay exactly as they are; if it is, the device
      changes owner, keeps its links and has the active ones ended. */
  lemma {:induction false} IdentifyRespectsForeignDevices(
    db: Database, user: nat, data: Data, newId: nat, now: int, d: nat)
    requires Valid(db) && newId !in db.devices
    requires d in db.devices && db.devices[d].user.Some? && db.devices[d].user.value != user
    ensures var db' := Identified(db, user, data, newId, now);
            && d in db'.devices && db'.devices[d].pushToken == db.devices[d].pushToken
            && SameHistory(db, db', d)
            && (db.devices[d].pushToken != data.pushToken ==>
                  db'.devices[d] == db.devices[d] && LinksBecome(db, db', d, l => l))
            && (db.devices[d].pushToken == data.pushToken ==>
                  LiveFor(db'.devices[d], user, data, now) && LinksBecome(db, db', d, EndedBy(now)))
  {
    var found := Find(db, data.pushToken);
    if db.devices[d].pushToken == data.pushToken {
      FindIsTheDevice(db, d, data.pushToken);
      TakeoverOfForeignDevice(db, d, user, data, now);
    } else if Rotatable(db, user, data) {
      var device := Find(db, data.previousPushToken).value;
      if found.Some? {
        ForeignDeviceOutsideMerge(db, found.value, device, d);
      }
      var merged := MergedForRotation(db, user, data);
      OtherDeviceUntouched(WithToken(merged, device, data.pushToken), device, user, data, now, d);
    } else if found.Some? {
      OtherDeviceUntouched(db, found.value, user, data, now, d);
    } else {
      OtherDeviceUntouched(db.(devices := db.devices[newId := BlankDevice(data.pushToken)]), newId, user, data, now, d);
    }
  }

  lemma TakeoverOfForeignDevice(db: Database, d: nat, user: nat, data: Data, now: int)
    requires d in db.devices && db.devices[d].user.Some? && db.devices[d].user.value != user
    ensures var db' := FieldsApplied(db, d, user, data, now);
            && db'.devices[d] == Refreshed(db.devices[d], user, data, now)
            && SameHistory(db, db', d) && LinksBecome(db, db', d, EndedBy(now))
  {
  }

  lemma OtherDeviceUntouched(db: Database, device: nat, user: nat, data: Data, now: int, d: nat)
    requires device in db.devices && d in db.devices && d != device
    ensures var db' := FieldsApplied(db, device, user, data, now);
            db'.devices[d] == db.devices[d] && SameHistory(db, db', d) && LinksBecome(db, db', d, l => l)
  {
  }

  lemma ForeignDeviceOutsideMerge(db: Database, source: nat, target: nat, d: nat)
    requires Valid(db) && source != target && d !in {source, target} && d in db.devices
    ensures var db' := Merged(db, source, target);
            d in db'.devices && db'.devices[d] == db.devices[d]
            && SameHistory(db, db', d) && LinksBecome(db, db', d, l => l)
  {
    MergeTouchesTwoDevices(db, source, target);
    MergeMovesQuietPeriods(db, source, target);
  }

  /** The tables just before the new token and the fields are written. */
  ghost function MergedForRotation(db: Database, user: nat, data: Data): Database
    requires Rotatable(db, user, data)
  {
    var clash := Find(db, data.pushToken);
    if clash.Some? then Merged(db, clash.value, Find(db, data.previousPushToken).value) else db
  }

  lemma LinksDecideLinkedTo(db: Database, db': Database, device: nat, application: nat)
    requires db.links == db'.links
    ensures LinkedTo(db, device, application) <==> LinkedTo(db', device, application)
  {
    assert forall l :: ActiveLink(db', l, device, application) <==> ActiveLink(db, l, device, application);
  }

  lemma RotatedKeepsMergedLinks(db: Database, user: nat, data: Data, now: int)
    requires Rotatable(db, user, data)
    ensures Rotated(db, user, data, now).links == MergedForRotation(db, user, data).links
  {
  }

  lemma RotationUnitesApplications(db: Database, user: nat, data: Data, now: int, application: nat)
    requires Valid(db) && Rotatable(db, user, data)
    ensures var device := Find(db, data.previousPushToken).value;
            LinkedTo(Rotated(db, user, data, now), device, application) <==>
              || LinkedTo(db, device, application)
              || (Find(db, data.pushToken).Some? && LinkedTo(db, Find(db, data.pushToken).value, application))
  {
    var device := Find(db, data.previousPushToken).value;
    var merged := MergedForRotation(db, user, data);
    if Find(db, data.pushToken).Some? {
      MergeUnitesActiveApplications(db, Find(db, data.pushToken).value, device, application);
    }
    RotatedKeepsMergedLinks(db, user, data, now);
    LinksDecideLinkedTo(merged, Rotated(db, user, data, now), device, application);
  }

  lemma RotationRetiresOldToken(db: Database, user: nat, data: Data, now: int)
    requires Valid(db) && Rotatable(db, user, data)
    ensures var db' := Rotated(db, user, data, now);
            && HasToken(db', Find(db, data.previousPushToken).value, data.pushToken)
            && (forall d :: !HasToken(db', d, data.previousPushToken))
  {
  }

  /** A rotation keeps the device id the user knows: the same row carries the new token, the
      old token names nobody, and the device is linked to exactly the applications that it
      or the row of the new token was linked to. */
  lemma RotationKeepsTheDevice(db: Database, user: nat, data: Data, newId: nat, now: int, application: nat)
    requires Valid(db) && newId !in db.devices && Rotatable(db, user, data)
    ensures var db' := Identified(db, user, data, newId, now);
            var device := Find(db, data.previousPushToken).value;
            && IdentifiedDevice(db, user, data, newId) == device
            && HasToken(db', device, data.pushToken)
            && (forall d :: !HasToken(db', d, data.previousPushToken))
            && (LinkedTo(db', device, application) <==>
                  || LinkedTo(db, device, application)
                  || (Find(db, data.pushToken).Some? && LinkedTo(db, Find(db, data.pushToken).value, application)))
  {
    RotationUnitesApplications(db, user, data, now, application);
    RotationRetiresOldToken(db, user, data, now);
  }

  // ---------- The identified device ----------

  /** Whichever way an identification goes, the identified row is the caller's, carries what
      the request says, and is fully live again. */
  lemma {:induction false} IdentifiedRowMeaning(db: Database, user: nat, data: Data, newId: nat, now: int)
    requires Valid(db) && newId !in db.devices
    ensures var db', id := Identified(db, user, data, newId, now), IdentifiedDevice(db, user, data, newId);
            && id in db'.devices
            && LiveFor(db'.devices[id], user, data, now)
            && (id != newId ==> id in db.devices)
            && (forall d :: d in db'.devices && d != id ==> d in db.devices && db'.devices[d] == db.devices[d])
  {
    if Rotatable(db, user, data) {
      var device, found := Find(db, data.previousPushToken).value, Find(db, data.pushToken);
      if found.Some? {
        MergeTouchesTwoDevices(db, found.value, device);
      }
    }
  }

  /** The device is dead: its token is not active, or it is switched off. */
  predicate Dead(db: Database, d: nat) {
    d in db.devices && !(db.devices[d].tokenStatus.Active? && db.devices[d].isActive)
  }

  ghost predicate Identifies(db: Database, r: Request, d: nat) {
    r.Identify? && IdentifiedDevice(db, r.user, r.data, r.newId) == d
  }

  /** Some request i killed the device, and none identified it since. */
  ghost predicate KilledAt(dbs: seq<Database>, rs: seq<Request>, d: nat, i: nat, until: nat)
    requires |dbs| == |rs| + 1
  {
    && i < until <= |rs| && rs[i].Invalidate? && rs[i].device == d
    && forall k :: i < k < until ==> !Identifies(dbs[k], rs[k], d)
  }

  lemma DeathsHaveACause(db: Database, r: Request, d: nat)
    requires Valid(db) && FreshIds(db, r) && Dead(Served(db, r), d)
    ensures (r.Invalidate? && r.device == d) || (Dead(db, d) && !Identifies(db, r, d))
  {
    match r
    case Identify(user, data, newId, now) => IdentifiedRowMeaning(db, user, data, newId, now);
    case AddLink(_, _, _, _) =>
    case Unlink(_, _, _, _, _) =>
    case Evict(_, _, _) =>
    case Invalidate(_, _) =>
    case DeleteDevice(_) =>
    case ForgetOwner(_) =>
  }

  /** Over any history: a device is dead only if it was invalidated after its last
      identification. */
  lemma {:induction false} DeadDeviceWasInvalidatedLast(dbs: seq<Database>, rs: seq<Request>, j: nat, d: nat)
    requires History(dbs, rs) && j < |dbs| && Dead(dbs[j], d)
    ensures exists i :: 0 <= i < j && KilledAt(dbs, rs, d, i, j)
  {
    if j > 0 {
      var k := j - 1;
      HistoryKeepsConstraints(dbs, rs, k);
      DeathsHaveACause(dbs[k], rs[k], d);
      if rs[k].Invalidate? && rs[k].device == d {
        assert KilledAt(dbs, rs, d, k, j);
      } else {
        DeadDeviceWasInvalidatedLast(dbs, rs, k, d);
        var i :| 0 <= i < k && KilledAt(dbs, rs, d, i, k);
        assert KilledAt(dbs, rs, d, i, j);
      }
    }
  }

  /** Exactly when a request rotates: the row of the previous token comes to hold the new one
      if and only if it is the caller's and the new token is nobody else's. */
  lemma {:induction false} RotatesExactlyWhen(db: Database, user: nat, data: Data, newId: nat, now: int, d: nat)
    requires Valid(db) && newId !in db.devices
    requires HasToken(db, d, data.previousPushToken) && data.previousPushToken != data.pushToken
    ensures HasToken(Identified(db, user, data, newId, now), d, data.pushToken) <==>
              && data.previousPushToken != "" && db.devices[d].user == Some(user)
              && forall e :: HasToken(db, e, data.pushToken) ==> db.devices[e].user in {None, Some(user)}
  {
    FindIsTheDevice(db, d, data.previousPushToken);
    var found := Find(db, data.pushToken);
    assert found.Some? ==> forall e :: HasToken(db, e, data.pushToken) ==> e == found.value;
    IdentifiedRowMeaning(db, user, data, newId, now);
  }

  // ---------- Links ----------

  /** Linking makes the device linked, revives or creates at most one link, free of any unlink
      audit, and leaves all others alone. */
  lemma {:induction false} LinkedMeaning(db: Database, device: nat, user: nat, application: nat, newLink: nat)
    requires Valid(db) && newLink !in db.links
    ensures var db' := Linked(db, device, user, application, newLink);
            && (exists l :: ActiveLink(db', l, device, application) && db'.links[l].unlinkedAt == None
                            && db'.links[l].unlinkSource == None)
            && (forall l :: l in db'.links && !IsLink(db', l, device, application) ==>
                  l in db.links && db'.links[l] == db.links[l])
            && (forall l :: l in db.links ==>
                  l in db'.links
                  && (db.links[l].isActive || !IsLink(db, l, device, application) ==> db'.links[l] == db.links[l]))
            && (forall l :: l in db'.links && l !in db.links ==> forall k :: !IsLink(db, k, device, application))
            && db' == db.(links := db'.links)
  {
    var db', found := Linked(db, device, user, application, newLink), FindLink(db, device, application);
    var l := if found.Some? then found.value else newLink;
    assert ActiveLink(db', l, device, application);
    if found.Some? {
      forall k | IsLink(db, k, device, application) ensures k == l {
        assert SameLink(db.links[k], db.links[l]);
      }
    }
  }

  /** Ending a link: the device is linked to the application no more, its active link carries
      the date and the source, and all others are left alone. */
  lemma {:induction false} LinkEndedMeaning(db: Database, device: nat, application: nat, source: UnlinkSource, now: int)
    requires Valid(db)
    ensures var db' := LinkEnded(db, device, application, source, now);
            && !LinkedTo(db', device, application) && db' == db.(links := db'.links)
            && db'.links.Keys == db.links.Keys
            && forall l :: l in db.links ==>
                 var k := db.links[l];
                 db'.links[l] ==
                 if ActiveLink(db, l, device, application)
                 then Link(k.device, k.application, false, Some(now), Some(source), k.activatedBy) else k
  {
    var db', found := LinkEnded(db, device, application, source, now), FindLink(db, device, application);
    if found.Some? {
      forall k | IsLink(db, k, device, application) ensures k == found.value {
        assert SameLink(db.links[k], db.links[found.value]);
      }
    }
    assert forall l :: ActiveLink(db', l, device, application) ==> IsLink(db, l, device, application);
  }

  /** An unlink request ends the caller's link to the application, and never touches the links
      of a device that is not the caller's. */
  lemma {:induction false} UnlinkedMeaning(
    db: Database, user: nat, token: string, application: nat, source: UnlinkSource, now: int, d: nat)
    requires Valid(db) && HasToken(db, d, token)
    ensures var db' := Unlinked(db, user, token, application, source, now);
            && db' == (if db.devices[d].user == Some(user) then LinkEnded(db, d, application, source, now) else db)
            && (db.devices[d].user == Some(user) ==> !LinkedTo(db', d, application))
            && (forall l :: l in db.links && (db.links[l].device != d || db.devices[d].user != Some(user)) ==>
                  l in db'.links && db'.links[l] == db.links[l])
  {
    FindIsTheDevice(db, d, token);
    LinkEndedMeaning(db, d, application, source, now);
  }

  /** An eviction ends the device's active link to the application on the owner's behalf. */
  lemma {:induction false} EvictMeaning(db: Database, device: nat, application: nat, now: int, l: nat)
    requires Valid(db) && ActiveLink(db, l, device, application)
    ensures var db' := Served(db, Evict(device, application, now));
            && !LinkedTo(db', device, application) && l in db'.links
            && db'.links[l] == Link(device, application, false, Some(now), Some(OwnerEviction), db.links[l].activatedBy)
  {
    LinkEndedMeaning(db, device, application, OwnerEviction, now);
  }

  /** An invalidation kills the device and changes nothing else. */
  lemma InvalidateMeaning(db: Database, device: nat, now: int)
    requires device in db.devices
    ensures var db' := Served(db, Invalidate(device, now));
            var d, d' := db.devices[device], db'.devices[device];
            && d'.tokenStatus.Invalid? && !d'.isActive && d'.invalidatedAt == Some(now)
            && d'.user == d.user && d'.pushToken == d.pushToken && d'.name == d.name && d'.platform == d.platform
            && d'.failureCount == d.failureCount && d'.lastSeenAt == d.lastSeenAt
            && db' == db.(devices := db.devices[device := d'])
  {
  }

  /** An unlink request for an unknown token changes nothing. */
  lemma UnlinkOfUnknownToken(db: Database, user: nat, token: string, application: nat, source: UnlinkSource, now: int)
    requires forall d :: !HasToken(db, d, token)
    ensures Unlinked(db, user, token, application, source, now) == db
  {
  }
}
