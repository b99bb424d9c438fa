/** Device identity: the tables, what each operation makes of them, and the constraints. */
module Devices {
  import opened Options

  datatype TokenStatus = Active | Invalid | Revoked
  datatype UnlinkSource = DeviceButton | Inbox | Takeover | OwnerEviction

  datatype Device = Device(
    user: Option<nat>,
    pushToken: string,
    name: string,
    platform: string,
    tokenStatus: TokenStatus,
    isActive: bool,
    failureCount: nat,
    invalidatedAt: Option<int>,
    lastSeenAt: int
  )

  /** A link to an application. `activatedBy` records, for the proofs about takeovers, the
      user on whose behalf it last became active. */
  datatype Link = Link(
    device: nat,
    application: nat,
    isActive: bool,
    unlinkedAt: Option<int>,
    unlinkSource: Option<UnlinkSource>,
    activatedBy: nat
  )

  datatype Delivery = Delivery(device: nat, notification: nat, status: nat)

  /** The tables; a quiet-period row is represented by the device it belongs to. */
  datatype Database = Database(
    devices: map<nat, Device>,
    links: map<nat, Link>,
    deliveries: map<nat, Delivery>,
    quietPeriods: map<nat, nat>
  )

  /** A request body of the identify and link endpoints; no previous token is "". */
  datatype Data = Data(pushToken: string, previousPushToken: string, deviceName: string, platform: string)

  // ---------- Constraints ----------

  ghost predicate TokensUnique(devices: map<nat, Device>) {
    forall d, e :: d in devices && e in devices && devices[d].pushToken == devices[e].pushToken ==> d == e
  }

  predicate SameLink(k: Link, l: Link) {
    k.device == l.device && k.application == l.application
  }

  ghost predicate LinksUnique(links: map<nat, Link>) {
    forall i, j :: i in links && j in links && SameLink(links[i], links[j]) ==> i == j
  }

  predicate SameDelivery(k: Delivery, l: Delivery) {
    k.device == l.device && k.notification == l.notification
  }

  ghost predicate DeliveriesUnique(deliveries: map<nat, Delivery>) {
    forall i, j :: i in deliveries && j in deliveries && SameDelivery(deliveries[i], deliveries[j]) ==> i == j
  }

  /** A link is active exactly when it carries no unlink audit. */
  predicate AuditAgrees(l: Link) {
    && (l.isActive <==> l.unlinkedAt.None?)
    && (l.isActive <==> l.unlinkSource.None?)
  }

  ghost predicate RowsReferToDevices(db: Database) {
    && (forall l :: l in db.links ==> db.links[l].device in db.devices)
    && (forall d :: d in db.deliveries ==> db.deliveries[d].device in db.devices)
    && (forall q :: q in db.quietPeriods ==> db.quietPeriods[q] in db.devices)
  }

  ghost predicate Valid(db: Database) {
    && TokensUnique(db.devices)
    && LinksUnique(db.links)
    && DeliveriesUnique(db.deliveries)
    && (forall l :: l in db.links ==> AuditAgrees(db.links[l]))
    && RowsReferToDevices(db)
  }

  // ---------- What a device has ----------

  ghost predicate LinkedTo(db: Database, device: nat, application: nat) {
    exists l :: ActiveLink(db, l, device, application)
  }

  ghost predicate Received(db: Database, device: nat, notification: nat) {
    exists d :: d in db.deliveries && db.deliveries[d].device == device
                && db.deliveries[d].notification == notification
  }

  // ---------- Operations on values ----------

  function Deactivated(l: Link, now: int, source: UnlinkSource): Link {
    l.(isActive := false, unlinkedAt := Some(now), unlinkSource := Some(source))
  }

  function Reactivated(l: Link, user: nat): Link {
    l.(isActive := true, unlinkedAt := None, unlinkSource := None, activatedBy := user)
  }

  /** Ends every active link of a device that changes owner. */
  function TakenOver(links: map<nat, Link>, device: nat, now: int): (r: map<nat, Link>)
    ensures r.Keys == links.Keys
  {
    map l | l in links ::
      if links[l].device == device && links[l].isActive then Deactivated(links[l], now, Takeover) else links[l]
  }

  function Refreshed(d: Device, user: nat, data: Data, now: int): Device {
    Device(Some(user), d.pushToken, data.deviceName, data.platform, Active, true, 0, None, now)
  }

  /** The device is the user's and fully live again; its links end if it was another user's. */
  function FieldsApplied(db: Database, device: nat, user: nat, data: Data, now: int): Database
    requires device in db.devices
  {
    var d := db.devices[device];
    db.(devices := db.devices[device := Refreshed(d, user, data, now)],
        links := if d.user.Some? && d.user.value != user then TakenOver(db.links, device, now) else db.links)
  }

  /** The target's link to an application, when the source has one to the same application. */
  predicate Clashes(links: map<nat, Link>, source: nat, target: nat, l: nat)
    requires l in links
  {
    links[l].device == source
    && exists k :: k in links && links[k].device == target && links[k].application == links[l].application
  }

  /** An active link of a device to an application. */
  ghost function ActiveLinkOf(links: map<nat, Link>, device: nat, application: nat): (r: Option<nat>)
    ensures r.Some? ==>
              r.value in links && links[r.value].device == device && links[r.value].application == application
              && links[r.value].isActive
    ensures r.None? ==>
              forall k :: k in links && links[k].device == device && links[k].application == application ==>
                !links[k].isActive
  {
    if k :| k in links && links[k].device == device && links[k].application == application && links[k].isActive
    then Some(k) else None
  }

  /** One link after the links in `done` were merged from source to target: a link without a
      counterpart moves; an inactive one of the target is revived on behalf of the user for
      whom the source's active link had been activated. */
  ghost function MergedLink(links: map<nat, Link>, source: nat, target: nat, done: set<nat>, l: nat): Link
    requires l in links
  {
    if links[l].device == source && l in done && !Clashes(links, source, target, l) then
      links[l].(device := target)
    else
      var twin := ActiveLinkOf(links, source, links[l].application);
      if links[l].device == target && !links[l].isActive && twin.Some? && twin.value in done
      then Reactivated(links[l], links[twin.value].activatedBy)
      else links[l]
  }

  ghost function MergedLinks(links: map<nat, Link>, source: nat, target: nat, done: set<nat>): (r: map<nat, Link>)
    ensures r.Keys == links.Keys
  {
    map l | l in links :: MergedLink(links, source, target, done, l)
  }

  function MovedDeliveries(deliveries: map<nat, Delivery>, source: nat, target: nat): (r: map<nat, Delivery>)
    ensures r.Keys == deliveries.Keys
  {
    map d | d in deliveries ::
      if deliveries[d].device == source
         && !(exists k :: k in deliveries && deliveries[k].device == target
                          && deliveries[k].notification == deliveries[d].notification)
      then deliveries[d].(device := target) else deliveries[d]
  }

  function MovedPeriods(periods: map<nat, nat>, source: nat, target: nat): (r: map<nat, nat>)
    ensures r.Keys == periods.Keys
  {
    map q | q in periods :: if periods[q] == source then target else periods[q]
  }

  /** Deleting a device deletes the rows that refer to it. */
  function Deleted(db: Database, device: nat): Database {
    Database(db.devices - {device},
             map l | l in db.links && db.links[l].device != device :: db.links[l],
             map d | d in db.deliveries && db.deliveries[d].device != device :: db.deliveries[d],
             map q | q in db.quietPeriods && db.quietPeriods[q] != device :: db.quietPeriods[q])
  }

  function LinksOf(links: map<nat, Link>, device: nat): set<nat> {
    set l | l in links && links[l].device == device
  }

  /** The whole merge. */
  ghost function Merged(db: Database, source: nat, target: nat): Database {
    Deleted(Database(db.devices,
                     MergedLinks(db.links, source, target, LinksOf(db.links, source)),
                     MovedDeliveries(db.deliveries, source, target),
                     MovedPeriods(db.quietPeriods, source, target)), source)
  }

  // ---------- What a merge conserves ----------

  /** The links of third devices are the same, and a link only ever moves from source to target. */
  ghost predicate OtherLinksUntouched(links: map<nat, Link>, links': map<nat, Link>, source: nat, target: nat) {
    && (forall l :: l in links && links[l].device !in {source, target} ==> l in links' && links'[l] == links[l])
    && (forall l :: l in links' ==>
          l in links
          && (links'[l].device == links[l].device || (links[l].device == source && links'[l].device == target)))
  }

  ghost predicate OtherDeliveriesUntouched(ds: map<nat, Delivery>, ds': map<nat, Delivery>, source: nat, target: nat) {
    && (forall d :: d in ds && ds[d].device !in {source, target} ==> d in ds' && ds'[d] == ds[d])
    && (forall d :: d in ds' ==>
          d in ds && (ds'[d] == ds[d] || (ds[d].device == source && ds'[d] == ds[d].(device := target))))
  }

  /** No row of a third device changes, appears or disappears. */
  ghost predicate OthersUntouched(db: Database, db': Database, source: nat, target: nat) {
    && (forall d :: d != source && d != target ==>
          (d in db.devices <==> d in db'.devices) && (d in db.devices ==> db'.devices[d] == db.devices[d]))
    && OtherLinksUntouched(db.links, db'.links, source, target)
    && OtherDeliveriesUntouched(db.deliveries, db'.deliveries, source, target)
    && (forall q :: q in db.quietPeriods && db.quietPeriods[q] !in {source, target} ==>
          q in db'.quietPeriods && db'.quietPeriods[q] == db.quietPeriods[q])
  }

  /** Where a link of the merged tables comes from. */
  lemma MergedLinkOrigin(db: Database, source: nat, target: nat, l: nat)
    requires source != target && l in Merged(db, source, target).links
    ensures l in db.links
    ensures var merged := Merged(db, source, target).links[l];
            && merged.application == db.links[l].application
            && (if db.links[l].device == source then merged.device == target && !Clashes(db.links, source, target, l)
                else merged.device == db.links[l].device)
  {
  }

  lemma MergeKeepsLinksUnique(db: Database, source: nat, target: nat)
    requires Valid(db) && source != target
    ensures LinksUnique(Merged(db, source, target).links)
  {
    var links' := Merged(db, source, target).links;
    forall i, j | i in links' && j in links' && SameLink(links'[i], links'[j]) ensures i == j {
      MergedLinkOrigin(db, source, target, i);
      MergedLinkOrigin(db, source, target, j);
      assert SameLink(db.links[i], db.links[j]) ==> i == j;
    }
  }

  lemma MergeKeepsDeliveriesUnique(db: Database, source: nat, target: nat)
    requires Valid(db) && source != target
    ensures DeliveriesUnique(Merged(db, source, target).deliveries)
  {
  }

  ghost predicate ActiveLink(db: Database, l: nat, device: nat, application: nat) {
    l in db.links && db.links[l].device == device && db.links[l].application == application && db.links[l].isActive
  }

  lemma MergeKeepsTargetLink(db: Database, source: nat, target: nat, l: nat, application: nat)
    requires source != target && ActiveLink(db, l, target, application)
    ensures ActiveLink(Merged(db, source, target), l, target, application)
  {
  }

  lemma MergeBringsSourceLink(db: Database, source: nat, target: nat, l: nat, application: nat)
    requires source != target && ActiveLink(db, l, source, application)
    ensures LinkedTo(Merged(db, source, target), target, application)
  {
    var db' := Merged(db, source, target);
    assert l in LinksOf(db.links, source);
    if Clashes(db.links, source, target, l) {
      var k :| k in db.links && db.links[k].device == target && db.links[k].application == application;
      assert MergedLink(db.links, source, target, LinksOf(db.links, source), k).isActive;
      assert ActiveLink(db', k, target, application);
    } else {
      assert ActiveLink(db', l, target, application);
    }
  }

  lemma MergedLinkComesFromEither(db: Database, source: nat, target: nat, l: nat, application: nat)
    requires source != target && ActiveLink(Merged(db, source, target), l, target, application)
    ensures LinkedTo(db, source, application) || LinkedTo(db, target, application)
  {
    var merged := MergedLink(db.links, source, target, LinksOf(db.links, source), l);
    assert Merged(db, source, target).links[l] == merged;
    if db.links[l].device == source {
      assert ActiveLink(db, l, source, application);
    } else if db.links[l].isActive {
      assert ActiveLink(db, l, target, application);
    } else {
      var k :| k in db.links && db.links[k].device == source && db.links[k].application == application
               && db.links[k].isActive;
      assert ActiveLink(db, k, source, application);
    }
  }

  /** The target ends up linked to exactly the applications either device was linked to. */
  lemma MergeUnitesActiveApplications(db: Database, source: nat, target: nat, application: nat)
    requires source != target
    ensures LinkedTo(Merged(db, source, target), target, application) <==>
              LinkedTo(db, source, application) || LinkedTo(db, target, application)
  {
    if l :| ActiveLink(db, l, target, application) {
      MergeKeepsTargetLink(db, source, target, l, application);
    }
    if l :| ActiveLink(db, l, source, application) {
      MergeBringsSourceLink(db, source, target, l, application);
    }
    if l :| ActiveLink(Merged(db, source, target), l, target, application) {
      MergedLinkComesFromEither(db, source, target, l, application);
    }
  }

  /** The target ends up with exactly the notifications of either device, its own rows
      unchanged. */
  lemma MergeUnitesNotifications(db: Database, source: nat, target: nat, notification: nat)
    requires Valid(db) && source != target
    ensures Received(Merged(db, source, target), target, notification) <==>
              Received(db, source, notification) || Received(db, target, notification)
    ensures forall d :: d in db.deliveries && db.deliveries[d].device == target ==>
              d in Merged(db, source, target).deliveries
              && Merged(db, source, target).deliveries[d] == db.deliveries[d]
  {
    var db' := Merged(db, source, target);
    if Received(db, target, notification) {
      var d :| d in db.deliveries && db.deliveries[d].device == target && db.deliveries[d].notification == notification;
      assert d in db'.deliveries && db'.deliveries[d] == db.deliveries[d];
    } else if Received(db, source, notification) {
      var d :| d in db.deliveries && db.deliveries[d].device == source && db.deliveries[d].notification == notification;
      assert d in db'.deliveries && db'.deliveries[d] == db.deliveries[d].(device := target);
    }
  }

  lemma MergeKeepsAudit(db: Database, source: nat, target: nat)
    requires forall l :: l in db.links ==> AuditAgrees(db.links[l])
    ensures var links' := Merged(db, source, target).links;
            forall l :: l in links' ==> AuditAgrees(links'[l])
  {
  }

  lemma MergeKeepsReferences(db: Database, source: nat, target: nat)
    requires RowsReferToDevices(db) && target in db.devices && source != target
    ensures RowsReferToDevices(Merged(db, source, target))
  {
  }

  lemma MergeKeepsConstraints(db: Database, source: nat, target: nat)
    requires Valid(db) && source in db.devices && target in db.devices && source != target
    ensures Valid(Merged(db, source, target))
  {
    MergeKeepsLinksUnique(db, source, target);
    MergeKeepsDeliveriesUnique(db, source, target);
    MergeKeepsAudit(db, source, target);
    MergeKeepsReferences(db, source, target);
    assert TokensUnique(Merged(db, source, target).devices);
  }

  lemma MergeTouchesLinksOfTwo(db: Database, source: nat, target: nat)
    requires source != target
    ensures OtherLinksUntouched(db.links, Merged(db, source, target).links, source, target)
  {
  }

  lemma MergeTouchesDeliveriesOfTwo(db: Database, source: nat, target: nat)
    requires source != target
    ensures OtherDeliveriesUntouched(db.deliveries, Merged(db, source, target).deliveries, source, target)
  {
  }

  lemma MergeTouchesTwoDevices(db: Database, source: nat, target: nat)
    requires source != target
    ensures OthersUntouched(db, Merged(db, source, target), source, target)
  {
    MergeTouchesLinksOfTwo(db, source, target);
    MergeTouchesDeliveriesOfTwo(db, source, target);
  }

  lemma MergeMovesQuietPeriods(db: Database, source: nat, target: nat)
    requires source != target
    ensures var db' := Merged(db, source, target);
            db'.quietPeriods == map q | q in db.quietPeriods ::
              if db.quietPeriods[q] == source then target else db.quietPeriods[q]
  {
  }

  /** A merge of a source into a different target: active applications and notifications
      unite on the target, each notification once; every quiet period of the source becomes
      the target's; the source is gone; no third device is touched; the constraints hold. */
  lemma {:induction false} MergeConserves(db: Database, source: nat, target: nat)
    requires Valid(db) && source in db.devices && target in db.devices && source != target
    ensures var db' := Merged(db, source, target);
            && Valid(db')
            && (forall a :: LinkedTo(db', target, a) <==> LinkedTo(db, source, a) || LinkedTo(db, target, a))
            && (forall n :: Received(db', target, n) <==> Received(db, source, n) || Received(db, target, n))
            && db'.quietPeriods == (map q | q in db.quietPeriods ::
                                      if db.quietPeriods[q] == source then target else db.quietPeriods[q])
            && db'.devices == db.devices - {source}
            && OthersUntouched(db, db', source, target)
  {
    MergeKeepsConstraints(db, source, target);
    MergeTouchesTwoDevices(db, source, target);
    MergeMovesQuietPeriods(db, source, target);
    forall a ensures LinkedTo(Merged(db, source, target), target, a) <==>
                     LinkedTo(db, source, a) || LinkedTo(db, target, a) {
      MergeUnitesActiveApplications(db, source, target, a);
    }
    forall n ensures Received(Merged(db, source, target), target, n) <==>
                     Received(db, source, n) || Received(db, target, n) {
      MergeUnitesNotifications(db, source, target, n);
    }
  }
}
