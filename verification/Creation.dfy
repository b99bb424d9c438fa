/** Creating notifications under an optional idempotency key, by any number of interleaved
    callers; the unique constraint on (application, non-empty key) arbitrates. */
module Creation {
  import opened Options
  import opened Notifications
  import Protocol
  import ProtocolSafety

  datatype Request = Request(application: nat, key: string, fingerprint: string, scheduledFor: Option<int>)

  datatype Stored = Stored(application: nat, key: string, fingerprint: string, row: Row)

  datatype Outcome = Outcome(id: nat, created: bool, conflict: bool)

  type Table = map<nat, Stored>

  function NewRow(req: Request): Stored {
    Stored(req.application, req.key, req.fingerprint, InitialRow(req.scheduledFor))
  }

  predicate Holds(s: Stored, application: nat, key: string) {
    s.application == application && s.key == key
  }

  predicate Taken(rows: Table, application: nat, key: string) {
    exists id :: id in rows && Holds(rows[id], application, key)
  }

  /** The unique constraint. */
  predicate KeysUnique(rows: Table) {
    forall i, j ::
      i in rows && j in rows && rows[i].key != "" && Holds(rows[i], rows[j].application, rows[j].key) ==> i == j
  }

  // ---------- One call ----------

  class NotificationTable {
    var rows: Table
    var nextId: nat

    ghost predicate Valid()
      reads this
    {
      KeysUnique(rows) && forall id :: id in rows ==> id < nextId
    }

    /** INSERT: None is the integrity error of the unique constraint. */
    method Insert(req: Request) returns (id: Option<nat>)
      requires Valid()
      modifies this
      ensures Valid()
      ensures id.None? <==> req.key != "" && Taken(old(rows), req.application, req.key)
      ensures id.None? ==> rows == old(rows)
      ensures id.Some? ==> id.value !in old(rows) && rows == old(rows)[id.value := NewRow(req)]
    {
      if req.key != "" && Taken(rows, req.application, req.key) {
        return None;
      }
      id := Some(nextId);
      rows := rows[nextId := NewRow(req)];
      nextId := nextId + 1;
    }

    method CreateNotification(req: Request) returns (outcome: Outcome)
      requires Valid()
      modifies this
      ensures Valid()
      ensures outcome.id in rows && Holds(rows[outcome.id], req.application, req.key)
      ensures outcome.created <==> !(req.key != "" && Taken(old(rows), req.application, req.key))
      ensures outcome.conflict <==> !outcome.created && rows[outcome.id].fingerprint != req.fingerprint
      ensures rows == if outcome.created then old(rows)[outcome.id := NewRow(req)] else old(rows)
      ensures outcome.created ==> outcome.id !in old(rows) && StartsOut(rows[outcome.id].row, req.scheduledFor)
    {
      var created := false;
      var inserted := Insert(req);
      if inserted.Some? {
        created := true;
      }
      if created {
        return Outcome(inserted.value, true, false);
      }
      var id :| id in rows && Holds(rows[id], req.application, req.key);
      outcome := Outcome(id, false, rows[id].fingerprint != req.fingerprint);
    }
  }

  /** The row of a notification that nobody has acted on yet. */
  predicate StartsOut(r: Row, date: Option<int>) {
    && r.scheduledFor == date && r.processingStartedAt == None && r.sentAt == None
    && (if date.Some? then r.status.SCHEDULED? else r.status.DRAFT?)
  }

  /** The created row begins a behaviour of the protocol, over whatever devices and at whatever
      time; once its date has come, the dispatcher queues it. */
  lemma CreatedRowBeginsTheProtocol(req: Request, devices: seq<nat>, now: int)
    ensures StartsOut(NewRow(req).row, req.scheduledFor)
    ensures var s := ProtocolSafety.FreshState(req.scheduledFor, devices, now);
            && Protocol.Init(s) && s.row == NewRow(req).row
            && (req.scheduledFor.Some? && req.scheduledFor.value <= now ==> Protocol.Enabled(s, Protocol.Dispatch))
  {
  }

  // ---------- Interleaved calls ----------

  /** A caller inserts, fetches the existing row after an integrity error, and on the
      one-shot endpoint then attempts the dispatch of what it created. */
  datatype Caller =
    | Inserting(req: Request)
    | Fetching(req: Request)
    | Answered(req: Request, outcome: Outcome)
    | Dispatched(req: Request, outcome: Outcome)

  datatype State = State(rows: Table, callers: map<nat, Caller>)

  datatype Action = Arrive(c: nat, req: Request)
    | TryInsert(c: nat, id: nat) | Fetch(c: nat, id: nat) | Dispatch(c: nat)

  predicate HasOutcome(caller: Caller) {
    caller.Answered? || caller.Dispatched?
  }

  predicate Enabled(s: State, a: Action) {
    match a
    case Arrive(c, _) => c !in s.callers
    case TryInsert(c, id) => c in s.callers && s.callers[c].Inserting? && id !in s.rows
    case Fetch(c, id) =>
      c in s.callers && s.callers[c].Fetching? && id in s.rows
      && Holds(s.rows[id], s.callers[c].req.application, s.callers[c].req.key)
    case Dispatch(c) => c in s.callers && s.callers[c].Answered? && s.callers[c].outcome.created
  }

  function Apply(s: State, a: Action): State
    requires Enabled(s, a)
  {
    match a
    case Arrive(c, req) => s.(callers := s.callers[c := Inserting(req)])
    case TryInsert(c, id) =>
      var req := s.callers[c].req;
      if req.key != "" && Taken(s.rows, req.application, req.key)
      then s.(callers := s.callers[c := Fetching(req)])
      else State(s.rows[id := NewRow(req)], s.callers[c := Answered(req, Outcome(id, true, false))])
    case Fetch(c, id) =>
      var req := s.callers[c].req;
      s.(callers := s.callers[c := Answered(req, Outcome(id, false, s.rows[id].fingerprint != req.fingerprint))])
    case Dispatch(c) => s.(callers := s.callers[c := Dispatched(s.callers[c].req, s.callers[c].outcome)])
  }

  ghost predicate Behaviour(ss: seq<State>, acts: seq<Action>) {
    && |ss| == |acts| + 1 && ss[0] == State(map[], map[])
    && forall i :: 0 <= i < |acts| ==> Enabled(ss[i], acts[i]) && ss[i + 1] == Apply(ss[i], acts[i])
  }

  /** The answer matches the stored row. */
  predicate OutcomeTrue(rows: Table, req: Request, o: Outcome) {
    && o.id in rows && Holds(rows[o.id], req.application, req.key)
    && (o.created ==> rows[o.id] == NewRow(req))
    && (o.conflict <==> rows[o.id].fingerprint != req.fingerprint)
  }

  /** The caller that inserted a row. */
  predicate Created(s: State, c: nat, id: nat) {
    c in s.callers && HasOutcome(s.callers[c]) && s.callers[c].outcome.created && s.callers[c].outcome.id == id
  }

  ghost predicate Invariant(s: State) {
    && KeysUnique(s.rows)
    && (forall c :: c in s.callers && HasOutcome(s.callers[c]) ==>
          OutcomeTrue(s.rows, s.callers[c].req, s.callers[c].outcome))
    && (forall c :: c in s.callers && HasOutcome(s.callers[c]) && !s.callers[c].outcome.created ==>
          s.callers[c].req.key != "")
    && (forall c :: c in s.callers && s.callers[c].Dispatched? ==> s.callers[c].outcome.created)
    && (forall c :: c in s.callers && s.callers[c].Fetching? ==>
          s.callers[c].req.key != "" && Taken(s.rows, s.callers[c].req.application, s.callers[c].req.key))
    && (forall id :: id in s.rows ==> exists c :: Created(s, c, id))
    && (forall c, d, id :: Created(s, c, id) && Created(s, d, id) ==> c == d)
  }

  lemma TakenGrows(rows: Table, id: nat, r: Stored, application: nat, key: string)
    requires id !in rows && Taken(rows, application, key)
    ensures Taken(rows[id := r], application, key)
  {
    var i :| i in rows && Holds(rows[i], application, key);
    assert i in rows[id := r] && Holds(rows[id := r][i], application, key);
  }

  lemma InsertKeepsInvariant(s: State, c: nat, id: nat)
    requires Invariant(s) && Enabled(s, TryInsert(c, id))
    requires var req := s.callers[c].req; !(req.key != "" && Taken(s.rows, req.application, req.key))
    ensures Invariant(Apply(s, TryInsert(c, id)))
  {
    var t := Apply(s, TryInsert(c, id));
    forall d | d in t.callers && t.callers[d].Fetching?
      ensures t.callers[d].req.key != "" && Taken(t.rows, t.callers[d].req.application, t.callers[d].req.key)
    {
      TakenGrows(s.rows, id, NewRow(s.callers[c].req), t.callers[d].req.application, t.callers[d].req.key);
    }
    assert Created(t, c, id);
    forall i | i in t.rows ensures exists d :: Created(t, d, i) {
      if i != id {
        var d :| Created(s, d, i);
        assert Created(t, d, i);
      }
    }
    forall d, e, i | Created(t, d, i) && Created(t, e, i) ensures d == e {
      if i != id {
        assert Created(s, d, i) && Created(s, e, i);
      } else {
        assert !Created(s, d, i) && !Created(s, e, i);
      }
    }
  }

  lemma StepKeepsInvariant(s: State, a: Action)
    requires Invariant(s) && Enabled(s, a)
    ensures Invariant(Apply(s, a))
  {
    var t := Apply(s, a);
    if a.TryInsert?
       && !(s.callers[a.c].req.key != "" && Taken(s.rows, s.callers[a.c].req.application, s.callers[a.c].req.key)) {
      InsertKeepsInvariant(s, a.c, a.id);
    } else {
      assert t.rows == s.rows;
      assert forall d, i :: Created(t, d, i) <==> Created(s, d, i);
    }
  }

  lemma {:induction false} InvariantHolds(ss: seq<State>, acts: seq<Action>, i: nat)
    requires Behaviour(ss, acts) && i < |ss|
    ensures Invariant(ss[i])
  {
    if i > 0 {
      InvariantHolds(ss, acts, i - 1);
      StepKeepsInvariant(ss[i - 1], acts[i - 1]);
    }
  }

  predicate AnsweredFor(s: State, c: nat, application: nat, key: string) {
    c in s.callers && HasOutcome(s.callers[c])
    && s.callers[c].req.application == application && s.callers[c].req.key == key
  }

  predicate CreatedFor(s: State, c: nat, application: nat, key: string) {
    AnsweredFor(s, c, application, key) && s.callers[c].outcome.created
  }

  /** Among the callers answered for one application and non-empty key, in any interleaving:
      exactly one reports created, all return the same row, and a conflict is reported
      exactly when the caller's fingerprint differs from the stored one. */
  lemma OneCreationPerKey(ss: seq<State>, acts: seq<Action>, i: nat, application: nat, key: string, c: nat)
    requires Behaviour(ss, acts) && i < |ss| && key != "" && AnsweredFor(ss[i], c, application, key)
    ensures var s := ss[i];
            var id := s.callers[c].outcome.id;
            && id in s.rows
            && (forall d :: AnsweredFor(s, d, application, key) ==>
                  && s.callers[d].outcome.id == id
                  && (s.callers[d].outcome.conflict <==> s.callers[d].req.fingerprint != s.rows[id].fingerprint))
            && (exists d :: CreatedFor(s, d, application, key))
            && (forall d, e :: CreatedFor(s, d, application, key) && CreatedFor(s, e, application, key) ==> d == e)
  {
    InvariantHolds(ss, acts, i);
    var s := ss[i];
    var id := s.callers[c].outcome.id;
    var creator :| Created(s, creator, id);
    assert OutcomeTrue(s.rows, s.callers[creator].req, s.callers[creator].outcome);
    assert CreatedFor(s, creator, application, key);
    forall d | AnsweredFor(s, d, application, key)
      ensures s.callers[d].outcome.id == id
      ensures s.callers[d].outcome.conflict <==> s.callers[d].req.fingerprint != s.rows[id].fingerprint
    {
      assert OutcomeTrue(s.rows, s.callers[d].req, s.callers[d].outcome);
      assert Holds(s.rows[s.callers[d].outcome.id], s.rows[id].application, s.rows[id].key);
    }
    forall d, e | CreatedFor(s, d, application, key) && CreatedFor(s, e, application, key) ensures d == e
    {
      assert Created(s, d, id) && Created(s, e, id);
    }
  }

  /** The one-shot endpoint attempts at most one dispatch per application and key. */
  lemma OneDispatchPerKey(ss: seq<State>, acts: seq<Action>, i: nat, application: nat, key: string, c: nat, d: nat)
    requires Behaviour(ss, acts) && i < |ss| && key != ""
    requires AnsweredFor(ss[i], c, application, key) && ss[i].callers[c].Dispatched?
    requires AnsweredFor(ss[i], d, application, key) && ss[i].callers[d].Dispatched?
    ensures c == d
  {
    InvariantHolds(ss, acts, i);
    OneCreationPerKey(ss, acts, i, application, key, c);
    assert CreatedFor(ss[i], c, application, key) && CreatedFor(ss[i], d, application, key);
  }

  /** In any interleaving, a stored row carries the date of the caller who created it. */
  lemma {:induction false} StoredDateIsTheCreators(ss: seq<State>, acts: seq<Action>, i: nat, c: nat, id: nat)
    requires Behaviour(ss, acts) && i < |ss| && Created(ss[i], c, id)
    ensures id in ss[i].rows && StartsOut(ss[i].rows[id].row, ss[i].callers[c].req.scheduledFor)
    ensures ss[i].rows[id].fingerprint == ss[i].callers[c].req.fingerprint
  {
    InvariantHolds(ss, acts, i);
    assert OutcomeTrue(ss[i].rows, ss[i].callers[c].req, ss[i].callers[c].outcome);
  }
}
