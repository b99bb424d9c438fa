/** Creating and (partially) updating quiet periods: validation against the stored row,
    normalisation of the payload, and the table that results. */
module QuietPeriodForms {
  import opened Options
  import opened QuietPeriods

  type WeekdayNumber = d: int | 0 <= d <= 6

  /** A request body: an outer None is a key that was not sent, an inner None an explicit null. */
  datatype Payload = Payload(
    periodType: Option<PeriodType>,
    startAt: Option<Option<int>>,
    endAt: Option<Option<int>>,
    recurrenceDays: Option<seq<WeekdayNumber>>,
    startTime: Option<Option<TimeOfDay>>,
    endTime: Option<Option<TimeOfDay>>,
    isActive: Option<bool>
  )

  const EMPTY_PAYLOAD := Payload(None, None, None, None, None, None, None)

  datatype Field = StartAt | EndAt | RecurrenceDays | StartTime | EndTime
  datatype Problem = Required | MustBeEmpty | EndNotAfterStart | SameTimes

  function GetOr<T>(sent: Option<T>, otherwise: T): T {
    if sent.Some? then sent.value else otherwise
  }

  // ---------- sorted(set(days)) ----------

  function InsertDay(day: int, days: seq<int>): seq<int> {
    if days == [] || day < days[0] then [day] + days
    else if day == days[0] then days
    else [days[0]] + InsertDay(day, days[1..])
  }

  function SortedDistinct(days: seq<int>): seq<int> {
    if days == [] then [] else InsertDay(days[0], SortedDistinct(days[1..]))
  }

  lemma {:induction false} InsertDayMembers(day: int, days: seq<int>)
    ensures forall d :: d in InsertDay(day, days) <==> d == day || d in days
  {
    if days != [] && day > days[0] {
      InsertDayMembers(day, days[1..]);
      assert days == [days[0]] + days[1..];
    }
  }

  lemma LaterDaysAreGreater(days: seq<int>)
    requires days != [] && SortedDays(days)
    ensures SortedDays(days[1..]) && 0 <= days[0] <= 6
    ensures forall d :: d in days[1..] ==> days[0] < d
  {
  }

  lemma PrependKeepsOrder(day: int, days: seq<int>)
    requires 0 <= day <= 6 && SortedDays(days) && forall i :: 0 <= i < |days| ==> day < days[i]
    ensures SortedDays([day] + days)
  {
  }

  lemma {:induction false} InsertDayKeepsOrder(day: int, days: seq<int>)
    requires 0 <= day <= 6 && SortedDays(days)
    ensures SortedDays(InsertDay(day, days))
  {
    if days == [] || day < days[0] {
      PrependKeepsOrder(day, days);
    } else if day > days[0] {
      var rest := InsertDay(day, days[1..]);
      LaterDaysAreGreater(days);
      InsertDayKeepsOrder(day, days[1..]);
      InsertDayMembers(day, days[1..]);
      forall i | 0 <= i < |rest| ensures days[0] < rest[i] {
        assert rest[i] in rest;
      }
      PrependKeepsOrder(days[0], rest);
    }
  }

  predicate InRange(days: seq<int>) {
    forall i :: 0 <= i < |days| ==> 0 <= days[i] <= 6
  }

  /** The stored day list is strictly increasing and has exactly the submitted days. */
  lemma {:induction false} SortedDistinctMeaning(days: seq<int>)
    ensures forall d :: d in SortedDistinct(days) <==> d in days
    ensures InRange(days) ==> SortedDays(SortedDistinct(days))
  {
    if days != [] {
      SortedDistinctMeaning(days[1..]);
      InsertDayMembers(days[0], SortedDistinct(days[1..]));
      if InRange(days) {
        InsertDayKeepsOrder(days[0], SortedDistinct(days[1..]));
      }
    }
  }

  lemma SortedDistinctStaysInRange(days: seq<int>)
    requires InRange(days)
    ensures forall i :: 0 <= i < |SortedDistinct(days)| ==> 0 <= SortedDistinct(days)[i] <= 6
  {
    SortedDistinctMeaning(days);
  }

  /** Sorting a list that is already sorted and distinct changes nothing. */
  lemma {:induction false} SortedDistinctFixesSorted(days: seq<int>)
    requires SortedDays(days)
    ensures SortedDistinct(days) == days
  {
    if days != [] {
      SortedDistinctFixesSorted(days[1..]);
      assert days == [days[0]] + days[1..];
    }
  }

  // ---------- The row a request asks for ----------

  /** The merged fields the validator judges: what was sent, else the stored value, except
      that a change of type inherits none of the date, day and time fields. */
  function Candidate(payload: Payload, instance: Option<QuietPeriod>): QuietPeriod {
    var periodType := GetOr(payload.periodType, if instance.Some? then instance.value.periodType else Once);
    var inherits := instance.Some? && periodType == instance.value.periodType;
    QuietPeriod(
      GetOr(payload.isActive, if instance.Some? then instance.value.isActive else true),
      periodType,
      GetOr(payload.startAt, if inherits then instance.value.startAt else None),
      GetOr(payload.endAt, if inherits then instance.value.endAt else None),
      GetOr(payload.recurrenceDays, if inherits then instance.value.recurrenceDays else []),
      GetOr(payload.startTime, if inherits then instance.value.startTime else None),
      GetOr(payload.endTime, if inherits then instance.value.endTime else None))
  }

  function Tidied(p: QuietPeriod): QuietPeriod {
    p.(recurrenceDays := SortedDistinct(p.recurrenceDays))
  }

  /** The outcome of a write: the row to store, or None when the request is refused. */
  function Accept(payload: Payload, instance: Option<QuietPeriod>): Option<QuietPeriod> {
    var row := Tidied(Candidate(payload, instance));
    if WellFormed(row) then Some(row) else None
  }

  /** The complaint a field of the merged row deserves, if any. */
  function Complaint(c: QuietPeriod, field: Field): Option<Problem> {
    match field
    case StartAt =>
      if c.periodType.Once? then (if c.startAt.None? then Some(Required) else None)
      else if c.startAt.Some? then Some(MustBeEmpty) else None
    case EndAt =>
      if c.periodType.Recurring? then (if c.endAt.Some? then Some(MustBeEmpty) else None)
      else if c.endAt.None? then Some(Required)
      else if c.startAt.Some? && c.endAt.value <= c.startAt.value then Some(EndNotAfterStart) else None
    case RecurrenceDays =>
      if c.periodType.Once? then (if c.recurrenceDays != [] then Some(MustBeEmpty) else None)
      else if c.recurrenceDays == [] then Some(Required) else None
    case StartTime =>
      if c.periodType.Once? then (if c.startTime.Some? then Some(MustBeEmpty) else None)
      else if c.startTime.None? then Some(Required) else None
    case EndTime =>
      if c.periodType.Once? then (if c.endTime.Some? then Some(MustBeEmpty) else None)
      else if c.endTime.None? then Some(Required)
      else if c.startTime.Some? && c.startTime.value == c.endTime.value then Some(SameTimes) else None
  }

  /** Which fields are missing, superfluous or contradictory. */
  lemma ComplaintMeaning(c: QuietPeriod)
    ensures c.periodType == Once ==>
              && (Complaint(c, StartAt) == Some(Required) <==> c.startAt == None)
              && (Complaint(c, EndAt) == Some(Required) <==> c.endAt == None)
              && (Complaint(c, EndAt) == Some(EndNotAfterStart) <==>
                    c.startAt.Some? && c.endAt.Some? && c.endAt.value <= c.startAt.value)
              && (Complaint(c, RecurrenceDays) == Some(MustBeEmpty) <==> c.recurrenceDays != [])
              && (Complaint(c, StartTime) == Some(MustBeEmpty) <==> c.startTime != None)
              && (Complaint(c, EndTime) == Some(MustBeEmpty) <==> c.endTime != None)
    ensures c.periodType == Recurring ==>
              && (Complaint(c, RecurrenceDays) == Some(Required) <==> c.recurrenceDays == [])
              && (Complaint(c, StartTime) == Some(Required) <==> c.startTime == None)
              && (Complaint(c, EndTime) == Some(Required) <==> c.endTime == None)
              && (Complaint(c, EndTime) == Some(SameTimes) <==> c.startTime.Some? && c.startTime == c.endTime)
              && (Complaint(c, StartAt) == Some(MustBeEmpty) <==> c.startAt != None)
              && (Complaint(c, EndAt) == Some(MustBeEmpty) <==> c.endAt != None)
  {
  }

  /** A merged row draws no complaint exactly when, with its days sorted, it is well formed. */
  lemma NoComplaintMeansWellFormed(c: QuietPeriod)
    requires InRange(c.recurrenceDays)
    ensures WellFormed(Tidied(c)) <==> forall f :: Complaint(c, f).None?
  {
    SortedDistinctMeaning(c.recurrenceDays);
    if c.recurrenceDays != [] {
      assert c.recurrenceDays[0] in SortedDistinct(c.recurrenceDays);
    }
    if forall f :: Complaint(c, f).None? {
      assert Complaint(c, StartAt).None? && Complaint(c, EndAt).None?;
      assert Complaint(c, RecurrenceDays).None?;
      assert Complaint(c, StartTime).None? && Complaint(c, EndTime).None?;
    }
    if WellFormed(Tidied(c)) {
      forall f ensures Complaint(c, f).None? {
        match f case StartAt => case EndAt => case RecurrenceDays => case StartTime => case EndTime =>
      }
    }
  }

  // ---------- The serializer ----------

  /** The error dictionary lists exactly the complaints about the merged row. */
  ghost predicate ListsComplaints(errors: map<Field, Problem>, c: QuietPeriod) {
    forall f :: (f in errors <==> Complaint(c, f).Some?) && (f in errors ==> errors[f] == Complaint(c, f).value)
  }

  method OneTimeErrors(c: QuietPeriod) returns (errors: map<Field, Problem>)
    requires c.periodType.Once?
    ensures ListsComplaints(errors, c)
  {
    errors := map[];
    if c.startAt.None? { errors := errors[StartAt := Required]; }
    if c.endAt.None? { errors := errors[EndAt := Required]; }
    if c.startAt.Some? && c.endAt.Some? && c.endAt.value <= c.startAt.value {
      errors := errors[EndAt := EndNotAfterStart];
    }
    if c.recurrenceDays != [] { errors := errors[RecurrenceDays := MustBeEmpty]; }
    if c.startTime.Some? { errors := errors[StartTime := MustBeEmpty]; }
    if c.endTime.Some? { errors := errors[EndTime := MustBeEmpty]; }
    forall f ensures (f in errors <==> Complaint(c, f).Some?)
                     && (f in errors ==> errors[f] == Complaint(c, f).value)
    {
      match f case StartAt => case EndAt => case RecurrenceDays => case StartTime => case EndTime =>
    }
  }

  method RecurringErrors(c: QuietPeriod) returns (errors: map<Field, Problem>)
    requires c.periodType.Recurring?
    ensures ListsComplaints(errors, c)
  {
    errors := map[];
    if c.recurrenceDays == [] { errors := errors[RecurrenceDays := Required]; }
    if c.startTime.None? { errors := errors[StartTime := Required]; }
    if c.endTime.None? { errors := errors[EndTime := Required]; }
    if c.startTime.Some? && c.endTime.Some? && c.startTime.value == c.endTime.value {
      errors := errors[EndTime := SameTimes];
    }
    if c.startAt.Some? { errors := errors[StartAt := MustBeEmpty]; }
    if c.endAt.Some? { errors := errors[EndAt := MustBeEmpty]; }
    forall f ensures (f in errors <==> Complaint(c, f).Some?)
                     && (f in errors ==> errors[f] == Complaint(c, f).value)
    {
      match f case StartAt => case EndAt => case RecurrenceDays => case StartTime => case EndTime =>
    }
  }

  /** The submitted or inherited days, sorted and distinct, go into the request. */
  function Rewritten(payload: Payload, c: QuietPeriod): Payload
    requires InRange(c.recurrenceDays)
  {
    SortedDistinctStaysInRange(c.recurrenceDays);
    if c.recurrenceDays != [] then payload.(recurrenceDays := Some(SortedDistinct(c.recurrenceDays))) else payload
  }

  /** The keys of the other period type are overwritten with their empty values. */
  function Normalized(attrs: Payload, instance: Option<QuietPeriod>): Payload {
    if Candidate(attrs, instance).periodType.Once?
    then attrs.(recurrenceDays := Some([]), startTime := Some(None), endTime := Some(None))
    else attrs.(startAt := Some(None), endAt := Some(None))
  }

  /** Fills the error dictionary field by field; on success rewrites the submitted days. */
  method Validate(payload: Payload, instance: Option<QuietPeriod>)
    returns (errors: map<Field, Problem>, attrs: Payload)
    requires instance.Some? ==> InRange(instance.value.recurrenceDays)
    ensures errors == map[] <==> WellFormed(Tidied(Candidate(payload, instance)))
    ensures ListsComplaints(errors, Candidate(payload, instance))
    ensures attrs == if errors == map[] then Rewritten(payload, Candidate(payload, instance)) else payload
  {
    attrs := payload;
    errors := map[];
    var c := Candidate(payload, instance);
    if c.periodType.Once? {
      errors := OneTimeErrors(c);
    } else {
      errors := RecurringErrors(c);
    }
    NoComplaintMeansWellFormed(c);
    if errors != map[] {
      ghost var f :| f in errors;
      return;
    }
    if c.recurrenceDays != [] {
      attrs := attrs.(recurrenceDays := Some(SortedDistinct(c.recurrenceDays)));
    }
  }

  /** Overwrites the keys of the other period type with their empty values. */
  method NormalizePayload(attrs: Payload, instance: Option<QuietPeriod>) returns (normalized: Payload)
    ensures normalized == Normalized(attrs, instance)
  {
    var periodType := GetOr(attrs.periodType, if instance.Some? then instance.value.periodType else Once);
    normalized := attrs;
    if periodType.Once? {
      normalized := normalized.(recurrenceDays := Some([]));
      normalized := normalized.(startTime := Some(None));
      normalized := normalized.(endTime := Some(None));
    } else {
      normalized := normalized.(startAt := Some(None));
      normalized := normalized.(endAt := Some(None));
    }
  }

  /** Sets every key present in the payload on a row. */
  function SetAll(row: QuietPeriod, payload: Payload): QuietPeriod {
    QuietPeriod(
      GetOr(payload.isActive, row.isActive),
      GetOr(payload.periodType, row.periodType),
      GetOr(payload.startAt, row.startAt),
      GetOr(payload.endAt, row.endAt),
      GetOr(payload.recurrenceDays, row.recurrenceDays),
      GetOr(payload.startTime, row.startTime),
      GetOr(payload.endTime, row.endTime))
  }

  /** Column defaults of a new row. */
  const DEFAULT_ROW := QuietPeriod(true, Once, None, None, [], None, None)

  /** The quiet-period table of one application or one device. */
  class PeriodTable {
    var rows: map<nat, QuietPeriod>
    var nextId: nat

    ghost predicate Valid()
      reads this
    {
      && (forall id :: id in rows ==> id < nextId)
      && (forall id :: id in rows ==> WellFormed(rows[id]))
    }

    constructor ()
      ensures Valid() && rows == map[]
    {
      rows := map[];
      nextId := 0;
    }

    method Create(payload: Payload) returns (errors: map<Field, Problem>)
      requires Valid()
      modifies this
      ensures Valid()
      ensures errors == map[] <==> Accept(payload, None).Some?
      ensures rows == match Accept(payload, None)
                      case None => old(rows)
                      case Some(row) => old(rows)[old(nextId) := row]
    {
      var attrs;
      errors, attrs := Validate(payload, None);
      if errors != map[] {
        return;
      }
      var normalized := NormalizePayload(attrs, None);
      WrittenRowIsAccepted(payload, attrs, normalized, None, DEFAULT_ROW);
      rows := rows[nextId := SetAll(DEFAULT_ROW, normalized)];
      nextId := nextId + 1;
    }

    method Update(id: nat, payload: Payload) returns (errors: map<Field, Problem>)
      requires Valid() && id in rows
      modifies this
      ensures Valid()
      ensures errors == map[] <==> Accept(payload, Some(old(rows)[id])).Some?
      ensures rows == match Accept(payload, Some(old(rows)[id]))
                      case None => old(rows)
                      case Some(row) => old(rows)[id := row]
    {
      var instance := rows[id];
      var attrs;
      errors, attrs := Validate(payload, Some(instance));
      if errors != map[] {
        return;
      }
      var normalized := NormalizePayload(attrs, Some(instance));
      WrittenRowIsAccepted(payload, attrs, normalized, Some(instance), instance);
      rows := rows[id := SetAll(instance, normalized)];
    }
  }

  /** What the three serializer steps write is exactly the accepted row. */
  lemma WrittenRowIsAccepted(payload: Payload, attrs: Payload, normalized: Payload,
                             instance: Option<QuietPeriod>, row: QuietPeriod)
    requires instance.None? ==> row == DEFAULT_ROW
    requires instance.Some? ==> row == instance.value && WellFormed(row)
    requires WellFormed(Tidied(Candidate(payload, instance)))
    requires attrs == Rewritten(payload, Candidate(payload, instance)) && normalized == Normalized(attrs, instance)
    ensures Some(SetAll(row, normalized)) == Accept(payload, instance)
  {
  }

  // ---------- Histories ----------

  /** A stored row: its days are weekday numbers. */
  type StoredPeriod = p: QuietPeriod | InRange(p.recurrenceDays) witness DEFAULT_ROW

  /** The row that the serializer's steps write: nothing when a field draws a complaint, else
      every key of the rewritten and normalised request set on the stored or default row. */
  function Written(payload: Payload, instance: Option<StoredPeriod>): Option<StoredPeriod> {
    var c := Candidate(payload, instance);
    if Complaint(c, StartAt).Some? || Complaint(c, EndAt).Some? || Complaint(c, RecurrenceDays).Some?
       || Complaint(c, StartTime).Some? || Complaint(c, EndTime).Some? then None
    else Some(SetAll(GetOr(instance, DEFAULT_ROW), Normalized(Rewritten(payload, c), instance)))
  }

  /** The complaints, the rewriting and the normalisation together accept exactly the rows
      that are well formed, and write those. */
  lemma WrittenIsAccepted(payload: Payload, instance: Option<StoredPeriod>)
    requires instance.Some? ==> WellFormed(instance.value)
    ensures Written(payload, instance) == Accept(payload, instance)
  {
    var c := Candidate(payload, instance);
    NoComplaintMeansWellFormed(c);
    if WellFormed(Tidied(c)) {
      var attrs := Rewritten(payload, c);
      WrittenRowIsAccepted(payload, attrs, Normalized(attrs, instance), instance, GetOr(instance, DEFAULT_ROW));
    } else {
      var f :| Complaint(c, f).Some?;
      match f case StartAt => case EndAt => case RecurrenceDays => case StartTime => case EndTime =>
    }
  }

  /** What was sent, else what the stored row has, which counts only if the type is kept. */
  predicate SentOrKept<T(==)>(sent: Option<T>, stored: T, keeps: bool, old': T) {
    if sent.Some? then stored == sent.value else keeps && stored == old'
  }

  /** Field by field, the one-time row that an accepted request stores. */
  lemma {:induction false} StoredOneTimeFields(payload: Payload, instance: Option<StoredPeriod>)
    requires instance.Some? ==> WellFormed(instance.value)
    requires Written(payload, instance).Some? && Written(payload, instance).value.periodType.Once?
    ensures var r, old' := Written(payload, instance).value, GetOr(instance, DEFAULT_ROW);
            var keeps := instance.Some? && old'.periodType == Once;
            && SentOrKept(payload.startAt, r.startAt, keeps, old'.startAt)
            && SentOrKept(payload.endAt, r.endAt, keeps, old'.endAt)
            && r.startAt.Some? && r.endAt.Some? && r.startAt.value < r.endAt.value
            && r.recurrenceDays == [] && r.startTime == None && r.endTime == None
  {
    WrittenIsAccepted(payload, instance);
  }

  /** Field by field, the recurring row that an accepted request stores: the days are the
      submitted ones, increasing. */
  lemma {:induction false} StoredRecurringFields(payload: Payload, instance: Option<StoredPeriod>)
    requires instance.Some? ==> WellFormed(instance.value)
    requires Written(payload, instance).Some? && Written(payload, instance).value.periodType.Recurring?
    ensures var r, old' := Written(payload, instance).value, GetOr(instance, DEFAULT_ROW);
            var keeps := instance.Some? && old'.periodType == Recurring;
            && SentOrKept(payload.startTime, r.startTime, keeps, old'.startTime)
            && SentOrKept(payload.endTime, r.endTime, keeps, old'.endTime)
            && r.startTime.Some? && r.endTime.Some? && r.startTime != r.endTime
            && r.startAt == None && r.endAt == None
  {
    WrittenIsAccepted(payload, instance);
  }

  lemma {:induction false} StoredDays(payload: Payload, instance: Option<StoredPeriod>)
    requires instance.Some? ==> WellFormed(instance.value)
    requires Written(payload, instance).Some? && Written(payload, instance).value.periodType.Recurring?
    ensures var r := Written(payload, instance).value;
            && (payload.recurrenceDays.Some? ==>
                  forall d: int :: d in r.recurrenceDays <==> d in payload.recurrenceDays.value)
            && (payload.recurrenceDays.None? ==>
                  instance.Some? && instance.value.periodType == Recurring
                  && r.recurrenceDays == instance.value.recurrenceDays)
            && |r.recurrenceDays| > 0
            && (forall i, j :: 0 <= i < j < |r.recurrenceDays| ==> r.recurrenceDays[i] < r.recurrenceDays[j])
  {
    WrittenIsAccepted(payload, instance);
    SubmittedDaysAreStored(Candidate(payload, instance).recurrenceDays);
    if payload.recurrenceDays.None? && instance.Some? {
      SortedDistinctFixesSorted(instance.value.recurrenceDays);
    }
  }

  /** The type and the active flag are what was sent, else the stored ones; a new row is by
      default one-time and active. */
  lemma StoredTypeAndFlag(payload: Payload, instance: Option<StoredPeriod>)
    requires Written(payload, instance).Some?
    ensures var r, old' := Written(payload, instance).value, GetOr(instance, DEFAULT_ROW);
            && SentOrKept(payload.periodType, r.periodType, true, old'.periodType)
            && SentOrKept(payload.isActive, r.isActive, true, old'.isActive)
            && DEFAULT_ROW.periodType == Once && DEFAULT_ROW.isActive
  {
  }

  lemma SubmittedDaysAreStored(days: seq<int>)
    ensures forall d: int :: d in SortedDistinct(days) <==> d in days
    ensures SortedDistinct(days) == [] <==> days == []
  {
    SortedDistinctMeaning(days);
    if days != [] {
      assert days[0] in SortedDistinct(days);
    }
  }

  datatype Write = Create(payload: Payload) | Update(id: nat, payload: Payload) | Delete(id: nat)

  datatype Table = Table(rows: map<nat, StoredPeriod>, nextId: nat)

  function ApplyWrite(t: Table, w: Write): Table {
    match w
    case Create(payload) =>
      (match Written(payload, None)
       case None => t
       case Some(row) => Table(t.rows[t.nextId := row], t.nextId + 1))
    case Update(id, payload) =>
      if id !in t.rows then t
      else (match Written(payload, Some(t.rows[id]))
            case None => t
            case Some(row) => t.(rows := t.rows[id := row]))
    case Delete(id) => t.(rows := t.rows - {id})
  }

  function ApplyWrites(t: Table, ws: seq<Write>): Table {
    if ws == [] then t else ApplyWrite(ApplyWrites(t, ws[..|ws| - 1]), ws[|ws| - 1])
  }

  /** After any history of creates, partial updates and deletes every stored row is well formed. */
  lemma {:induction false} EveryHistoryKeepsRowsWellFormed(ws: seq<Write>)
    ensures forall id :: id in ApplyWrites(Table(map[], 0), ws).rows ==>
              WellFormed(ApplyWrites(Table(map[], 0), ws).rows[id])
  {
    if ws != [] {
      var k := |ws| - 1;
      EveryHistoryKeepsRowsWellFormed(ws[..k]);
      var before := ApplyWrites(Table(map[], 0), ws[..k]);
      match ws[k]
      case Create(payload) => WrittenIsAccepted(payload, None);
      case Update(id, payload) =>
        if id in before.rows {
          WrittenIsAccepted(payload, Some(before.rows[id]));
        }
      case Delete(_) =>
    }
  }

  /** An empty partial update of a stored row is accepted and changes nothing. */
  lemma EmptyUpdateIsIdentity(row: QuietPeriod)
    requires WellFormed(row)
    ensures Accept(EMPTY_PAYLOAD, Some(row)) == Some(row)
  {
    SortedDistinctFixesSorted(row.recurrenceDays);
  }

  /** A change of type is accepted only when the request itself carries all the fields of
      the new type: nothing is inherited from the old one. */
  lemma ChangeOfTypeNeedsItsOwnFields(payload: Payload, row: QuietPeriod)
    requires WellFormed(row) && payload.periodType.Some? && payload.periodType.value != row.periodType
    requires Accept(payload, Some(row)).Some?
    ensures payload.periodType.value.Once? ==>
              payload.startAt.Some? && payload.startAt.value.Some?
              && payload.endAt.Some? && payload.endAt.value.Some?
    ensures payload.periodType.value.Recurring? ==>
              payload.recurrenceDays.Some? && payload.recurrenceDays.value != []
              && payload.startTime.Some? && payload.startTime.value.Some?
              && payload.endTime.Some? && payload.endTime.value.Some?
    ensures Accept(payload, Some(row)) ==
            Accept(payload.(isActive := Some(GetOr(payload.isActive, row.isActive))), None)
  {
  }
}
