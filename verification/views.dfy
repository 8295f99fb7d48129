/**
 * The booking endpoints (OWM/views.py): a store of bookings keyed by id that
 * the create, edit and delete handlers change behind early-return guards, and
 * the list, detail and dashboard reads, which are filters over that store.
 *
 * The guards and checks of the handlers follow the code, including three
 * inconsistencies:
 *  - the create handler rejects a slot on (service, date) while the edit
 *    handler rejects it on (service, date, time); neither looks at the status;
 *  - the handlers compare the status with "Pending", "Completed" and
 *    "Cancelled", while the stored values are "pending", "completed" and
 *    "canceled" (Models.StatusChoices);
 *  - the handlers check the date under the payload key `date`, while the
 *    booking serializer stores the one under `event_date`.
 * The availability query of the create handler is modelled as intended (on
 * `event_date`); as written it names no field (CreateQueryAsWrittenFails).
 */
module Views {
  import opened Wrappers
  import opened Models

  // ------------------------------------------------------------ requests

  /** What the booking handlers answer. */
  datatype Response =
    | Created(id: Id)
    | Updated(id: Id)
    | Deleted
    | Found(booking: Booking)
    | BadRequest(reason: Reason)
    | NotFound

  datatype Reason =
    | MissingServiceOrDate     // "Service and date are required"
    | AlreadyBookedOnDate      // create: the service is taken on that date
    | NotEditable              // edit: status is neither "Pending" nor "Cancelled"
    | InvalidDateFormat        // edit: the date does not parse
    | SlotTaken                // edit: another booking holds the slot
    | InvalidPayload           // the booking serializer rejected the data

  /**
   * The body of a create request. `date` is the raw text the handler reads and
   * parses for its check; `eventDate` is the `event_date` key as the booking
   * serializer parses it, the date that is stored. The two are separate keys.
   */
  datatype CreateRequest = CreateRequest(
    service: Option<Id>,
    date: Option<string>,
    eventDate: Option<Date>,
    eventTime: Option<Time>,
    eventLocation: Option<string>,
    status: Option<string>)

  /** The body of an edit request; absent serializer keys leave the stored field alone. */
  datatype EditRequest = EditRequest(
    service: Option<Id>,
    date: Option<string>,
    eventDate: Option<Date>,
    eventTime: Option<Time>,
    eventLocation: Option<string>,
    status: Option<string>)

  /** Python truthiness of the service key: absent and 0 are both falsy. */
  predicate PresentId(v: Option<Id>) {
    v.Some? && v.value != 0
  }

  /** Python truthiness of the date key: absent and "" are both falsy. */
  predicate PresentText(v: Option<string>) {
    v.Some? && v.value != ""
  }

  /**
   * The booking serializer accepts a creation: `accepts` stands for the
   * checks this model does not see (the nested service, the payload's
   * shape); beside it, the model fields' own constraints: a date, a time and
   * a non-blank location of at most 100 characters.
   */
  predicate CreatePayloadValid(accepts: bool, date: Option<Date>, time: Option<Time>, location: Option<string>,
                              status: Option<string>) {
    && accepts
    && date.Some?
    && time.Some?
    && location.Some? && 0 < |location.value| <= BookingLocationMaxLength
    && (status.Some? ==> IsChoice(StatusChoices, status.value))
  }

  /** The booking serializer accepts a partial edit: supplied fields must meet their constraints. */
  predicate EditPayloadValid(accepts: bool, req: EditRequest) {
    && accepts
    && (req.eventLocation.Some? ==> 0 < |req.eventLocation.value| <= BookingLocationMaxLength)
    && (req.status.Some? ==> IsChoice(StatusChoices, req.status.value))
  }

  // ------------------------------------------------------ table queries

  /** The booking exists and belongs to `user` (every detail lookup filters by owner). */
  predicate Owned(table: map<Id, Booking>, user: Id, pk: Id) {
    pk in table && table[pk].user == user
  }

  /** The create handler's availability query: some booking, of anyone and in any status, has this service on this date. */
  predicate BookedOnDate(table: map<Id, Booking>, service: Id, date: Option<Date>) {
    exists id | id in table :: table[id].service == service && date == Some(table[id].eventDate)
  }

  /**
   * The edit handler's availability query: a booking other than `pk` has this
   * service, date and time. An absent time matches nothing (a NULL lookup on
   * a non-null column).
   */
  predicate SlotTakenByOther(table: map<Id, Booking>, pk: Id, service: Id, date: Date, time: Option<Time>) {
    exists id | id in table && id != pk ::
      table[id].service == service && table[id].eventDate == date && time == Some(table[id].eventTime)
  }

  predicate SameDateSlot(a: Booking, b: Booking) {
    a.service == b.service && a.eventDate == b.eventDate
  }

  /** No two bookings share a service and a date: what the create handler's check is meant to maintain. */
  predicate NoDoubleBooking(table: map<Id, Booking>) {
    forall x, y | x in table && y in table && x != y :: !SameDateSlot(table[x], table[y])
  }

  /** The create request's checked `date` parses to the `event_date` the serializer stores. */
  predicate DateKeysAgree(req: CreateRequest, parseDate: string -> Option<Date>) {
    req.date.Some? && parseDate(req.date.value) == req.eventDate
  }

  /** The edit guard exactly as written: it compares with capitalised literals. */
  predicate EditableAsWritten(status: string) {
    status == "Pending" || status == "Cancelled"
  }

  /**
   * The stored fields after a successful partial edit: the serializer writes
   * the keys it knows; the owner and the booking time never change, and the
   * checked `date` key is not among them.
   */
  function ApplyEdit(b: Booking, service: Id, req: EditRequest): (e: Booking)
    ensures e.user == b.user && e.bookedAt == b.bookedAt
    ensures req.eventDate.None? && req.eventTime.None? && req.eventLocation.None? && req.status.None? ==>
              e == b.(service := service)
  {
    b.(service := service,
       eventDate := req.eventDate.GetOr(b.eventDate),
       eventTime := req.eventTime.GetOr(b.eventTime),
       eventLocation := req.eventLocation.GetOr(b.eventLocation),
       status := req.status.GetOr(b.status))
  }

  // --------------------------------------------------------- read views

  /** The list endpoint: exactly the requester's bookings. */
  function ListBookings(table: map<Id, Booking>, user: Id): (r: map<Id, Booking>)
    ensures forall id :: id in r <==> Owned(table, user, id)
    ensures forall id | id in r :: id in table && r[id] == table[id]
  {
    map id | id in table && table[id].user == user :: table[id]
  }

  /** The detail endpoint: the booking when it exists and is the requester's, otherwise not found. */
  function GetBooking(table: map<Id, Booking>, user: Id, pk: Id): (r: Response)
    ensures r.Found? <==> Owned(table, user, pk)
    ensures r.Found? ==> r.booking == table[pk] && r.booking.user == user
    ensures !r.Found? ==> r == NotFound
  {
    if Owned(table, user, pk) then Found(table[pk]) else NotFound
  }

  /** The bookings of a table whose status equals `status` literally. */
  function WithStatus(table: map<Id, Booking>, status: string): (r: map<Id, Booking>)
    ensures forall id :: id in r <==> id in table && table[id].status == status
    ensures forall id | id in r :: r[id] == table[id]
  {
    map id | id in table && table[id].status == status :: table[id]
  }

  /** The three status groups of the dashboard. */
  datatype Groups = Groups(pending: map<Id, Booking>, completed: map<Id, Booking>, cancelled: map<Id, Booking>)

  /**
   * The dashboard's bookings: the requester's bookings split by status,
   * compared with the handler's literals "Pending", "Completed", "Cancelled".
   */
  function Dashboard(table: map<Id, Booking>, user: Id): (g: Groups)
    ensures forall id :: id in g.pending <==> Owned(table, user, id) && table[id].status == "Pending"
    ensures forall id :: id in g.completed <==> Owned(table, user, id) && table[id].status == "Completed"
    ensures forall id :: id in g.cancelled <==> Owned(table, user, id) && table[id].status == "Cancelled"
    ensures forall id | id in g.pending :: id in table && g.pending[id] == table[id]
    ensures forall id | id in g.completed :: id in table && g.completed[id] == table[id]
    ensures forall id | id in g.cancelled :: id in table && g.cancelled[id] == table[id]
    ensures g.pending.Keys !! g.completed.Keys && g.pending.Keys !! g.cancelled.Keys
    ensures g.completed.Keys !! g.cancelled.Keys
  {
    var mine := ListBookings(table, user);
    Groups(WithStatus(mine, "Pending"), WithStatus(mine, "Completed"), WithStatus(mine, "Cancelled"))
  }

  // ---------------------------------------------------- the booking store

  /** The booking table the create, edit and delete handlers change. */
  class BookingStore {
    var bookings: map<Id, Booking>
    /** The primary key the next insertion receives. */
    var nextId: Id

    /** Every stored key is below the next key, so insertions never overwrite. */
    ghost predicate Valid()
      reads this
    {
      forall id | id in bookings :: id < nextId
    }

    /** Every stored booking meets its field constraints (status choice, location length). */
    ghost predicate WellFormed()
      reads this
    {
      forall id | id in bookings :: ValidBooking(bookings[id])
    }

    constructor ()
      ensures Valid() && WellFormed() && NoDoubleBooking(bookings)
      ensures bookings == map[] && nextId == 0
    {
      bookings := map[];
      nextId := 0;
    }

    /** Saves a new row under a fresh primary key. */
    method Insert(b: Booking) returns (id: Id)
      requires Valid()
      modifies this
      ensures Valid()
      ensures id !in old(bookings) && bookings == old(bookings)[id := b]
      ensures ValidBooking(b) && old(WellFormed()) ==> WellFormed()
      ensures !BookedOnDate(old(bookings), b.service, Some(b.eventDate)) && old(NoDoubleBooking(bookings))
              ==> NoDoubleBooking(bookings)
    {
      id := nextId;
      if !BookedOnDate(bookings, b.service, Some(b.eventDate)) && NoDoubleBooking(bookings) {
        InsertPreservesNoDoubleBooking(bookings, id, b);
      }
      bookings := bookings[id := b];
      nextId := nextId + 1;
    }

    /**
     * The create handler. Rejects a request without a service or a `date`;
     * rejects when any booking already has that service on the parsed `date`;
     * otherwise, if the booking serializer accepts the payload, inserts one
     * booking owned by the requester, with the supplied status or `pending`,
     * on the `event_date` the serializer read, which nothing has checked
     * (CreateCanDoubleBook).
     */
    method Create(requester: Id, req: CreateRequest, parseDate: string -> Option<Date>, serializerAccepts: bool, now: int)
      returns (resp: Response)
      requires Valid()
      modifies this
      ensures Valid()
      ensures !PresentId(req.service) || !PresentText(req.date) ==> resp == BadRequest(MissingServiceOrDate)
      ensures PresentId(req.service) && PresentText(req.date)
              && BookedOnDate(old(bookings), req.service.value, parseDate(req.date.value))
              ==> resp == BadRequest(AlreadyBookedOnDate)
      ensures PresentId(req.service) && PresentText(req.date)
              && !BookedOnDate(old(bookings), req.service.value, parseDate(req.date.value))
              && !CreatePayloadValid(serializerAccepts, req.eventDate, req.eventTime, req.eventLocation, req.status)
              ==> resp == BadRequest(InvalidPayload)
      ensures resp.Created? <==>
              && PresentId(req.service) && PresentText(req.date)
              && !BookedOnDate(old(bookings), req.service.value, parseDate(req.date.value))
              && CreatePayloadValid(serializerAccepts, req.eventDate, req.eventTime, req.eventLocation, req.status)
      ensures resp.Created? ==>
              && resp.id !in old(bookings)
              && bookings == old(bookings)[resp.id := NewBooking(requester, req.service.value,
                   req.eventDate.value, req.eventTime.value, req.eventLocation.value, req.status, now)]
      // The supplied status choice is stored; without one the booking is pending.
      ensures resp.Created? ==> bookings[resp.id].status == if req.status.Some? then req.status.value else DefaultStatus
      ensures !resp.Created? ==> bookings == old(bookings)
      ensures old(WellFormed()) ==> WellFormed()
      // Double bookings are kept out only when the checked key and the stored key agree.
      ensures old(NoDoubleBooking(bookings)) && DateKeysAgree(req, parseDate) ==> NoDoubleBooking(bookings)
    {
      if !PresentId(req.service) || !PresentText(req.date) {
        return BadRequest(MissingServiceOrDate);
      }
      var service := req.service.value;
      var date := parseDate(req.date.value);
      if BookedOnDate(bookings, service, date) {
        return BadRequest(AlreadyBookedOnDate);
      }
      if !CreatePayloadValid(serializerAccepts, req.eventDate, req.eventTime, req.eventLocation, req.status) {
        return BadRequest(InvalidPayload);
      }
      var b := NewBooking(requester, service, req.eventDate.value, req.eventTime.value, req.eventLocation.value, req.status, now);
      var id := Insert(b);
      resp := Created(id);
    }

    /**
     * The create handler as evidently intended: the date it checks is the
     * `event_date` it stores, so no (service, date) pair is ever booked twice.
     */
    method CreateCheckingStoredDate(requester: Id, req: CreateRequest, serializerAccepts: bool, now: int)
      returns (resp: Response)
      requires Valid()
      modifies this
      ensures Valid()
      ensures !PresentId(req.service) || req.eventDate.None? ==> resp == BadRequest(MissingServiceOrDate)
      ensures PresentId(req.service) && req.eventDate.Some?
              && BookedOnDate(old(bookings), req.service.value, req.eventDate)
              ==> resp == BadRequest(AlreadyBookedOnDate)
      ensures PresentId(req.service) && req.eventDate.Some?
              && !BookedOnDate(old(bookings), req.service.value, req.eventDate)
              && !CreatePayloadValid(serializerAccepts, req.eventDate, req.eventTime, req.eventLocation, req.status)
              ==> resp == BadRequest(InvalidPayload)
      ensures resp.Created? <==>
              && PresentId(req.service) && req.eventDate.Some?
              && !BookedOnDate(old(bookings), req.service.value, req.eventDate)
              && CreatePayloadValid(serializerAccepts, req.eventDate, req.eventTime, req.eventLocation, req.status)
      ensures resp.Created? ==>
              && resp.id !in old(bookings)
              && bookings == old(bookings)[resp.id := NewBooking(requester, req.service.value,
                   req.eventDate.value, req.eventTime.value, req.eventLocation.value, req.status, now)]
      // The supplied status choice is stored; without one the booking is pending.
      ensures resp.Created? ==> bookings[resp.id].status == if req.status.Some? then req.status.value else DefaultStatus
      ensures !resp.Created? ==> bookings == old(bookings)
      ensures old(WellFormed()) ==> WellFormed()
      ensures old(NoDoubleBooking(bookings)) ==> NoDoubleBooking(bookings)
    {
      if !PresentId(req.service) || req.eventDate.None? {
        return BadRequest(MissingServiceOrDate);
      }
      var service := req.service.value;
      if BookedOnDate(bookings, service, req.eventDate) {
        return BadRequest(AlreadyBookedOnDate);
      }
      if !CreatePayloadValid(serializerAccepts, req.eventDate, req.eventTime, req.eventLocation, req.status) {
        return BadRequest(InvalidPayload);
      }
      var b := NewBooking(requester, service, req.eventDate.value, req.eventTime.value, req.eventLocation.value, req.status, now);
      var id := Insert(b);
      resp := Created(id);
    }

    /**
     * The edit handler. Looks the booking up among the requester's own;
     * refuses unless its status is "Pending" or "Cancelled" as written;
     * requires a service and a `date` that parses; refuses when another
     * booking holds the same service, parsed `date` and time; otherwise
     * overwrites the fields the serializer reads, `event_date` among them,
     * if it accepts them.
     */
    method Edit(requester: Id, pk: Id, req: EditRequest, parseDate: string -> Option<Date>, serializerAccepts: bool)
      returns (resp: Response)
      requires Valid()
      modifies this
      ensures Valid() && nextId == old(nextId)
      ensures !Owned(old(bookings), requester, pk) ==> resp == NotFound
      ensures Owned(old(bookings), requester, pk) && !EditableAsWritten(old(bookings)[pk].status)
              ==> resp == BadRequest(NotEditable)
      ensures Owned(old(bookings), requester, pk) && EditableAsWritten(old(bookings)[pk].status)
              && (!PresentId(req.service) || !PresentText(req.date))
              ==> resp == BadRequest(MissingServiceOrDate)
      ensures Owned(old(bookings), requester, pk) && EditableAsWritten(old(bookings)[pk].status)
              && PresentId(req.service) && PresentText(req.date) && parseDate(req.date.value).None?
              ==> resp == BadRequest(InvalidDateFormat)
      ensures Owned(old(bookings), requester, pk) && EditableAsWritten(old(bookings)[pk].status)
              && PresentId(req.service) && PresentText(req.date) && parseDate(req.date.value).Some?
              && SlotTakenByOther(old(bookings), pk, req.service.value, parseDate(req.date.value).value, req.eventTime)
              ==> resp == BadRequest(SlotTaken)
      ensures Owned(old(bookings), requester, pk) && EditableAsWritten(old(bookings)[pk].status)
              && PresentId(req.service) && PresentText(req.date) && parseDate(req.date.value).Some?
              && !SlotTakenByOther(old(bookings), pk, req.service.value, parseDate(req.date.value).value, req.eventTime)
              && !EditPayloadValid(serializerAccepts, req)
              ==> resp == BadRequest(InvalidPayload)
      ensures resp.Updated? <==>
              && Owned(old(bookings), requester, pk) && EditableAsWritten(old(bookings)[pk].status)
              && PresentId(req.service) && PresentText(req.date) && parseDate(req.date.value).Some?
              && !SlotTakenByOther(old(bookings), pk, req.service.value, parseDate(req.date.value).value, req.eventTime)
              && EditPayloadValid(serializerAccepts, req)
      ensures resp.Updated? ==>
              && resp.id == pk
              && bookings == old(bookings)[pk := ApplyEdit(old(bookings)[pk], req.service.value, req)]
              && bookings[pk].user == requester
      ensures !resp.Updated? ==> bookings == old(bookings)
      // With every stored status one of the declared choices, no edit ever gets past the status guard.
      ensures old(WellFormed()) ==> !resp.Updated? && WellFormed()
    {
      if !Owned(bookings, requester, pk) {
        return NotFound;
      }
      var current := bookings[pk];
      ghost var stored := WellFormed();
      if stored {
        StoredStatusNeverEditable(current.status);
      }
      if !EditableAsWritten(current.status) {
        return BadRequest(NotEditable);
      }
      if !PresentId(req.service) || !PresentText(req.date) {
        return BadRequest(MissingServiceOrDate);
      }
      var date := parseDate(req.date.value);
      if date.None? {
        return BadRequest(InvalidDateFormat);
      }
      if SlotTakenByOther(bookings, pk, req.service.value, date.value, req.eventTime) {
        return BadRequest(SlotTaken);
      }
      if !EditPayloadValid(serializerAccepts, req) {
        return BadRequest(InvalidPayload);
      }
      bookings := bookings[pk := ApplyEdit(current, req.service.value, req)];
      resp := Updated(pk);
    }

    /** The delete handler: removes the requester's own booking, whatever its status. */
    method Delete(requester: Id, pk: Id) returns (resp: Response)
      requires Valid()
      modifies this
      ensures Valid() && nextId == old(nextId)
      ensures resp == (if Owned(old(bookings), requester, pk) then Deleted else NotFound)
      ensures bookings == if resp.Deleted? then old(bookings) - {pk} else old(bookings)
      ensures old(WellFormed()) ==> WellFormed()
      ensures old(NoDoubleBooking(bookings)) ==> NoDoubleBooking(bookings)
    {
      if !Owned(bookings, requester, pk) {
        return NotFound;
      }
      bookings := bookings - {pk};
      resp := Deleted;
    }
  }

  // ------------------------------------------------------------ lemmas

  /** No stored status passes the edit guard: the literals differ in case, and "Cancelled" in spelling. */
  lemma StoredStatusNeverEditable(s: string)
    requires IsChoice(StatusChoices, s)
    ensures !EditableAsWritten(s)
    ensures s != "Completed"
  {
    StatusIsStoredChoice(s);
  }

  /** With every stored status a declared choice, all three dashboard groups are empty. */
  lemma DashboardEmptyForStoredStatuses(table: map<Id, Booking>, user: Id)
    requires forall id | id in table :: ValidBooking(table[id])
    ensures Dashboard(table, user) == Groups(map[], map[], map[])
  {
    var g := Dashboard(table, user);
    forall id | id in table
      ensures table[id].status != "Pending" && table[id].status != "Completed" && table[id].status != "Cancelled"
    {
      StoredStatusNeverEditable(table[id].status);
    }
    assert g.pending.Keys == {};
    assert g.completed.Keys == {};
    assert g.cancelled.Keys == {};
  }

  /** Every booking blocks creation on its service and date, a canceled one included. */
  lemma AnyBookingBlocksItsDate(table: map<Id, Booking>, id: Id)
    requires id in table
    ensures BookedOnDate(table, table[id].service, Some(table[id].eventDate))
  {
  }

  /** Inserting a booking whose service and date are free keeps the table free of double bookings. */
  lemma InsertPreservesNoDoubleBooking(table: map<Id, Booking>, id: Id, b: Booking)
    requires NoDoubleBooking(table) && id !in table
    requires !BookedOnDate(table, b.service, Some(b.eventDate))
    ensures NoDoubleBooking(table[id := b])
  {
    var t := table[id := b];
    forall x, y | x in t && y in t && x != y
      ensures !SameDateSlot(t[x], t[y])
    {
      if x == id {
        assert y in table && t[y] == table[y];
      } else if y == id {
        assert x in table && t[x] == table[x];
      }
    }
  }

  /**
   * The create check and the stored row read different keys: on a table whose
   * only booking holds (service, D), a request whose `date` names another day
   * and whose `event_date` is D passes every guard of BookingStore.Create, and
   * the row Create then inserts books (service, D) a second time.
   */
  lemma CreateCanDoubleBook(b: Booking, requester: Id, dateText: string, parseDate: string -> Option<Date>,
                            time: Time, location: string, now: int)
    requires b.service != 0 && dateText != "" && parseDate(dateText) != Some(b.eventDate)
    requires 0 < |location| <= BookingLocationMaxLength
    ensures var req := CreateRequest(Some(b.service), Some(dateText), Some(b.eventDate), Some(time), Some(location), None);
            && NoDoubleBooking(map[0 := b])
            && PresentId(req.service) && PresentText(req.date)
            && !BookedOnDate(map[0 := b], req.service.value, parseDate(req.date.value))
            && CreatePayloadValid(true, req.eventDate, req.eventTime, req.eventLocation, req.status)
            && !NoDoubleBooking(map[0 := b][1 := NewBooking(requester, b.service, b.eventDate, time, location, None, now)])
  {
    var after := map[0 := b][1 := NewBooking(requester, b.service, b.eventDate, time, location, None, now)];
    assert after[0] == b;
    assert SameDateSlot(after[0], after[1]);
  }

  /**
   * A booking the create handler inserts, for a user and a service that exist
   * and with a payload the serializer accepts, keeps every record constraint
   * of the database.
   */
  lemma CreatedBookingKeepsDatabaseValid(db: Database, id: Id, requester: Id, service: Id, req: CreateRequest,
                                         serializerAccepts: bool, now: int)
    requires ValidDatabase(db) && requester in db.users && service in db.services
    requires CreatePayloadValid(serializerAccepts, req.eventDate, req.eventTime, req.eventLocation, req.status)
    ensures ValidDatabase(db.(bookings := db.bookings[id := NewBooking(requester, service, req.eventDate.value,
              req.eventTime.value, req.eventLocation.value, req.status, now)]))
  {
    var b := NewBooking(requester, service, req.eventDate.value, req.eventTime.value, req.eventLocation.value, req.status, now);
    InsertBookingKeepsDatabaseValid(db, id, b);
  }

  /** The edit check never counts the edited booking's own row, whatever that row holds. */
  lemma EditCheckIgnoresOwnRow(table: map<Id, Booking>, pk: Id, b: Booking, service: Id, date: Date, time: Option<Time>)
    ensures SlotTakenByOther(table[pk := b], pk, service, date, time) == SlotTakenByOther(table, pk, service, date, time)
  {
    var t := table[pk := b];
    if SlotTakenByOther(t, pk, service, date, time) {
      var id :| id in t && id != pk && t[id].service == service && t[id].eventDate == date && time == Some(t[id].eventTime);
      assert id in table && table[id] == t[id];
    }
    if SlotTakenByOther(table, pk, service, date, time) {
      var id :| id in table && id != pk && table[id].service == service && table[id].eventDate == date
                && time == Some(table[id].eventTime);
      assert id in t && t[id] == table[id];
    }
  }

  /** An edit request without a time never meets a conflict. */
  lemma EditWithoutTimeNeverConflicts(table: map<Id, Booking>, pk: Id, service: Id, date: Date)
    ensures !SlotTakenByOther(table, pk, service, date, None)
  {
  }

  /**
   * The two checks differ in granularity: a booking at another time on the
   * same service and date blocks a creation there but not an edit onto it.
   */
  lemma EditCheckMissesSameDateOtherTime(id: Id, b: Booking, pk: Id, time: Time)
    requires id != pk && time != b.eventTime
    ensures BookedOnDate(map[id := b], b.service, Some(b.eventDate))
    ensures !SlotTakenByOther(map[id := b], pk, b.service, b.eventDate, Some(time))
  {
    assert map[id := b][id] == b;
  }

  /** Deleting one's own booking removes it from one's list and leaves every other user's list alone. */
  lemma DeleteTouchesOnlyOwnList(table: map<Id, Booking>, requester: Id, pk: Id, other: Id)
    requires Owned(table, requester, pk)
    ensures ListBookings(table - {pk}, requester) == ListBookings(table, requester) - {pk}
    ensures other != requester ==> ListBookings(table - {pk}, other) == ListBookings(table, other)
  {
    assert ListBookings(table - {pk}, requester).Keys == ListBookings(table, requester).Keys - {pk};
    if other != requester {
      assert ListBookings(table - {pk}, other).Keys == ListBookings(table, other).Keys;
    }
  }

  /** A new booking appears in its owner's list and in no one else's. */
  lemma InsertTouchesOnlyOwnList(table: map<Id, Booking>, id: Id, b: Booking, user: Id)
    requires id !in table
    ensures ListBookings(table[id := b], user) ==
            if b.user == user then ListBookings(table, user)[id := b] else ListBookings(table, user)
  {
    if b.user == user {
      assert ListBookings(table[id := b], user).Keys == ListBookings(table, user).Keys + {id};
    } else {
      assert ListBookings(table[id := b], user).Keys == ListBookings(table, user).Keys;
    }
  }

  // ------------------------------------------ query keywords (a finding)

  /** The columns of the booking table a queryset filter can name. */
  datatype BookingField =
    | IdField | UserField | ServiceField | EventDateField | EventTimeField
    | EventLocationField | StatusField | BookedAtField

  /** The keywords the Booking model knows: its fields, `id`/`pk` and the foreign keys' `_id` forms. */
  const BookingKeywords: set<string> :=
    {"id", "pk", "user", "user_id", "service", "service_id", "event_date", "event_time",
     "event_location", "status", "booked_at"}

  /**
   * Resolves a filter keyword against the Booking model's fields: the
   * declared fields, the implicit `id`/`pk`, and the `_id` form of the two
   * foreign keys. Any other keyword is unknown to the model.
   */
  function ResolveKeyword(k: string): (f: Option<BookingField>)
    ensures k == "event_date" ==> f == Some(EventDateField)
    ensures k == "service_id" ==> f == Some(ServiceField)
    ensures k == "event_time" ==> f == Some(EventTimeField)
    ensures f.Some? <==> k in BookingKeywords
    ensures k == "date" ==> f.None?
  {
    if k == "id" || k == "pk" then Some(IdField)
    else if k == "user" || k == "user_id" then Some(UserField)
    else if k == "service" || k == "service_id" then Some(ServiceField)
    else if k == "event_date" then Some(EventDateField)
    else if k == "event_time" then Some(EventTimeField)
    else if k == "event_location" then Some(EventLocationField)
    else if k == "status" then Some(StatusField)
    else if k == "booked_at" then Some(BookedAtField)
    else None
  }

  /** The value a lookup compares with; an absent date or time stands for NULL. */
  datatype FieldValue =
    | IdValue(n: Id)
    | DateValue(d: Option<Date>)
    | TimeValue(t: Option<Time>)
    | TextValue(s: string)
    | StampValue(at: int)

  /** One `keyword=value` argument of a queryset filter. */
  datatype Lookup = Lookup(keyword: string, value: FieldValue)

  /** A filter either selects rows or fails on the first keyword it cannot resolve. */
  datatype QueryResult = Matches(ids: set<Id>) | FieldError(keyword: string)

  /** Exact-match semantics of one resolved lookup on one row. */
  predicate FieldMatches(id: Id, b: Booking, f: BookingField, v: FieldValue) {
    match f
    case IdField => v == IdValue(id)
    case UserField => v == IdValue(b.user)
    case ServiceField => v == IdValue(b.service)
    case EventDateField => v == DateValue(Some(b.eventDate))
    case EventTimeField => v == TimeValue(Some(b.eventTime))
    case EventLocationField => v == TextValue(b.eventLocation)
    case StatusField => v == TextValue(b.status)
    case BookedAtField => v == StampValue(b.bookedAt)
  }

  predicate LookupHolds(id: Id, b: Booking, l: Lookup) {
    ResolveKeyword(l.keyword).Some? && FieldMatches(id, b, ResolveKeyword(l.keyword).value, l.value)
  }

  /** A queryset `filter(**lookups)` over the booking table. */
  function Filter(table: map<Id, Booking>, lookups: seq<Lookup>): (r: QueryResult)
    ensures r.FieldError? <==> exists i :: 0 <= i < |lookups| && ResolveKeyword(lookups[i].keyword).None?
    ensures r.FieldError? ==> ResolveKeyword(r.keyword).None?
    ensures r.Matches? ==> forall id :: id in r.ids <==>
              id in table && forall i :: 0 <= i < |lookups| ==> LookupHolds(id, table[id], lookups[i])
  {
    if |lookups| == 0 then Matches(table.Keys)
    else if ResolveKeyword(lookups[0].keyword).None? then FieldError(lookups[0].keyword)
    else
      match Filter(table, lookups[1..])
      case FieldError(k) =>
        assert forall i :: 0 <= i < |lookups| - 1 ==> lookups[1..][i] == lookups[i + 1];
        FieldError(k)
      case Matches(ids) =>
        var r := Matches(set id | id in ids && LookupHolds(id, table[id], lookups[0]));
        assert forall i :: 0 <= i < |lookups| - 1 ==> lookups[1..][i] == lookups[i + 1];
        assert forall id :: id in r.ids <==>
          id in table && forall i :: 0 <= i < |lookups| ==> LookupHolds(id, table[id], lookups[i]) by {
          forall id
            ensures id in r.ids <==>
              id in table && forall i :: 0 <= i < |lookups| ==> LookupHolds(id, table[id], lookups[i])
          {
            if id in table && forall i :: 0 <= i < |lookups| ==> LookupHolds(id, table[id], lookups[i]) {
              assert forall i :: 0 <= i < |lookups| - 1 ==> LookupHolds(id, table[id], lookups[1..][i]);
            }
          }
        }
        r
  }

  /** The create handler's query as written names a `date` field, which Booking does not have. */
  lemma CreateQueryAsWrittenFails(table: map<Id, Booking>, service: Id, date: Option<Date>)
    ensures Filter(table, [Lookup("service_id", IdValue(service)), Lookup("date", DateValue(date))]) == FieldError("date")
  {
    var lookups := [Lookup("service_id", IdValue(service)), Lookup("date", DateValue(date))];
    assert lookups[1..] == [Lookup("date", DateValue(date))];
    assert lookups[1..][1..] == [];
  }

  /** Naming the `event_date` field instead, the query finds a row exactly when BookedOnDate holds. */
  lemma CreateQueryAsIntended(table: map<Id, Booking>, service: Id, date: Option<Date>)
    ensures var q := Filter(table, [Lookup("service_id", IdValue(service)), Lookup("event_date", DateValue(date))]);
            q.Matches? && (q.ids != {} <==> BookedOnDate(table, service, date))
  {
    var lookups := [Lookup("service_id", IdValue(service)), Lookup("event_date", DateValue(date))];
    var q := Filter(table, lookups);
    assert ResolveKeyword(lookups[0].keyword) == Some(ServiceField);
    assert ResolveKeyword(lookups[1].keyword) == Some(EventDateField);
    forall id | id in table
      ensures (forall i :: 0 <= i < |lookups| ==> LookupHolds(id, table[id], lookups[i]))
              <==> (table[id].service == service && date == Some(table[id].eventDate))
    {
      assert LookupHolds(id, table[id], lookups[0]) <==> table[id].service == service;
      assert LookupHolds(id, table[id], lookups[1]) <==> date == Some(table[id].eventDate);
    }
    if q.ids != {} {
      var id :| id in q.ids;
      assert id in table;
    }
    if BookedOnDate(table, service, date) {
      var id :| id in table && table[id].service == service && date == Some(table[id].eventDate);
      assert id in q.ids;
    }
  }

  /** One row satisfies the three lookups of the edit handler's query exactly when it is on that slot. */
  lemma EditLookupsOnRow(id: Id, b: Booking, lookups: seq<Lookup>, service: Id, date: Date, time: Option<Time>)
    requires lookups == [Lookup("service_id", IdValue(service)), Lookup("event_date", DateValue(Some(date))),
                         Lookup("event_time", TimeValue(time))]
    ensures (forall i :: 0 <= i < |lookups| ==> LookupHolds(id, b, lookups[i]))
            <==> (b.service == service && b.eventDate == date && time == Some(b.eventTime))
  {
    assert ResolveKeyword(lookups[0].keyword) == Some(ServiceField);
    assert ResolveKeyword(lookups[1].keyword) == Some(EventDateField);
    assert ResolveKeyword(lookups[2].keyword) == Some(EventTimeField);
    assert LookupHolds(id, b, lookups[0]) <==> b.service == service;
    assert LookupHolds(id, b, lookups[1]) <==> b.eventDate == date;
    assert LookupHolds(id, b, lookups[2]) <==> time == Some(b.eventTime);
  }

  /** The edit handler's query, with its `exclude(pk=pk)`, finds a row exactly when SlotTakenByOther holds. */
  lemma EditQueryAgrees(table: map<Id, Booking>, pk: Id, service: Id, date: Date, time: Option<Time>)
    ensures var q := Filter(table, [Lookup("service_id", IdValue(service)), Lookup("event_date", DateValue(Some(date))),
                                    Lookup("event_time", TimeValue(time))]);
            q.Matches? && (q.ids - {pk} != {} <==> SlotTakenByOther(table, pk, service, date, time))
  {
    var lookups := [Lookup("service_id", IdValue(service)), Lookup("event_date", DateValue(Some(date))),
                    Lookup("event_time", TimeValue(time))];
    var q := Filter(table, lookups);
    assert ResolveKeyword(lookups[0].keyword) == Some(ServiceField);
    assert ResolveKeyword(lookups[1].keyword) == Some(EventDateField);
    assert ResolveKeyword(lookups[2].keyword) == Some(EventTimeField);
    forall id | id in table
      ensures (forall i :: 0 <= i < |lookups| ==> LookupHolds(id, table[id], lookups[i]))
              <==> (table[id].service == service && table[id].eventDate == date && time == Some(table[id].eventTime))
    {
      EditLookupsOnRow(id, table[id], lookups, service, date, time);
    }
    if q.ids - {pk} != {} {
      var id :| id in q.ids - {pk};
      assert id in table;
    }
    if SlotTakenByOther(table, pk, service, date, time) {
      var id :| id in table && id != pk && table[id].service == service && table[id].eventDate == date
                && time == Some(table[id].eventTime);
      assert id in q.ids - {pk};
    }
  }
}
