/**
 * The record types of the studio's booking platform and the constraints their
 * Django field declarations impose: choices, defaults, maximum lengths,
 * required fields and the foreign keys between records (OWM/models.py).
 */
module Models {
  import opened Wrappers

  /** Primary keys of every table. */
  type Id = nat

  /** A calendar date, as the date parser produces it; never interpreted here. */
  datatype Date = Date(year: int, month: int, day: int)

  /** A time of day, as stored in a TimeField; never interpreted here. */
  datatype Time = Time(hour: int, minute: int, second: int)

  /** A Django `choices` list: pairs of (stored value, display label). */
  type Choices = seq<(string, string)>

  const CategoryChoices: Choices :=
    [("video", "Video Recording"), ("audio", "Audio Recording"), ("photo", "Photo Shooting")]

  /**
   * Booking statuses as they are stored. They are lower-case and spell
   * "canceled" with one l, while the booking handlers compare against
   * "Pending", "Completed" and "Cancelled" (see Views.EditableAsWritten).
   */
  const StatusChoices: Choices :=
    [("pending", "Pending"), ("completed", "Completed"), ("canceled", "Canceled")]

  const DefaultStatus := "pending"

  const NameMaxLength := 20          // first_name, last_name, username
  const PhoneMaxLength := 15
  const AddressMaxLength := 30
  const ServiceNameMaxLength := 100
  const CategoryMaxLength := 10
  const StatusMaxLength := 10
  const BookingLocationMaxLength := 100
  const CartLocationMaxLength := 255
  /** A DecimalField with max_digits=10 and decimal_places=2, counted in cents. */
  const PriceBound := 10_000_000_000

  /** `value` is one of the stored values of `choices`. */
  predicate IsChoice(choices: Choices, value: string) {
    exists i :: 0 <= i < |choices| && choices[i].0 == value
  }

  /**
   * The label a choices list pairs with a stored value, or None for a value
   * that is not one of its choices.
   */
  function ChoiceLabel(choices: Choices, value: string): (display: Option<string>)
    ensures display.Some? <==> IsChoice(choices, value)
    ensures display.Some? ==> exists i :: 0 <= i < |choices| && choices[i] == (value, display.value)
  {
    if |choices| == 0 then None
    else if choices[0].0 == value then Some(choices[0].1)
    else
      var rest := ChoiceLabel(choices[1..], value);
      assert IsChoice(choices, value) ==> IsChoice(choices[1..], value) by {
        if IsChoice(choices, value) {
          var i :| 0 <= i < |choices| && choices[i].0 == value;
          assert choices[1..][i - 1].0 == value;
        }
      }
      assert rest.Some? ==> exists i :: 0 <= i < |choices| && choices[i] == (value, rest.value) by {
        if rest.Some? {
          var j :| 0 <= j < |choices| - 1 && choices[1..][j] == (value, rest.value);
          assert choices[j + 1] == (value, rest.value);
        }
      }
      rest
  }

  // ---------------------------------------------------------------- CustomUser

  /** A user profile (the CustomUser model; its primary key is the key of the user table). */
  datatype User = User(
    firstName: string,
    lastName: string,
    username: string,
    email: string,
    phone: Option<string>,
    profilePic: string,
    address: string,
    password: string)

  /** The length limits of the user's character fields; a username may not be blank. */
  predicate ValidUser(u: User) {
    && |u.firstName| <= NameMaxLength
    && |u.lastName| <= NameMaxLength
    && 0 < |u.username| <= NameMaxLength
    && (u.phone.Some? ==> |u.phone.value| <= PhoneMaxLength)
    && |u.address| <= AddressMaxLength
  }

  /** The username column is unique. */
  predicate UniqueUsernames(users: map<Id, User>) {
    forall a, b | a in users && b in users && a != b :: users[a].username != users[b].username
  }

  // ------------------------------------------------------------------- Service

  /** A catalogue item; the price is held in cents. */
  datatype Service = Service(
    name: string,
    category: string,
    description: string,
    priceCents: int,
    image: Option<string>)

  predicate ValidService(s: Service) {
    && |s.name| <= ServiceNameMaxLength
    && IsChoice(CategoryChoices, s.category)
    && -PriceBound < s.priceCents < PriceBound
  }

  /** The category choices are exactly video, audio and photo, and each fits its column. */
  lemma CategoryIsMediaKind(c: string)
    requires IsChoice(CategoryChoices, c)
    ensures c == "video" || c == "audio" || c == "photo"
    ensures |c| <= CategoryMaxLength
  {
    var i :| 0 <= i < |CategoryChoices| && CategoryChoices[i].0 == c;
    assert i == 0 || i == 1 || i == 2;
  }

  // ------------------------------------------------------------------- Booking

  /** A booking of a service for an event; `status` holds the stored choice value. */
  datatype Booking = Booking(
    user: Id,
    service: Id,
    eventDate: Date,
    eventTime: Time,
    eventLocation: string,
    status: string,
    bookedAt: int)

  predicate ValidBooking(b: Booking) {
    && |b.eventLocation| <= BookingLocationMaxLength
    && IsChoice(StatusChoices, b.status)
  }

  /** A stored status is one of pending, completed, canceled and fits its column. */
  lemma StatusIsStoredChoice(s: string)
    requires IsChoice(StatusChoices, s)
    ensures s == "pending" || s == "completed" || s == "canceled"
    ensures |s| <= StatusMaxLength
  {
    var i :| 0 <= i < |StatusChoices| && StatusChoices[i].0 == s;
    assert i == 0 || i == 1 || i == 2;
  }

  /**
   * A booking as inserted: the status is the supplied one, or its default
   * when none is supplied, and `booked_at` the insertion time `now`
   * (auto_now_add).
   */
  function NewBooking(user: Id, service: Id, date: Date, time: Time, location: string, status: Option<string>,
                      now: int): (b: Booking)
    ensures status.None? ==> b.status == DefaultStatus && ChoiceLabel(StatusChoices, b.status) == Some("Pending")
    ensures status.Some? ==> b.status == status.value
    ensures ValidBooking(b) <==>
              |location| <= BookingLocationMaxLength && (status.Some? ==> IsChoice(StatusChoices, status.value))
  {
    assert StatusChoices[0].0 == DefaultStatus;
    Booking(user, service, date, time, location, status.GetOr(DefaultStatus), now)
  }

  // --------------------------------------------------------------------- Cart

  /** A cart entry: date, time and location are all non-null columns. */
  datatype CartEntry = CartEntry(
    user: Id,
    service: Id,
    eventDate: Date,
    eventLocation: string,
    eventTime: Time,
    addedAt: int)

  predicate ValidCartEntry(c: CartEntry) {
    |c.eventLocation| <= CartLocationMaxLength
  }

  // ------------------------------------------------------------------- Review

  /** A review; the rating is a PositiveIntegerField, which admits zero. */
  datatype Review = Review(
    user: Id,
    service: Id,
    rating: nat,
    comment: string,
    createdAt: int)

  // ----------------------------------------------------------------- Database

  /** The tables of the core, keyed by primary key. */
  datatype Database = Database(
    users: map<Id, User>,
    services: map<Id, Service>,
    bookings: map<Id, Booking>,
    carts: map<Id, CartEntry>,
    reviews: map<Id, Review>)

  /** Every booking, cart entry and review refers to an existing user and service. */
  predicate ReferencesResolve(db: Database) {
    && (forall id | id in db.bookings :: db.bookings[id].user in db.users && db.bookings[id].service in db.services)
    && (forall id | id in db.carts :: db.carts[id].user in db.users && db.carts[id].service in db.services)
    && (forall id | id in db.reviews :: db.reviews[id].user in db.users && db.reviews[id].service in db.services)
  }

  /** Every record satisfies its field constraints, and usernames are unique. */
  predicate ValidDatabase(db: Database) {
    && ReferencesResolve(db)
    && UniqueUsernames(db.users)
    && (forall id | id in db.users :: ValidUser(db.users[id]))
    && (forall id | id in db.services :: ValidService(db.services[id]))
    && (forall id | id in db.bookings :: ValidBooking(db.bookings[id]))
    && (forall id | id in db.carts :: ValidCartEntry(db.carts[id]))
  }

  /** Inserting a valid booking that refers to an existing user and service keeps the database valid. */
  lemma InsertBookingKeepsDatabaseValid(db: Database, id: Id, b: Booking)
    requires ValidDatabase(db)
    requires ValidBooking(b) && b.user in db.users && b.service in db.services
    ensures ValidDatabase(db.(bookings := db.bookings[id := b]))
  {
  }

  /** Removing a booking keeps the database valid: nothing refers to a booking. */
  lemma RemoveBookingKeepsDatabaseValid(db: Database, id: Id)
    requires ValidDatabase(db)
    ensures ValidDatabase(db.(bookings := db.bookings - {id}))
  {
  }
}
