# Studio booking platform: the booking table and the profile serializer

This project models, in Dafny, the core of a media-production studio's
booking backend (a Django REST application): the store of bookings behind the
booking endpoints, the record types with the constraints their field
declarations impose, and the user-profile serializer's uniqueness validators
and field-by-field update.

- `models.dfy` (module `Models`): the records `User`, `Service`, `Booking`,
  `CartEntry` and `Review`, their choice lists (service categories, booking
  statuses), the default status, the maximum lengths, the foreign keys
  (`ReferencesResolve`) and unique usernames.
- `views.dfy` (module `Views`): class `BookingStore`, a map of bookings keyed
  by id that the create, edit and delete handlers change behind their
  early-return guards; the list, detail and dashboard reads as functions over
  that map; and a small model of queryset keyword resolution (`Filter`).
- `serializers.dfy` (module `Serializers`): `validate_email` and
  `validate_username` as queries over the user table; `update` as a method on
  a user instance whose `setattr` loop is proved against the function
  `UpdateProfile`; `create`.
- `wrappers.dfy` (module `Wrappers`): `Option`.

The guards, checks and refusals of the handlers are modelled as written,
including three inconsistencies:

- **Conflict granularity.** Creating a booking is refused when *any* booking,
  of any user and in any status, has the same service on the same date
  (`BookedOnDate`). Editing is refused only when *another* booking has the same
  service, date **and time** (`SlotTakenByOther`); an edit without a time never
  meets a conflict. `EditCheckMissesSameDateOtherTime` shows a booking that
  blocks a creation but not an edit onto its date.
- **Status spelling.** Statuses are stored as `pending`, `completed`,
  `canceled`, but the edit guard and the dashboard compare with `Pending`,
  `Completed`, `Cancelled`. The model keeps the stored strings, so
  `StoredStatusNeverEditable` and `DashboardEmptyForStoredStatuses` prove the
  consequences: no stored booking can be edited, and, with the database
  comparing strings case-sensitively, the dashboard groups are always empty. `Cancelled` is not even the display label, which is
  `Canceled`. `BookingStore.WellFormed` (every status a declared choice) is
  therefore kept as a preserved property, not as part of `Valid`, so that the
  edit path stays reachable in the model.
- **Two date keys.** Both handlers check the payload key `date`, but the
  booking serializer does not know that key and stores the date under
  `event_date`. The requests carry both keys. `BookingStore.Create` keeps
  (service, date) pairs unique only when the two agree (`DateKeysAgree`), and
  `CreateCanDoubleBook` shows a request that books a taken pair a second
  time. `BookingStore.CreateCheckingStoredDate` is the intended handler,
  which checks the date it stores and keeps pairs unique unconditionally.

Three parts of the booking handlers follow the intended behaviour rather than
the code. As written, no create and no edit can ever succeed:

- the create handler's availability query names a field `date` that Booking
  does not have, so it fails (see "Findings"); the model uses the query on
  `event_date`;
- the booking serializer's `user` field is read-only, so the owner the
  handlers put into the payload is dropped and `save()` inserts a row without
  one, which the non-null foreign key refuses; the model inserts the booking
  with the requester as owner;
- the serializer's `service` field is a nested serializer. A service id fails
  its validation, and a mapping makes the availability query raise before the
  serializer is reached, so as written `serializerAccepts` is false for every
  request that gets that far; were a payload accepted, DRF would refuse to
  save the writable nested field. The model lets an accepted payload be saved.

A successful create or edit in the model is therefore what the handlers are
meant to do, not what they do. Everything
before the save follows the code: every guard, every refusal and its order,
and which bookings each check looks at. In particular, canceled bookings still
block creation, deletion is owner-only with no status check and no staff
override, and only the stored casing exists.

Opaque collaborators are parameters: the date parser (`parseDate: string ->
Option<Date>`), the password hasher (`makePassword: string -> string`), the
clock (`now`), and the booking serializer's verdict on everything this model
does not see (`serializerAccepts`): the outcome of `is_valid()` on the
payload's shape, on the nested service, on the existence of that service, and
on the parsing of `event_date` and `event_time`. The model adds to that
verdict the constraints the serializer derives from the model fields:
required date, time and location, location length, and status choices.

## Model

| member | source | states |
|---|---|---|
| `Models.ChoiceLabel` | OWM/models.py:43-47 | a stored value has a display label exactly when it is one of the declared choices, and the label is the one paired with it |
| `Models.CategoryIsMediaKind` | OWM/models.py:22-29 | a valid service category is `video`, `audio` or `photo` and fits the 10-character column |
| `Models.StatusIsStoredChoice` | OWM/models.py:43-47 | a valid booking status is `pending`, `completed` or `canceled` and fits the 10-character column |
| `Models.NewBooking` | OWM/models.py:49-55 | a new booking stores the supplied status, or the default `pending`, whose label is `Pending`, when none is supplied; it is valid exactly when its location has at most 100 characters and a supplied status is a declared choice |
| `Models.InsertBookingKeepsDatabaseValid` | OWM/models.py:49-55 | adding a valid booking that refers to an existing user and service keeps every record constraint, the foreign keys and username uniqueness |
| `Models.RemoveBookingKeepsDatabaseValid` | OWM/models.py:42-55 | removing a booking keeps the database valid, since no record refers to a booking |
| `Views.ApplyEdit` | OWM/views.py:203-204 | an edit never changes the booking's owner or booking time; with no serializer field other than the service supplied, it changes only the service (the checked `date` key is not stored) |
| `Views.ListBookings` | OWM/views.py:154-157 | the list holds exactly the requester's bookings, unchanged |
| `Views.GetBooking` | OWM/views.py:188-191 | the detail view finds a booking exactly when it exists and belongs to the requester; otherwise not found |
| `Views.WithStatus` | OWM/views.py:254-256 | a status filter keeps exactly the bookings whose status equals the given string |
| `Views.Dashboard` | OWM/views.py:253-256 | the pending, completed and cancelled groups are pairwise disjoint subsets of the requester's bookings, each selected by the literal status `Pending`, `Completed` or `Cancelled` |
| `Views.BookingStore.Create` | OWM/views.py:159-183 | a missing service or `date` is refused; any booking with that service on the parsed `date` refuses the request; a payload the serializer rejects is refused as invalid; otherwise exactly one booking owned by the requester, on the payload's `event_date` and with the payload's status or else `pending`, is added under a fresh id and nothing else changes; every refusal leaves the table unchanged; well-formedness is preserved; the absence of double bookings is preserved only when `date` and `event_date` agree |
| `Views.BookingStore.CreateCheckingStoredDate` | OWM/views.py:159-183 | the intended create handler: the same guards and outcomes, the supplied status included, but the check is on the `event_date` that is stored, so the absence of double bookings is always preserved |
| `Views.CreateCanDoubleBook` | OWM/views.py:165-181 | on a table whose only booking holds (service, D), a request whose `date` names another day and whose `event_date` is D passes every create guard, and the booking inserted next to it holds the same (service, D) |
| `Views.CreatedBookingKeepsDatabaseValid` | OWM/models.py:49-55 | a booking the create handler inserts, with an accepted payload, for a user and service that exist, keeps every record constraint and foreign key of the database |
| `Views.BookingStore.Edit` | OWM/views.py:193-236 | a foreign or absent id is not found; a status other than `Pending`/`Cancelled` is refused; a missing service or date, an unparsable date, a slot held by another booking and a payload the serializer rejects are refused, in that order; on success only that booking changes, to the fields the serializer reads, and its owner stays the requester; every refusal leaves the table unchanged; with stored statuses no edit succeeds |
| `Views.BookingStore.Delete` | OWM/views.py:238-241 | the requester's own booking is removed whatever its status and nothing else changes; a foreign or absent id is not found and changes nothing |
| `Views.StoredStatusNeverEditable` | OWM/views.py:196-201 | no stored status value equals `Pending`, `Cancelled` or `Completed`, so none passes the edit guard |
| `Views.DashboardEmptyForStoredStatuses` | OWM/views.py:253-256 | when every status is a declared choice, all three dashboard groups are empty |
| `Views.AnyBookingBlocksItsDate` | OWM/views.py:173-176 | every booking, a canceled one included, makes creation on its service and date fail |
| `Views.InsertPreservesNoDoubleBooking` | OWM/views.py:173-182 | inserting a booking whose own service and date no row holds keeps every (service, date) pair held by at most one booking |
| `Views.EditCheckIgnoresOwnRow` | OWM/views.py:219-222 | the edit check's verdict does not depend on the edited booking's own row |
| `Views.EditWithoutTimeNeverConflicts` | OWM/views.py:209-222 | an edit request without `event_time` never meets a conflict |
| `Views.EditCheckMissesSameDateOtherTime` | OWM/views.py:219-222 | a booking at another time blocks creation on its service and date but not an edit onto them |
| `Views.DeleteTouchesOnlyOwnList` | OWM/views.py:238-241 | deleting removes the booking from the requester's list and leaves every other user's list as it was |
| `Views.InsertTouchesOnlyOwnList` | OWM/views.py:179-182 | a new booking appears in its owner's list and in no other user's |
| `Views.ResolveKeyword` | OWM/models.py:49-55 | a filter keyword resolves exactly when it names a Booking field, `id`/`pk` or a foreign key's `_id` form; `event_date`, `event_time` and `service_id` resolve, `date` does not |
| `Views.Filter` | OWM/views.py:174 | a queryset filter fails exactly when some keyword does not resolve, and otherwise selects exactly the rows matching every lookup |
| `Views.CreateQueryAsWrittenFails` | OWM/views.py:174 | the create handler's query as written fails on the keyword `date` for every table, service and date |
| `Views.CreateQueryAsIntended` | OWM/views.py:174 | the same query on `event_date` succeeds and finds a row exactly when `BookedOnDate` holds |
| `Views.EditQueryAgrees` | OWM/views.py:220-222 | the edit handler's query on service, date and time, minus the edited id, finds a row exactly when `SlotTakenByOther` holds |
| `Serializers.ValidateEmail` | OWM/serializers.py:12-17 | the email is refused, with the "already in use" message, exactly when a user other than the instance has it; otherwise it is returned |
| `Serializers.ValidateUsername` | OWM/serializers.py:19-24 | the username is refused, with the "already taken" message, exactly when a user other than the instance has it; otherwise it is returned |
| `Serializers.ValidatorsIgnoreInstanceRow` | OWM/serializers.py:14-15 | the edited user's own row never decides either validator, so their current email and username are never held against them |
| `Serializers.OwnUsernameAccepted` | OWM/serializers.py:19-24 | with unique usernames, a user's own current username is always accepted |
| `Serializers.AcceptedUsernameKeepsUnique` | OWM/models.py:8 | writing a record whose username passed the validator keeps usernames unique |
| `Serializers.Without` | OWM/serializers.py:28-29 | popping a key removes that key and leaves every other key's value as it was |
| `Serializers.SetAttribute` | OWM/serializers.py:37-38 | `setattr` gives the named attribute the value and leaves every other attribute unchanged |
| `Serializers.SetAllEffect` | OWM/serializers.py:37-38 | after the loop every supplied attribute holds its value and every other attribute is unchanged |
| `Serializers.UpdateSetsPictureOnlyWhenSupplied` | OWM/serializers.py:28-32 | the picture changes only when a non-empty one is supplied, and then to that one |
| `Serializers.UpdateStoresOnlyHashedPassword` | OWM/serializers.py:29-35 | the password changes only when a non-empty one is supplied, and then to `makePassword` of it, never to the raw value |
| `Serializers.UpdateMergesOtherAttributes` | OWM/serializers.py:37-38 | every other supplied attribute takes its value and every unsupplied one stays as it was |
| `Serializers.UpdateKeepsUserValid` | OWM/models.py:6-11 | an update whose validated data fits the column lengths, with a non-empty username, keeps a valid profile valid |
| `Serializers.UpdateKeepsUsernamesUnique` | OWM/serializers.py:19-41 | an update whose username passed `validate_username` keeps usernames unique across the table |
| `Serializers.UserInstance.constructor` | OWM/serializers.py:45-51 | `create_user` stores username, email, phone, address and the hashed password, with empty names and no picture |
| `Serializers.UserInstance.SetAttr` | OWM/serializers.py:38 | assigns one attribute of the instance, as `SetAttribute` |
| `Serializers.Update` | OWM/serializers.py:26-41 | the instance ends as `UpdateProfile` of its old state and the same instance is returned |
| `Serializers.Create` | OWM/serializers.py:43-57 | the new user has the hashed password, empty defaults for absent email, phone and address, a null phone when null was sent, and a picture only when one is provided |

## Findings

| source | as written | input that shows it | evidently intended | confidence | as-written member | corrected member |
|---|---|---|---|---|---|---|
| OWM/views.py:174 | the availability query filters bookings on a keyword `date`, which is not a field of Booking (its field is `event_date`), so the query raises a field error whenever a request passes the first guard | any create request with a service and a date, on any table | filter on `event_date`, so a booking is created unless the service is already booked on that date | not executed; high | `Views.CreateQueryAsWrittenFails` | `Views.CreateQueryAsIntended` |
| OWM/views.py:165-181 | even with the query on `event_date`, the handler checks the date under the payload key `date`, while the booking serializer ignores that key and stores the one under `event_date` | a table holding a booking on (S, D2), and a request with service S, `date` D1 and `event_date` D2 | check the date that is stored, so that no service is booked twice on one date | not executed; high | `Views.CreateCanDoubleBook` | `Views.BookingStore.CreateCheckingStoredDate` |

`BookingStore.Create` uses the corrected query (`BookedOnDate`) and, as written, the `date` key for its check.

## Left out

- Registration, login, logout and token refresh (OWM/views.py:21-101): token issuance and cookies belong to the auth library.
- The contact form (OWM/views.py:267-300): it saves a message and sends e-mail, an external call.
- The service, review and team listing views (OWM/views.py:125-144, 303-326), review creation among them (OWM/views.py:311-318): plain reads and a plain serializer save with no logic.
- `BookingListCreateView.create` (OWM/views.py:150-152): it calls `save` on the serializer class itself and is never reached by the handlers modelled.
- Concurrency: the check-then-insert race between the availability query and the save; the model is sequential.
- `parse_date`, `make_password` and the clock are parameters; `to_representation`'s URL building (OWM/serializers.py:59-65) is not modelled.
- The booking serializer's own validation (nested service, payload shape, the existence of the service, the parsing of `event_date` and `event_time`) is the abstract `serializerAccepts`; the booking table has no service table beside it.
- `Views.BookingStore.Create`, `Views.BookingStore.Edit`: as written, `is_valid()` accepts no payload that reached it, since a service id fails the nested service serializer and a service mapping makes the availability query raise first; the model leaves `serializerAccepts` free and saves an accepted payload, where the code's save would also raise (DRF refuses writable nested fields, and in the create handler the read-only `user` field leaves the non-null owner unset). No create or edit succeeds in the code, while both can in the model.
- `Views.BookingStore.Create`, `Views.BookingStore.Edit`: the `service` and `event_time` payload values go into the availability queries unvalidated; a non-numeric service or a malformed time makes the query raise, an uncaught error with the table unchanged. The typed request fields cannot hold such values.
- `Views.Dashboard`, `Views.DashboardEmptyForStoredStatuses`: the status filters run in the database, and the model compares case-sensitively; under a case-insensitive collation `Pending` would match `pending` and the groups need not be empty. The edit guard compares in Python and is unaffected.
- `Views.CreatePayloadValid`, `Views.EditPayloadValid`: DRF's `CharField` strips surrounding whitespace before its blank and length checks and stores the stripped value; the model checks and stores `event_location` as sent.
- Query results are modelled as maps keyed by id: no ordering is defined for them.
- The dashboard's profile part (`CustomUserSerializer(user).data`) and its disabled permission check (an anonymous requester) are not modelled.
- `Serializers.ValidateEmail`, `Serializers.ValidateUsername`: require an instance because the code reads `self.instance.id`; registration, where there is none, would raise in the validator and is not modelled.
- `create_user`'s normalisation of username and e-mail is Django's own and is treated as the identity.
- `update` can set an attribute only to a text value: writing a null phone is not modelled.
- Cart entries and reviews: only their record types and constraints are modelled; no modelled handler writes them.
- `__str__` formatters, `ContactUs` and `TeamMember`: display strings and records outside the booking core.
- Cascade deletion of users and services (`on_delete=CASCADE`): no modelled operation deletes them.
- Prices are whole cents; decimal arithmetic is not modelled.
- OWM/urls.py and the frontend: routing and UI.
