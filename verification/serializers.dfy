/**
 * The user-profile serializer (OWM/serializers.py): the two uniqueness
 * validators, which query the user table, and the `update` and `create`
 * operations, which write a user record field by field.
 */
module Serializers {
  import opened Wrappers
  import opened Models

  // --------------------------------------------------------- validators

  /** A validator either returns the value or raises a validation error with a message. */
  datatype Validation = Accepted(value: string) | Rejected(message: string)

  const EmailInUse := "This email is already in use."
  const UsernameTaken := "This username is already taken."

  /** Some user other than `instance` has this email. */
  predicate EmailHeldByOther(users: map<Id, User>, instance: Id, value: string) {
    exists id | id in users && id != instance :: users[id].email == value
  }

  /** Some user other than `instance` has this username. */
  predicate UsernameHeldByOther(users: map<Id, User>, instance: Id, value: string) {
    exists id | id in users && id != instance :: users[id].username == value
  }

  /**
   * `validate_email`: rejects an email held by any user other than the one
   * being edited. The code reads `self.instance.id`, so an instance is required.
   */
  function ValidateEmail(users: map<Id, User>, instance: Option<Id>, value: string): (r: Validation)
    requires instance.Some?
    ensures r.Rejected? <==> EmailHeldByOther(users, instance.value, value)
    ensures r.Accepted? ==> r.value == value
    ensures r.Rejected? ==> r.message == EmailInUse
  {
    if EmailHeldByOther(users, instance.value, value) then Rejected(EmailInUse) else Accepted(value)
  }

  /** `validate_username`: rejects a username held by any user other than the one being edited. */
  function ValidateUsername(users: map<Id, User>, instance: Option<Id>, value: string): (r: Validation)
    requires instance.Some?
    ensures r.Rejected? <==> UsernameHeldByOther(users, instance.value, value)
    ensures r.Accepted? ==> r.value == value
    ensures r.Rejected? ==> r.message == UsernameTaken
  {
    if UsernameHeldByOther(users, instance.value, value) then Rejected(UsernameTaken) else Accepted(value)
  }

  /** The edited user's own row never decides either validator, whatever it holds. */
  lemma ValidatorsIgnoreInstanceRow(users: map<Id, User>, id: Id, u: User, value: string)
    ensures ValidateEmail(users[id := u], Some(id), value) == ValidateEmail(users - {id}, Some(id), value)
    ensures ValidateUsername(users[id := u], Some(id), value) == ValidateUsername(users - {id}, Some(id), value)
  {
    var t := users[id := u];
    var s := users - {id};
    if EmailHeldByOther(t, id, value) {
      var x :| x in t && x != id && t[x].email == value;
      assert x in s && s[x] == t[x];
    }
    if EmailHeldByOther(s, id, value) {
      var x :| x in s && x != id && s[x].email == value;
      assert x in t && t[x] == s[x];
    }
    if UsernameHeldByOther(t, id, value) {
      var x :| x in t && x != id && t[x].username == value;
      assert x in s && s[x] == t[x];
    }
    if UsernameHeldByOther(s, id, value) {
      var x :| x in s && x != id && s[x].username == value;
      assert x in t && t[x] == s[x];
    }
  }

  /** In a table with unique usernames, a user may always keep their own username. */
  lemma OwnUsernameAccepted(users: map<Id, User>, id: Id)
    requires UniqueUsernames(users) && id in users
    ensures ValidateUsername(users, Some(id), users[id].username) == Accepted(users[id].username)
  {
  }

  /** Writing a record whose username was accepted into the edited user's row keeps usernames unique. */
  lemma AcceptedUsernameKeepsUnique(users: map<Id, User>, id: Id, u: User)
    requires UniqueUsernames(users)
    requires ValidateUsername(users, Some(id), u.username).Accepted?
    ensures UniqueUsernames(users[id := u])
  {
    var t := users[id := u];
    forall a, b | a in t && b in t && a != b
      ensures t[a].username != t[b].username
    {
      if a == id {
        assert b in users && t[b] == users[b];
      } else if b == id {
        assert a in users && t[a] == users[a];
      }
    }
  }

  // ----------------------------------------------------- validated data

  /** The writable attributes of a user profile. */
  datatype Attr = FirstName | LastName | Username | Email | Phone | ProfilePic | Password | Address

  /** The serializer's `validated_data`, in dictionary order. */
  type ValidatedData = seq<(Attr, string)>

  /** `validated_data.get(a)`: the value stored under `a`, the latest if repeated. */
  function Get(data: ValidatedData, a: Attr): Option<string>
  {
    if |data| == 0 then None
    else if data[|data| - 1].0 == a then Some(data[|data| - 1].1)
    else Get(data[..|data| - 1], a)
  }

  /** What `validated_data.pop(a, None)` leaves behind. */
  function Without(data: ValidatedData, a: Attr): (rest: ValidatedData)
    ensures forall b :: Get(rest, b) == if b == a then None else Get(data, b)
    ensures |rest| <= |data|
  {
    if |data| == 0 then []
    else
      var init := Without(data[..|data| - 1], a);
      if data[|data| - 1].0 == a then init
      else
        var rest := init + [data[|data| - 1]];
        assert rest[..|rest| - 1] == init;
        rest
  }

  /** Reads one attribute of a profile (`getattr`); only the phone can be null. */
  function Attribute(u: User, a: Attr): Option<string> {
    match a
    case FirstName => Some(u.firstName)
    case LastName => Some(u.lastName)
    case Username => Some(u.username)
    case Email => Some(u.email)
    case Phone => u.phone
    case ProfilePic => Some(u.profilePic)
    case Password => Some(u.password)
    case Address => Some(u.address)
  }

  /** `setattr(instance, a, v)` on a profile value: `a` takes `v`, every other attribute stays. */
  function SetAttribute(u: User, a: Attr, v: string): (r: User)
    ensures Attribute(r, a) == Some(v)
    ensures forall b | b != a :: Attribute(r, b) == Attribute(u, b)
  {
    match a
    case FirstName => u.(firstName := v)
    case LastName => u.(lastName := v)
    case Username => u.(username := v)
    case Email => u.(email := v)
    case Phone => u.(phone := Some(v))
    case ProfilePic => u.(profilePic := v)
    case Password => u.(password := v)
    case Address => u.(address := v)
  }

  /** The `setattr` loop of `update`, item after item in dictionary order. */
  function SetAll(u: User, data: ValidatedData): User
  {
    if |data| == 0 then u
    else SetAttribute(SetAll(u, data[..|data| - 1]), data[|data| - 1].0, data[|data| - 1].1)
  }

  /** The loop sets every supplied attribute to its value and leaves every other one unchanged. */
  lemma {:induction false} SetAllEffect(u: User, data: ValidatedData, a: Attr)
    ensures Attribute(SetAll(u, data), a) == if Get(data, a).Some? then Get(data, a) else Attribute(u, a)
  {
    if |data| > 0 {
      SetAllEffect(u, data[..|data| - 1], a);
    }
  }

  /** Python truthiness of a popped value: absent and "" are both falsy. */
  predicate Supplied(v: Option<string>) {
    v.Some? && v.value != ""
  }

  /** The items left for the `setattr` loop once the picture and the password are popped. */
  function Remaining(data: ValidatedData): ValidatedData {
    Without(Without(data, ProfilePic), Password)
  }

  /** The profile before the `setattr` loop: new picture and hashed password stored if supplied. */
  function BeforeLoop(u: User, data: ValidatedData, makePassword: string -> string): User {
    var pic := Get(data, ProfilePic);
    var password := Get(data, Password);
    var withPic := if Supplied(pic) then u.(profilePic := pic.value) else u;
    if Supplied(password) then withPic.(password := makePassword(password.value)) else withPic
  }

  /**
   * The profile `update` writes: the picture only when a new one is supplied,
   * the password only as `makePassword` of the supplied one, then every other
   * validated attribute.
   */
  function UpdateProfile(u: User, data: ValidatedData, makePassword: string -> string): User
  {
    SetAll(BeforeLoop(u, data, makePassword), Remaining(data))
  }

  /** `update` replaces the picture only when a non-empty one is supplied. */
  lemma UpdateSetsPictureOnlyWhenSupplied(u: User, data: ValidatedData, makePassword: string -> string)
    ensures UpdateProfile(u, data, makePassword).profilePic ==
            if Supplied(Get(data, ProfilePic)) then Get(data, ProfilePic).value else u.profilePic
  {
    SetAllEffect(BeforeLoop(u, data, makePassword), Remaining(data), ProfilePic);
  }

  /** `update` stores a password only as `makePassword` of a supplied non-empty one. */
  lemma UpdateStoresOnlyHashedPassword(u: User, data: ValidatedData, makePassword: string -> string)
    ensures UpdateProfile(u, data, makePassword).password ==
            if Supplied(Get(data, Password)) then makePassword(Get(data, Password).value) else u.password
  {
    SetAllEffect(BeforeLoop(u, data, makePassword), Remaining(data), Password);
  }

  /** `update` gives every other supplied attribute its value and leaves the unsupplied ones unchanged. */
  lemma UpdateMergesOtherAttributes(u: User, data: ValidatedData, makePassword: string -> string, a: Attr)
    requires a != ProfilePic && a != Password
    ensures Attribute(UpdateProfile(u, data, makePassword), a) == if Get(data, a).Some? then Get(data, a) else Attribute(u, a)
  {
    SetAllEffect(BeforeLoop(u, data, makePassword), Remaining(data), a);
    RemainingKeepsOthers(data, a);
    BeforeLoopKeepsOthers(u, data, makePassword, a);
  }

  lemma RemainingKeepsOthers(data: ValidatedData, a: Attr)
    requires a != ProfilePic && a != Password
    ensures Get(Remaining(data), a) == Get(data, a)
  {
  }

  lemma BeforeLoopKeepsOthers(u: User, data: ValidatedData, makePassword: string -> string, a: Attr)
    requires a != ProfilePic && a != Password
    ensures Attribute(BeforeLoop(u, data, makePassword), a) == Attribute(u, a)
  {
  }

  /**
   * The longest value the serializer's derived validators admit for an
   * attribute, from the `max_length` of its model field; None where
   * OWM/models.py sets no limit (email, picture and password are inherited).
   */
  function MaxLength(a: Attr): Option<nat> {
    match a
    case FirstName => Some(NameMaxLength)
    case LastName => Some(NameMaxLength)
    case Username => Some(NameMaxLength)
    case Phone => Some(PhoneMaxLength)
    case Address => Some(AddressMaxLength)
    case Email => None
    case ProfilePic => None
    case Password => None
  }

  /**
   * What field validation guarantees of `validated_data`: every value fits its
   * column, and the username, a non-blank field, is not empty.
   */
  predicate FitsColumns(data: ValidatedData) {
    forall i | 0 <= i < |data| ::
      && (MaxLength(data[i].0).Some? ==> |data[i].1| <= MaxLength(data[i].0).value)
      && (data[i].0 == Username ==> data[i].1 != "")
  }

  /** A value read from validated data meets its attribute's column constraints. */
  lemma {:induction false} GetFitsColumn(data: ValidatedData, a: Attr)
    requires FitsColumns(data) && Get(data, a).Some?
    ensures MaxLength(a).Some? ==> |Get(data, a).value| <= MaxLength(a).value
    ensures a == Username ==> Get(data, a).value != ""
  {
    if data[|data| - 1].0 != a {
      GetFitsColumn(data[..|data| - 1], a);
    }
  }

  /** An update with validated data keeps a valid profile valid. */
  lemma UpdateKeepsUserValid(u: User, data: ValidatedData, makePassword: string -> string)
    requires ValidUser(u) && FitsColumns(data)
    ensures ValidUser(UpdateProfile(u, data, makePassword))
  {
    var r := UpdateProfile(u, data, makePassword);
    var attrs := [FirstName, LastName, Username, Phone, Address];
    forall a | a in attrs
      ensures Attribute(r, a) == if Get(data, a).Some? then Get(data, a) else Attribute(u, a)
      ensures Get(data, a).Some? ==> |Get(data, a).value| <= MaxLength(a).value
      ensures a == Username && Get(data, a).Some? ==> Get(data, a).value != ""
    {
      UpdateMergesOtherAttributes(u, data, makePassword, a);
      if Get(data, a).Some? {
        GetFitsColumn(data, a);
      }
    }
    assert FirstName in attrs && LastName in attrs && Username in attrs && Phone in attrs && Address in attrs;
  }

  /**
   * Usernames stay unique across an update whose username, if any, passed
   * `validate_username` for the edited user.
   */
  lemma UpdateKeepsUsernamesUnique(users: map<Id, User>, id: Id, data: ValidatedData, makePassword: string -> string)
    requires UniqueUsernames(users) && id in users
    requires Get(data, Username).Some? ==> ValidateUsername(users, Some(id), Get(data, Username).value).Accepted?
    ensures UniqueUsernames(users[id := UpdateProfile(users[id], data, makePassword)])
  {
    var r := UpdateProfile(users[id], data, makePassword);
    UpdateMergesOtherAttributes(users[id], data, makePassword, Username);
    if Get(data, Username).None? {
      OwnUsernameAccepted(users, id);
    }
    AcceptedUsernameKeepsUnique(users, id, r);
  }

  // ------------------------------------------------------ user instance

  /** A user model instance, whose attributes `update` assigns one at a time. */
  class UserInstance {
    var firstName: string
    var lastName: string
    var username: string
    var email: string
    var phone: Option<string>
    var profilePic: string
    var address: string
    var password: string

    /** The instance's attributes as a profile value. */
    function Snapshot(): User
      reads this
    {
      User(firstName, lastName, username, email, phone, profilePic, address, password)
    }

    /**
     * `create_user`: a new user with the given fields and the password hashed;
     * the names are not among its arguments and the picture starts empty.
     */
    constructor (username: string, email: string, phone: Option<string>, address: string, passwordHash: string)
      ensures Snapshot() == User("", "", username, email, phone, "", address, passwordHash)
    {
      this.firstName := "";
      this.lastName := "";
      this.username := username;
      this.email := email;
      this.phone := phone;
      this.profilePic := "";
      this.address := address;
      this.password := passwordHash;
    }

    /** `setattr(self, a, v)`. */
    method SetAttr(a: Attr, v: string)
      modifies this
      ensures Snapshot() == SetAttribute(old(Snapshot()), a, v)
    {
      match a
      case FirstName => firstName := v;
      case LastName => lastName := v;
      case Username => username := v;
      case Email => email := v;
      case Phone => phone := Some(v);
      case ProfilePic => profilePic := v;
      case Password => password := v;
      case Address => address := v;
    }
  }

  /**
   * `update(instance, validated_data)`: pops the picture and the password,
   * stores the picture if one was supplied and the hashed password if one was
   * supplied, assigns every remaining item, and returns the same instance.
   */
  method Update(instance: UserInstance, data: ValidatedData, makePassword: string -> string) returns (r: UserInstance)
    modifies instance
    ensures r == instance
    ensures instance.Snapshot() == UpdateProfile(old(instance.Snapshot()), data, makePassword)
  {
    var profilePic := Get(data, ProfilePic);
    var password := Get(data, Password);
    var rest := Remaining(data);
    if Supplied(profilePic) {
      instance.profilePic := profilePic.value;
    }
    if Supplied(password) {
      instance.password := makePassword(password.value);
    }
    ghost var start := instance.Snapshot();
    var i := 0;
    while i < |rest|
      invariant 0 <= i <= |rest|
      invariant instance.Snapshot() == SetAll(start, rest[..i])
    {
      instance.SetAttr(rest[i].0, rest[i].1);
      assert rest[..i + 1][..i] == rest[..i];
      i := i + 1;
    }
    assert rest[..|rest|] == rest;
    r := instance;
  }

  /**
   * The registration fields `create` reads; username and password are required
   * keys. The phone may be absent (None) or present and null (Some(None)).
   */
  datatype RegistrationData = RegistrationData(
    username: string,
    password: string,
    email: Option<string>,
    phone: Option<Option<string>>,
    address: Option<string>,
    profilePic: Option<string>)

  /**
   * `create(validated_data)`: creates the user with the password hashed and
   * empty defaults for absent email, phone and address (a phone sent as null
   * stays null), then sets the picture only when one was provided.
   */
  method Create(data: RegistrationData, makePassword: string -> string) returns (user: UserInstance)
    ensures fresh(user)
    ensures user.profilePic == (if Supplied(data.profilePic) then data.profilePic.value else "")
    ensures user.password == makePassword(data.password)
    ensures user.username == data.username
    ensures user.email == data.email.GetOr("")
    ensures user.phone == (if data.phone.Some? then data.phone.value else Some(""))
    ensures user.address == data.address.GetOr("")
    ensures user.firstName == "" && user.lastName == ""
  {
    user := new UserInstance(data.username, data.email.GetOr(""), data.phone.GetOr(Some("")), data.address.GetOr(""),
                             makePassword(data.password));
    if Supplied(data.profilePic) {
      user.profilePic := data.profilePic.value;
    }
  }
}
