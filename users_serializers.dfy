/** The user serializers: the text fields' checks, the login cascade over the credentials
    check, the password rules for new users, and the two representations of a user, neither
    of which carries the password. */
module UsersSerializers {
  import opened Common
  import opened Js
  import opened Python
  import opened UsersModels

  /** What a text field makes of one raw request value: the cleaned text, or the message it
      refuses the value with. */
  datatype FieldCheck = Clean(text: string) | Refused(message: string)

  /** A required text field that refuses blanks and trims whitespace, with a minimum length
      (0 for none): a missing value is required, null is refused, a value that is empty once
      stripped is blank, a boolean is not a string; anything else is its `str()`, stripped,
      and must then be long enough. */
  function CharField(v: Option<Scalar>, minLength: nat): (r: FieldCheck)
    ensures v.None? ==> r == Refused("This field is required.")
    ensures v == Some(PyNone) ==> r == Refused("This field may not be null.")
    ensures r.Clean? ==>
      v.Some? && !v.value.PyNone? && !v.value.PyBool?
      && r.text == Strip(ColumnText(v.value).value) && r.text != "" && |r.text| >= minLength
    ensures (v.Some? && (v.value.PyStr? || v.value.PyInt?) && Strip(ColumnText(v.value).value) != ""
             && |Strip(ColumnText(v.value).value)| >= minLength) ==> r.Clean?
  {
    if v.None? then Refused("This field is required.")
    else if v.value.PyNone? then Refused("This field may not be null.")
    else if Strip(ColumnText(v.value).value) == "" then Refused("This field may not be blank.")
    else if v.value.PyBool? then Refused("Not a valid string.")
    else
      var text := Strip(ColumnText(v.value).value);
      if |text| < minLength then
        Refused("Ensure this field has at least " + NatToDecimal(minLength) + " characters.")
      else Clean(text)
  }

  /** The errors of the named fields that refused their values, in field order. */
  function FieldErrorsOf(checks: seq<(string, FieldCheck)>): (e: seq<(string, string)>)
    ensures |e| <= |checks|
    ensures e == [] <==> forall k :: 0 <= k < |checks| ==> checks[k].1.Clean?
  {
    if checks == [] then []
    else
      (if checks[0].1.Refused? then [(checks[0].0, checks[0].1.message)] else []) + FieldErrorsOf(checks[1..])
  }

  datatype LoginCheck =
    | LoggedIn(user: User)
    | LoginFieldErrors(errors: seq<(string, string)>)
    | LoginRefused(message: string)

  /** `LoginSerializer`: both fields must be clean, then the credentials check decides. A
      user it does not return is refused as invalid credentials; an inactive user it returns
      is refused as disabled, a check made only after the credentials. `authenticate` stands
      for the configured authentication backend and receives the stripped texts. */
  function ValidateLogin(username: Option<Scalar>, password: Option<Scalar>,
                         authenticate: (string, string) -> Option<User>): (r: LoginCheck)
    ensures r.LoginFieldErrors? <==> CharField(username, 0).Refused? || CharField(password, 0).Refused?
    ensures r.LoggedIn? ==>
      authenticate(CharField(username, 0).text, CharField(password, 0).text) == Some(r.user) && r.user.isActive
    ensures CharField(username, 0).Clean? && CharField(password, 0).Clean? ==>
      var found := authenticate(CharField(username, 0).text, CharField(password, 0).text);
      (found.None? ==> r == LoginRefused("Invalid credentials"))
      && (found.Some? && !found.value.isActive ==> r == LoginRefused("User account is disabled"))
      && (found.Some? && found.value.isActive ==> r == LoggedIn(found.value))
    ensures r != LoginRefused("Must include username and password")
  {
    var u := CharField(username, 0);
    var p := CharField(password, 0);
    if u.Refused? || p.Refused? then LoginFieldErrors(FieldErrorsOf([("username", u), ("password", p)]))
    else if u.text != "" && p.text != "" then
      var found := authenticate(u.text, p.text);
      if found.None? then LoginRefused("Invalid credentials")
      else if !found.value.isActive then LoginRefused("User account is disabled")
      else LoggedIn(found.value)
    else LoginRefused("Must include username and password")
  }

  /** A missing field is reported against that field, and the credentials are never
      checked: the result is the same whatever the backend would say. */
  lemma MissingPasswordNeverChecked(username: Option<Scalar>, a: (string, string) -> Option<User>,
                                    b: (string, string) -> Option<User>)
    ensures ValidateLogin(username, None, a) == ValidateLogin(username, None, b)
    ensures ValidateLogin(username, None, a).LoginFieldErrors?
    ensures ("password", "This field is required.") in ValidateLogin(username, None, a).errors
  {
    var u := CharField(username, 0);
    if u.Refused? {
      assert FieldErrorsOf([("username", u), ("password", Refused("This field is required."))])
          == [("username", u.message), ("password", "This field is required.")];
    } else {
      assert FieldErrorsOf([("username", u), ("password", Refused("This field is required."))])
          == [("password", "This field is required.")];
    }
  }

  /** The password checked at login is the one given, less surrounding whitespace. */
  lemma LoginStripsPassword(name: string, pw: string, authenticate: (string, string) -> Option<User>)
    requires Strip(name) != "" && Strip(pw) != ""
    ensures var r := ValidateLogin(Some(PyStr(name)), Some(PyStr(pw)), authenticate);
      r.LoggedIn? <==> (authenticate(Strip(name), Strip(pw)).Some? && authenticate(Strip(name), Strip(pw)).value.isActive)
  {
  }

  /** The password of a new user: required, not blank, at least eight characters once
      stripped; it is write-only, so no representation returns it. */
  function NewPassword(v: Option<Scalar>): (r: FieldCheck)
    ensures r.Clean? ==> |r.text| >= 8
    ensures v.None? ==> r == Refused("This field is required.")
  {
    CharField(v, 8)
  }

  /** A password shorter than eight characters once stripped is refused with the length
      message. */
  lemma ShortPasswordRefused(pw: string)
    requires Strip(pw) != "" && |Strip(pw)| < 8
    ensures NewPassword(Some(PyStr(pw))) == Refused("Ensure this field has at least 8 characters.")
  {
    var t := Strip(pw);
    assert ColumnText(PyStr(pw)) == Some(pw);
    assert CharField(Some(PyStr(pw)), 8) == Refused("Ensure this field has at least " + NatToDecimal(8) + " characters.");
    assert NatToDecimal(8) == "8" by {
      assert DigitChar(8) == '8';
    }
    assert "Ensure this field has at least " + "8" + " characters." == "Ensure this field has at least 8 characters.";
  }

  /** The fields of a new user, as validated. */
  datatype NewUser = NewUser(username: string, email: string, password: string, firstName: string,
                             lastName: string, role: Role, phoneNumber: Option<string>)

  /** `UserCreateSerializer.create`, through `create_user`: the new user is active, holds the
      given fields, and the password it authenticates with. */
  function CreateUser(id: nat, createdAt: string, input: NewUser): (u: User)
    ensures u.isActive && u.id == id && u.password == input.password
    ensures u.username == input.username && u.role == input.role && u.email == input.email
  {
    User(id, input.username, input.password, input.email, input.firstName, input.lastName, input.role,
         input.phoneNumber, true, createdAt)
  }

  function KeysOf(fields: seq<(string, Json)>): (ks: seq<string>)
    ensures |ks| == |fields|
    ensures forall k :: 0 <= k < |ks| ==> ks[k] == fields[k].0
  {
    if fields == [] then [] else [fields[0].0] + KeysOf(fields[1..])
  }

  function OptionalText(v: Option<string>): Json {
    if v.Some? then JStr(v.value) else JNull
  }

  const UserFields: seq<string> :=
    ["id", "username", "email", "first_name", "last_name", "role", "phone_number", "is_active", "created_at"]

  const CreatedFields: seq<string> :=
    ["username", "email", "first_name", "last_name", "role", "phone_number"]

  /** `UserSerializer(user).data`: the nine public fields, in order; the password is not one
      of them. */
  function Represent(u: User): (r: seq<(string, Json)>)
    ensures KeysOf(r) == UserFields && "password" !in KeysOf(r)
    ensures r[0].1 == JNum(u.id) && r[1].1 == JStr(u.username) && r[5].1 == JStr(RoleName(u.role))
    ensures r[7].1 == JBool(u.isActive)
  {
    [("id", JNum(u.id)), ("username", JStr(u.username)), ("email", JStr(u.email)),
     ("first_name", JStr(u.firstName)), ("last_name", JStr(u.lastName)), ("role", JStr(RoleName(u.role))),
     ("phone_number", OptionalText(u.phoneNumber)), ("is_active", JBool(u.isActive)),
     ("created_at", JStr(u.createdAt))]
  }

  /** `UserCreateSerializer(user).data`, the reply to a creation: the six declared fields
      other than the write-only password; neither the id nor the password is returned. */
  function RepresentCreated(u: User): (r: seq<(string, Json)>)
    ensures KeysOf(r) == CreatedFields && "password" !in KeysOf(r) && "id" !in KeysOf(r)
    ensures r[0].1 == JStr(u.username) && r[4].1 == JStr(RoleName(u.role))
  {
    [("username", JStr(u.username)), ("email", JStr(u.email)), ("first_name", JStr(u.firstName)),
     ("last_name", JStr(u.lastName)), ("role", JStr(RoleName(u.role))), ("phone_number", OptionalText(u.phoneNumber))]
  }

  /** Two users that differ only in their password have the same representations: nothing
      the API returns depends on the password. */
  lemma RepresentationHidesPassword(u: User, password: string)
    ensures Represent(u.(password := password)) == Represent(u)
    ensures RepresentCreated(u.(password := password)) == RepresentCreated(u)
  {
  }
}
