/** The page that creates a user or edits one: the form's fields, loading a user into it, the
    request a submission sends (or the reason it sends none), the message shown when the
    server refuses it, and the update of one field as the user types. */
module UserForm {
  import opened Common
  import opened Js
  import UsersModels
  import UsersSerializers

  /** The form's fields by name; None is `undefined`. */
  type Form = map<string, Option<Json>>

  const FormFields: set<string> :=
    {"username", "email", "password", "first_name", "last_name", "phone_number", "role", "is_active"}

  /** A new form: empty texts, the cashier role, active. */
  const InitialForm: Form := map[
    "username" := Some(JStr("")), "email" := Some(JStr("")), "password" := Some(JStr("")),
    "first_name" := Some(JStr("")), "last_name" := Some(JStr("")), "phone_number" := Some(JStr("")),
    "role" := Some(JStr("cashier")), "is_active" := Some(JBool(true))]

  /** `formData.name`: undefined for a field the form does not hold. */
  function Field(form: Form, name: string): Option<Json> {
    if name in form then form[name] else None
  }

  /** The page edits a user when the route carries a non-empty id. */
  predicate Editing(id: Option<string>) {
    id.Some? && id.value != ""
  }

  /** `v || ''`. */
  function OrEmpty(v: Option<Json>): (r: Option<Json>)
    ensures Truthy(v) ==> r == v
    ensures !Truthy(v) ==> r == Some(JStr(""))
  {
    Or(v, Some(JStr("")))
  }

  /** `fetchUser`: the form filled from the user the server returned. The password is never
      filled in, and a falsy email, name or phone becomes the empty text. */
  function Loaded(userData: Option<Json>): (f: Form)
    ensures f.Keys == FormFields
    ensures f["password"] == Some(JStr(""))
    ensures forall k :: k in f && k in {"email", "first_name", "last_name", "phone_number"} ==>
      f[k] == Some(JStr("")) || (Truthy(f[k]) && f[k] == Prop(userData, k))
  {
    map[
      "username" := Prop(userData, "username"), "email" := OrEmpty(Prop(userData, "email")),
      "password" := Some(JStr("")), "first_name" := OrEmpty(Prop(userData, "first_name")),
      "last_name" := OrEmpty(Prop(userData, "last_name")), "phone_number" := OrEmpty(Prop(userData, "phone_number")),
      "role" := Prop(userData, "role"), "is_active" := Prop(userData, "is_active")]
  }

  /** The members of a user's representation that the form reads, one lemma each. */
  lemma UsernameMember(u: UsersModels.User)
    ensures Member(UsersSerializers.Represent(u), "username") == Some(JStr(u.username))
  {
    MemberAt(UsersSerializers.Represent(u), 1, "username");
  }

  lemma EmailMember(u: UsersModels.User)
    ensures Member(UsersSerializers.Represent(u), "email") == Some(JStr(u.email))
  {
    var fields := UsersSerializers.Represent(u);
    assert fields[2] == ("email", JStr(u.email));
    assert forall j :: 0 <= j < 2 ==> fields[j].0 != "email";
    MemberAt(fields, 2, "email");
  }

  lemma RoleMember(u: UsersModels.User)
    ensures Member(UsersSerializers.Represent(u), "role") == Some(JStr(UsersModels.RoleName(u.role)))
  {
    var fields := UsersSerializers.Represent(u);
    assert fields[5] == ("role", JStr(UsersModels.RoleName(u.role)));
    assert forall j :: 0 <= j < 5 ==> fields[j].0 != "role";
    MemberAt(fields, 5, "role");
  }

  lemma PhoneMember(u: UsersModels.User)
    ensures Member(UsersSerializers.Represent(u), "phone_number") == Some(UsersSerializers.OptionalText(u.phoneNumber))
  {
    var fields := UsersSerializers.Represent(u);
    assert fields[6] == ("phone_number", UsersSerializers.OptionalText(u.phoneNumber));
    assert forall j :: 0 <= j < 6 ==> fields[j].0 != "phone_number";
    MemberAt(fields, 6, "phone_number");
  }

  lemma ActiveMember(u: UsersModels.User)
    ensures Member(UsersSerializers.Represent(u), "is_active") == Some(JBool(u.isActive))
  {
    var fields := UsersSerializers.Represent(u);
    assert fields[7] == ("is_active", JBool(u.isActive));
    assert forall j :: 0 <= j < 7 ==> fields[j].0 != "is_active";
    MemberAt(fields, 7, "is_active");
  }

  /** The fields `fetchUser` copies from the user's data. */
  lemma LoadedLookups(data: Option<Json>)
    ensures var f := Loaded(data);
      f["username"] == Prop(data, "username") && f["role"] == Prop(data, "role")
      && f["is_active"] == Prop(data, "is_active") && f["phone_number"] == OrEmpty(Prop(data, "phone_number"))
      && f["email"] == OrEmpty(Prop(data, "email"))
  {
  }

  /** The user the API returns loads into the form field for field: a user without a phone
      number shows an empty one, and the password stays empty. */
  lemma LoadsRepresentation(u: UsersModels.User)
    ensures var f := Loaded(Some(JObj(UsersSerializers.Represent(u))));
      f["username"] == Some(JStr(u.username))
      && f["role"] == Some(JStr(UsersModels.RoleName(u.role)))
      && f["is_active"] == Some(JBool(u.isActive))
      && f["password"] == Some(JStr(""))
      && (u.phoneNumber.None? ==> f["phone_number"] == Some(JStr("")))
      && (u.email != "" ==> f["email"] == Some(JStr(u.email)))
  {
    var fs := UsersSerializers.Represent(u);
    UsernameMember(u);
    RoleMember(u);
    ActiveMember(u);
    PhoneMember(u);
    EmailMember(u);
    LoadsMembers(fs, JStr(u.username), JStr(UsersModels.RoleName(u.role)), JBool(u.isActive),
                 UsersSerializers.OptionalText(u.phoneNumber), JStr(u.email));
  }

  /** Loading an object whose members are known. */
  lemma LoadsMembers(fs: seq<(string, Json)>, username: Json, role: Json, active: Json, phone: Json, email: Json)
    requires Member(fs, "username") == Some(username) && Member(fs, "role") == Some(role)
    requires Member(fs, "is_active") == Some(active) && Member(fs, "phone_number") == Some(phone)
    requires Member(fs, "email") == Some(email)
    ensures var f := Loaded(Some(JObj(fs)));
      f["username"] == Some(username) && f["role"] == Some(role) && f["is_active"] == Some(active)
      && f["password"] == Some(JStr("")) && f["phone_number"] == OrEmpty(Some(phone))
      && f["email"] == OrEmpty(Some(email))
  {
    LoadedLookups(Some(JObj(fs)));
  }

  /** The body sent: the form, without the password when editing with an empty one. */
  function Payload(form: Form, id: Option<string>): (body: Form)
    ensures Editing(id) && !Truthy(Field(form, "password")) ==> body == form - {"password"}
    ensures !(Editing(id) && !Truthy(Field(form, "password"))) ==> body == form
  {
    if Editing(id) && !Truthy(Field(form, "password")) then form - {"password"} else form
  }

  datatype Request = UpdateUser(id: string, body: Form) | CreateUser(body: Form)

  /** `handleSubmit`'s decision: a new user without a password is refused before any
      request; an edit sends an update of the user, a creation sends a create, never both. */
  function SubmitRequest(form: Form, id: Option<string>): (r: Result<Request>)
    ensures r.Err? <==> !Editing(id) && !Truthy(Field(form, "password"))
    ensures r.Err? ==> r.error == "Password is required for new users"
    ensures r.Ok? ==> (r.value.UpdateUser? <==> Editing(id))
    ensures r.Ok? && r.value.UpdateUser? ==> r.value.id == id.value && r.value.body == Payload(form, id)
    ensures r.Ok? && r.value.CreateUser? ==> r.value.body == form
  {
    var body := Payload(form, id);
    if !Editing(id) && !Truthy(Field(body, "password")) then Err("Password is required for new users")
    else if Editing(id) then Ok(UpdateUser(id.value, body))
    else Ok(CreateUser(body))
  }

  /** No request ever carries an empty password: it is either left out or not empty. */
  lemma NoEmptyPasswordSent(form: Form, id: Option<string>)
    requires SubmitRequest(form, id).Ok?
    ensures var body := SubmitRequest(form, id).value.body;
      "password" !in body || Truthy(body["password"])
  {
  }

  /** Editing keeps a typed password, and sends every other field as it is. */
  lemma EditKeepsTypedPassword(form: Form, id: string, pw: string)
    requires id != "" && pw != ""
    ensures SubmitRequest(form["password" := Some(JStr(pw))], Some(id))
      == Ok(UpdateUser(id, form["password" := Some(JStr(pw))]))
  {
  }

  /** The message shown when saving fails: the first element of the body's `username`,
      `email` or `password` errors, in that order, the first truthy one winning; otherwise
      "Failed to save user". */
  function SaveErrorMessage(data: Option<Json>): (m: Json)
    ensures Truthy(Some(m))
    ensures Truthy(Prop(Prop(data, "username"), "0")) ==> m == Prop(Prop(data, "username"), "0").value
    ensures !Truthy(Prop(Prop(data, "username"), "0")) && Truthy(Prop(Prop(data, "email"), "0"))
      ==> m == Prop(Prop(data, "email"), "0").value
    ensures !Truthy(Prop(Prop(data, "username"), "0")) && !Truthy(Prop(Prop(data, "email"), "0"))
      && Truthy(Prop(Prop(data, "password"), "0"))
      ==> m == Prop(Prop(data, "password"), "0").value
    ensures !Truthy(Prop(Prop(data, "username"), "0")) && !Truthy(Prop(Prop(data, "email"), "0"))
      && !Truthy(Prop(Prop(data, "password"), "0"))
      ==> m == JStr("Failed to save user")
  {
    Or(Prop(Prop(data, "username"), "0"),
       Or(Prop(Prop(data, "email"), "0"),
          Or(Prop(Prop(data, "password"), "0"), Some(JStr("Failed to save user"))))).value
  }

  lemma IndexZero()
    ensures IndexKey("0") == Some(0)
  {
    assert AllDigits("0") && DecimalValue("0") == 0;
  }

  /** The server's refusal of a short password reaches the user as it was written, when the
      username and email were accepted. */
  lemma PasswordErrorShown(msg: string)
    requires msg != ""
    ensures SaveErrorMessage(Some(JObj([("password", JArr([JStr(msg)]))]))) == JStr(msg)
  {
    IndexZero();
  }

  /** An error that is a bare text rather than a list shows only its first character, as
      `?.[0]` indexes the string. */
  lemma TextErrorShowsFirstCharacter(msg: string)
    requires msg != ""
    ensures SaveErrorMessage(Some(JObj([("username", JStr(msg))]))) == JStr([msg[0]])
  {
    IndexZero();
  }

  /** `currentUser?.role === 'admin'`: only then is the page shown rather than the
      access-denied view. */
  predicate IsAdminUser(currentUser: Option<Json>) {
    Prop(currentUser, "role") == Some(JStr("admin"))
  }

  /** What came back from a request: success, or a failure with the response body. */
  datatype Reply = Succeeded | Failed(data: Option<Json>)

  /** The page's state: the form, the loading flag, the path shown, the toasts shown and the
      requests sent. */
  class UserFormPage {
    const id: Option<string>
    var form: Form
    var loading: bool
    var location: string
    var toasts: seq<Json>
    var sent: seq<Request>

    constructor (id: Option<string>)
      ensures this.id == id && form == InitialForm && !loading && toasts == [] && sent == []
    {
      this.id := id;
      form := InitialForm;
      loading := false;
      location := "";
      toasts := [];
      sent := [];
    }

    /** `fetchUser` with the reply to the request for the user: on success the form is
        loaded from it; on failure the page says so and returns to the user list. */
    method FetchUser(reply: Reply, userData: Option<Json>)
      modifies this
      ensures !loading && sent == old(sent)
      ensures reply.Succeeded? ==> form == Loaded(userData) && toasts == old(toasts) && location == old(location)
      ensures reply.Failed? ==>
        form == old(form) && toasts == old(toasts) + [JStr("Failed to load user")] && location == "/users"
    {
      loading := true;
      if reply.Succeeded? {
        form := Loaded(userData);
      } else {
        toasts := toasts + [JStr("Failed to load user")];
        location := "/users";
      }
      loading := false;
    }

    /** `handleSubmit` with the reply the server would give: a refused submission only shows
        why; otherwise exactly one request is sent, and its success returns to the user list
        while its failure shows the server's reason. The form is not changed. */
    method HandleSubmit(reply: Reply)
      modifies this
      ensures !loading && form == old(form)
      ensures var r := SubmitRequest(old(form), id);
        (r.Err? ==> sent == old(sent) && toasts == old(toasts) + [JStr(r.error)] && location == old(location))
        && (r.Ok? && reply.Succeeded? ==>
              sent == old(sent) + [r.value] && location == "/users"
              && toasts == old(toasts) + [JStr(if r.value.UpdateUser? then "User updated successfully"
                                               else "User created successfully")])
        && (r.Ok? && reply.Failed? ==>
              sent == old(sent) + [r.value] && location == old(location)
              && toasts == old(toasts) + [SaveErrorMessage(reply.data)])
    {
      loading := true;
      var r := SubmitRequest(form, id);
      if r.Err? {
        toasts := toasts + [JStr(r.error)];
        loading := false;
        return;
      }
      sent := sent + [r.value];
      if reply.Succeeded? {
        toasts := toasts + [JStr(if r.value.UpdateUser? then "User updated successfully" else "User created successfully")];
        location := "/users";
      } else {
        toasts := toasts + [SaveErrorMessage(reply.data)];
      }
      loading := false;
    }

    /** `handleChange`: the named field takes the box's checked state for a checkbox and the
        input's value otherwise; no other field changes. */
    method HandleChange(name: string, inputType: string, value: Json, checked: bool)
      modifies this
      ensures name in form && form[name] == Some(if inputType == "checkbox" then JBool(checked) else value)
      ensures forall k :: k != name ==> Field(form, k) == Field(old(form), k)
      ensures form.Keys == old(form.Keys) + {name}
      ensures loading == old(loading) && sent == old(sent) && toasts == old(toasts) && location == old(location)
    {
      form := form[name := Some(if inputType == "checkbox" then JBool(checked) else value)];
    }
  }
}
