/** The user record: a Django user with a role. */
module UsersModels {
  import opened Common

  /** The two roles; a new user is a cashier unless told otherwise. */
  datatype Role = Admin | Cashier

  const DefaultRole: Role := Cashier

  /** The role as stored and sent over the API. */
  function RoleName(r: Role): (s: string)
    ensures s == "admin" || s == "cashier"
  {
    match r
    case Admin => "admin"
    case Cashier => "cashier"
  }

  /** The role a stored name stands for; None for a name outside the choices. */
  function RoleFromName(s: string): (r: Option<Role>)
    ensures r.Some? ==> RoleName(r.value) == s
  {
    if s == "admin" then Some(Admin) else if s == "cashier" then Some(Cashier) else None
  }

  lemma RoleNameRoundTrip(r: Role)
    ensures RoleFromName(RoleName(r)) == Some(r)
  {
  }

  /** A stored user; `createdAt` is the creation time as the API renders it. */
  datatype User = User(
    id: nat,
    username: string,
    password: string,
    email: string,
    firstName: string,
    lastName: string,
    role: Role,
    phoneNumber: Option<string>,
    isActive: bool,
    createdAt: string)

  /** Who a request comes from: nobody (no valid token), or an authenticated user. */
  datatype Requester = Anonymous | Authenticated(user: User)
}
