/** The user endpoints: who may call which action, the admin guard on listing, and the
    token table behind login and logout. */
module UsersViews {
  import opened Common
  import opened Js
  import opened Python
  import opened UsersModels
  import opened UsersSerializers

  /** `IsAuthenticated`: the request comes from a logged-in user. */
  predicate IsAuthenticated(req: Requester) {
    req.Authenticated?
  }

  /** `IsAdmin`: authenticated, and with the admin role. */
  predicate IsAdmin(req: Requester) {
    IsAuthenticated(req) && req.user.role == Admin
  }

  datatype Permission = AllowAny | AdminOnly | LoggedInOnly

  /** The actions that manage users. */
  const ManageActions: seq<string> := ["list", "retrieve", "create", "update", "partial_update", "destroy"]

  /** `get_permissions`: login is open, managing users is for admins, anything else needs a
      logged-in user. */
  function PermissionFor(action: string): (p: Permission)
    ensures p == AllowAny <==> action == "login"
    ensures p == AdminOnly <==> action in ManageActions
  {
    if action == "login" then AllowAny
    else if action in ManageActions then AdminOnly
    else LoggedInOnly
  }

  predicate Permits(p: Permission, req: Requester) {
    match p
    case AllowAny => true
    case AdminOnly => IsAdmin(req)
    case LoggedInOnly => IsAuthenticated(req)
  }

  /** A request for an action gets past the permission check exactly when the action is
      login, or it manages users and comes from an admin, or it is another action and comes
      from a logged-in user. */
  lemma WhoMayCall(action: string, req: Requester)
    ensures Permits(PermissionFor(action), req) <==>
      action == "login"
      || (action in ManageActions && req.Authenticated? && req.user.role == Admin)
      || (action !in ManageActions && req.Authenticated?)
  {
  }

  datatype Reply =
    | Done
    | NotAuthenticated
    | Forbidden(detail: string)
    | ServerError

  /** The permission check in front of every action: an anonymous request that is refused
      is told to authenticate, a logged-in one is forbidden. */
  function CheckPermission(action: string, req: Requester): (r: Reply)
    ensures r == Done <==> Permits(PermissionFor(action), req)
    ensures r != Done ==> (r == NotAuthenticated <==> req.Anonymous?)
  {
    if Permits(PermissionFor(action), req) then Done
    else if req.Anonymous? then NotAuthenticated
    else Forbidden("You do not have permission to perform this action.")
  }

  /** `list`'s own guard: a requester without a role, or whose role is not admin, is
      refused. */
  function ListGuard(req: Requester): (r: Reply)
    ensures r == Done <==> IsAdmin(req)
    ensures r != Done ==> r == Forbidden("Permission denied. Admin access required.")
  {
    if req.Anonymous? || req.user.role != Admin then Forbidden("Permission denied. Admin access required.")
    else Done
  }

  /** Listing users: the permission check, then the guard. The guard repeats the check, so
      it never refuses a request the check let through. */
  function ListUsers(req: Requester): (r: Reply)
    ensures r == Done <==> IsAdmin(req)
    ensures r != Forbidden("Permission denied. Admin access required.")
  {
    var checked := CheckPermission("list", req);
    if checked != Done then checked else ListGuard(req)
  }

  /** `Token.objects.get_or_create(user=user)` on the table of keys by user id: the user's
      key when there is one, otherwise `newKey`, recorded for the user. */
  function GetOrCreateToken(tokens: map<nat, string>, id: nat, newKey: string): (r: (map<nat, string>, string))
    ensures id in r.0 && r.0[id] == r.1
    ensures id in tokens ==> r == (tokens, tokens[id])
    ensures id !in tokens ==> r == (tokens[id := newKey], newKey)
  {
    if id in tokens then (tokens, tokens[id]) else (tokens[id := newKey], newKey)
  }

  /** Logging in again returns the same key and leaves the table as it was, whatever key a
      new token would have had. */
  lemma LoginAgainSameToken(tokens: map<nat, string>, id: nat, k1: string, k2: string)
    ensures var first := GetOrCreateToken(tokens, id, k1);
      GetOrCreateToken(first.0, id, k2) == first
  {
  }

  /** Logging out and in again issues the new key: the old one is gone for good. */
  lemma LogoutRevokes(tokens: map<nat, string>, id: nat, k: string)
    requires id in tokens
    ensures GetOrCreateToken(tokens - {id}, id, k) == (tokens - {id} + map[id := k], k)
    ensures forall other :: other in tokens && other != id ==> other in tokens - {id} && (tokens - {id})[other] == tokens[other]
  {
    assert (tokens - {id})[id := k] == tokens - {id} + map[id := k];
  }

  datatype LoginReply = LoginOk(token: string, user: seq<(string, Json)>) | LoginBadRequest(check: LoginCheck)

  /** The token table: one key per user, keyed by user id. */
  class TokenTable {
    var tokens: map<nat, string>

    constructor ()
      ensures tokens == map[]
    {
      tokens := map[];
    }

    /** `login`: a request the login serializer refuses is a bad request and changes
        nothing; otherwise the user gets their token, created with `newKey` when they have
        none, and their representation. */
    method Login(username: Option<Scalar>, password: Option<Scalar>, authenticate: (string, string) -> Option<User>,
                 newKey: string)
      returns (reply: LoginReply)
      modifies this
      ensures var check := ValidateLogin(username, password, authenticate);
        (!check.LoggedIn? ==> reply == LoginBadRequest(check) && tokens == old(tokens))
        && (check.LoggedIn? ==>
              reply.LoginOk? && reply.user == Represent(check.user)
              && (tokens, reply.token) == GetOrCreateToken(old(tokens), check.user.id, newKey))
    {
      var check := ValidateLogin(username, password, authenticate);
      if !check.LoggedIn? {
        reply := LoginBadRequest(check);
      } else {
        var issued := GetOrCreateToken(tokens, check.user.id, newKey);
        tokens := issued.0;
        reply := LoginOk(issued.1, Represent(check.user));
      }
    }

    /** `logout`: an anonymous request is told to authenticate; a user without a token makes
        the deletion fail; otherwise the user's token, and only it, is deleted. */
    method Logout(req: Requester) returns (reply: Reply)
      modifies this
      ensures req.Anonymous? ==> reply == NotAuthenticated && tokens == old(tokens)
      ensures req.Authenticated? && req.user.id !in old(tokens) ==> reply == ServerError && tokens == old(tokens)
      ensures req.Authenticated? && req.user.id in old(tokens) ==> reply == Done && tokens == old(tokens) - {req.user.id}
    {
      if req.Anonymous? {
        reply := NotAuthenticated;
      } else if req.user.id !in tokens {
        reply := ServerError;
      } else {
        tokens := tokens - {req.user.id};
        reply := Done;
      }
    }
  }

  /** `me`: the representation of the requesting user; anonymous requests are told to
      authenticate. */
  function Me(req: Requester): (r: Result<seq<(string, Json)>>)
    ensures r.Ok? <==> req.Authenticated?
    ensures r.Ok? ==> r.value == Represent(req.user) && "password" !in KeysOf(r.value)
  {
    if req.Anonymous? then Err("Authentication credentials were not provided.") else Ok(Represent(req.user))
  }
}
