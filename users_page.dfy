/** The user list page: the access gate, the search parameters, the role badge and the
    name shown for each user, and deleting a user, which never lets the current user
    delete their own account. */
module UsersPage {
  import opened Common
  import opened Js
  import ApiClient
  import UsersModels
  import UsersSerializers
  import UserForm

  /** `handleSearch`'s query parameters, in the order they are added: `search` and then
      `role`, each only when its input is not empty. */
  function SearchParams(searchQuery: string, roleFilter: string): (p: seq<(string, string)>)
    ensures ("search", searchQuery) in p <==> searchQuery != ""
    ensures ("role", roleFilter) in p <==> roleFilter != ""
    ensures |p| == (if searchQuery != "" then 1 else 0) + (if roleFilter != "" then 1 else 0)
    ensures forall k :: 0 <= k < |p| ==> p[k] == ("search", searchQuery) || p[k] == ("role", roleFilter)
    ensures |p| == 2 ==> p[0].0 == "search"
  {
    (if searchQuery != "" then [("search", searchQuery)] else [])
    + (if roleFilter != "" then [("role", roleFilter)] else [])
  }

  /** `getRoleBadge`: the primary badge marks exactly the admins. */
  function RoleBadge(role: Option<Json>): (badge: string)
    ensures badge == "badge-primary" <==> role == Some(JStr("admin"))
    ensures badge != "badge-primary" ==> badge == "badge-secondary"
  {
    if role == Some(JStr("admin")) then "badge-primary" else "badge-secondary"
  }

  /** Every user the API returns gets the badge of their role. */
  lemma BadgeOfUser(u: UsersModels.User)
    ensures RoleBadge(Prop(Some(JObj(UsersSerializers.Represent(u))), "role"))
      == (if u.role == UsersModels.Admin then "badge-primary" else "badge-secondary")
  {
    UserForm.RoleMember(u);
  }

  /** The name column: `${first} ${last}` trimmed, or "-" when that leaves nothing. */
  function DisplayName(first: Option<Json>, last: Option<Json>): (shown: string)
    ensures shown != ""
    ensures AllSpaces(ApiClient.Template(first) + " " + ApiClient.Template(last)) ==> shown == "-"
    ensures !AllSpaces(ApiClient.Template(first) + " " + ApiClient.Template(last)) ==>
      shown == Trim(ApiClient.Template(first) + " " + ApiClient.Template(last))
    ensures !IsSpace(shown[0]) && !IsSpace(shown[|shown| - 1])
  {
    var full := Trim(ApiClient.Template(first) + " " + ApiClient.Template(last));
    if full == "" then "-" else full
  }

  /** A text with no surrounding whitespace is left as it is by trimming. */
  lemma {:induction false} TrimKeeps(s: string)
    requires s != [] && !IsSpace(s[0]) && !IsSpace(s[|s| - 1])
    ensures Trim(s) == s
  {
    assert TrimStart(s) == s;
    assert TrimEnd(s) == s;
  }

  /** A user with both names shows them separated by one space. */
  lemma FullNameShown(first: string, last: string)
    requires first != [] && !IsSpace(first[0]) && !IsSpace(first[|first| - 1])
    requires last != [] && !IsSpace(last[0]) && !IsSpace(last[|last| - 1])
    requires first + " " + last != "-"
    ensures DisplayName(Some(JStr(first)), Some(JStr(last))) == first + " " + last
  {
    var full := first + " " + last;
    assert full[0] == first[0] && full[|full| - 1] == last[|last| - 1];
    TrimKeeps(full);
  }

  /** A user with only a first name shows it without the trailing space. */
  lemma FirstNameOnlyShown(first: string)
    requires first != [] && first != "-" && !IsSpace(first[0]) && !IsSpace(first[|first| - 1])
    ensures DisplayName(Some(JStr(first)), Some(JStr(""))) == first
  {
    var full := first + " " + "";
    assert TrimEnd(full) == first by {
      assert full[..|full| - 1] == first;
    }
    assert TrimStart(full) == full;
  }

  /** A user with neither name shows a dash. */
  lemma NoNameShowsDash()
    ensures DisplayName(Some(JStr("")), Some(JStr(""))) == "-"
  {
    assert AllSpaces("" + " " + "");
  }

  /** What the page shows: the user table, or the access-denied view. */
  datatype View = UserTable | AccessDenied

  /** `currentUser?.role !== 'admin'` gives the access-denied view. */
  function PageView(currentUser: Option<Json>): (v: View)
    ensures v == UserTable <==> UserForm.IsAdminUser(currentUser)
  {
    if UserForm.IsAdminUser(currentUser) then UserTable else AccessDenied
  }

  /** Nobody logged in, and any logged-in user who is not an admin, are denied; an admin
      sees the table. */
  lemma OnlyAdminsSeeUsers(u: UsersModels.User)
    ensures PageView(None) == AccessDenied
    ensures PageView(Some(JObj(UsersSerializers.Represent(u)))) == UserTable <==> u.role == UsersModels.Admin
  {
    UserForm.RoleMember(u);
  }

  /** `response.data.results || response.data`: the page of a paginated reply, or the
      reply itself. */
  function UsersFrom(data: Option<Json>): (users: Option<Json>)
    ensures Truthy(Prop(data, "results")) ==> users == Prop(data, "results")
    ensures !Truthy(Prop(data, "results")) ==> users == data
  {
    Or(Prop(data, "results"), data)
  }

  /** The requests the page sends. */
  datatype Request = ListUsers(params: seq<(string, string)>) | DeleteUser(id: int)

  /** The reply to a request: success with its body, or a failure. */
  datatype Reply = Succeeded(data: Option<Json>) | Failed

  /** The page's state: the users listed, the loading flag, the toasts shown, the requests
      sent and the number of confirmations asked. */
  class UsersListPage {
    const currentUserId: int
    var users: Option<Json>
    var loading: bool
    var toasts: seq<Json>
    var sent: seq<Request>
    var confirmsAsked: nat

    /** The page opens loading, with no users listed. */
    constructor (currentUserId: int)
      ensures this.currentUserId == currentUserId
      ensures users == Some(JArr([])) && loading && toasts == [] && sent == [] && confirmsAsked == 0
    {
      this.currentUserId := currentUserId;
      users := Some(JArr([]));
      loading := true;
      toasts := [];
      sent := [];
      confirmsAsked := 0;
    }

    /** `fetchUsers`: one list request; its reply replaces the users shown, its failure
        leaves them and says so. */
    method FetchUsers(params: seq<(string, string)>, reply: Reply)
      modifies this
      ensures sent == old(sent) + [ListUsers(params)] && !loading && confirmsAsked == old(confirmsAsked)
      ensures reply.Succeeded? ==> users == UsersFrom(reply.data) && toasts == old(toasts)
      ensures reply.Failed? ==> users == old(users) && toasts == old(toasts) + [JStr("Failed to load users")]
    {
      loading := true;
      sent := sent + [ListUsers(params)];
      if reply.Succeeded? {
        users := UsersFrom(reply.data);
      } else {
        toasts := toasts + [JStr("Failed to load users")];
      }
      loading := false;
    }

    /** `handleSearch`: a list request with the non-empty filters. */
    method HandleSearch(searchQuery: string, roleFilter: string, reply: Reply)
      modifies this
      ensures sent == old(sent) + [ListUsers(SearchParams(searchQuery, roleFilter))]
      ensures reply.Succeeded? ==> users == UsersFrom(reply.data) && toasts == old(toasts)
      ensures reply.Failed? ==> users == old(users) && toasts == old(toasts) + [JStr("Failed to load users")]
      ensures !loading && confirmsAsked == old(confirmsAsked)
    {
      FetchUsers(SearchParams(searchQuery, roleFilter), reply);
    }

    /** `handleDelete`: the current user's own id is refused before any confirmation or
        request (the list offers no delete button on that row either). Otherwise the user is asked to confirm; a refusal ends it; a confirmed
        deletion is sent, and its success is announced and followed by a fresh listing,
        its failure only announced. */
    method HandleDelete(id: int, confirmed: bool, deleteReply: Reply, listReply: Reply)
      modifies this
      ensures id == currentUserId ==>
        toasts == old(toasts) + [JStr("You cannot delete your own account")]
        && sent == old(sent) && confirmsAsked == old(confirmsAsked) && users == old(users)
      ensures id != currentUserId ==> confirmsAsked == old(confirmsAsked) + 1
      ensures id != currentUserId && !confirmed ==> sent == old(sent) && toasts == old(toasts) && users == old(users)
      ensures id != currentUserId && confirmed && deleteReply.Failed? ==>
        sent == old(sent) + [DeleteUser(id)] && toasts == old(toasts) + [JStr("Failed to delete user")]
        && users == old(users)
      ensures id != currentUserId && confirmed && deleteReply.Succeeded? ==>
        sent == old(sent) + [DeleteUser(id), ListUsers([])]
        && (listReply.Succeeded? ==>
              users == UsersFrom(listReply.data) && toasts == old(toasts) + [JStr("User deleted successfully")])
        && (listReply.Failed? ==>
              users == old(users)
              && toasts == old(toasts) + [JStr("User deleted successfully"), JStr("Failed to load users")])
      ensures DeleteUser(currentUserId) in sent ==> DeleteUser(currentUserId) in old(sent)
      ensures id != currentUserId && confirmed && deleteReply.Succeeded? ==> !loading
      ensures !(id != currentUserId && confirmed && deleteReply.Succeeded?) ==> loading == old(loading)
    {
      if id == currentUserId {
        toasts := toasts + [JStr("You cannot delete your own account")];
        return;
      }
      confirmsAsked := confirmsAsked + 1;
      if !confirmed {
        return;
      }
      sent := sent + [DeleteUser(id)];
      if deleteReply.Succeeded? {
        toasts := toasts + [JStr("User deleted successfully")];
        FetchUsers([], listReply);
      } else {
        toasts := toasts + [JStr("Failed to delete user")];
      }
    }
  }
}
