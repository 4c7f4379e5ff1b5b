/**
 * The session store: a provider that keeps the signed-in user in memory
 * and persists its token, role and name in `localStorage` under the keys
 * "token", "role" and "name".
 */
module Auth {
  import opened Common
  import opened LocalStorage
  import opened Http

  const TokenKey := "token"
  const RoleKey := "role"
  const NameKey := "name"
  const SessionKeys: set<string> := {TokenKey, RoleKey, NameKey}

  /**
   * The in-memory user. The provider builds it from token, role and name
   * only; `docId` and `id` stand for the `_id` and `id` fields the
   * dashboards look for, which a user built here never has.
   */
  datatype User = User(
    token: string,
    role: Option<string>,
    name: Option<string>,
    docId: Option<string>,
    id: Option<string>)

  /** The body of a successful `POST /auth/login`. */
  datatype LoginData = LoginData(token: string, role: string, name: string)

  /** The user the provider starts with: one exactly when a truthy token is stored, carrying the stored values. */
  function Rehydrate(s: Store): (u: Option<User>)
    ensures u.Some? <==> TokenKey in s && s[TokenKey] != ""
    ensures u.Some? ==> u.value.token == s[TokenKey]
    ensures u.Some? ==> u.value.role == GetItem(s, RoleKey) && u.value.name == GetItem(s, NameKey)
    ensures u.Some? ==> u.value.docId.None? && u.value.id.None?
  {
    var token := GetItem(s, TokenKey);
    var role := GetItem(s, RoleKey);
    var name := GetItem(s, NameKey);
    if Truthy(token) then Some(User(token.value, role, name, None, None)) else None
  }

  /** The user `login` sets from the backend's answer. */
  function SessionUser(d: LoginData): User
  {
    User(d.token, Some(d.role), Some(d.name), None, None)
  }

  /** The storage after `login`'s three writes: the three keys hold the answer; every other key is unchanged. */
  function StoreSession(s: Store, d: LoginData): (r: Store)
    ensures GetItem(r, TokenKey) == Some(d.token)
    ensures GetItem(r, RoleKey) == Some(d.role)
    ensures GetItem(r, NameKey) == Some(d.name)
    ensures r.Keys == s.Keys + SessionKeys
    ensures forall k :: k !in SessionKeys ==> GetItem(r, k) == GetItem(s, k)
  {
    SetItem(SetItem(SetItem(s, TokenKey, d.token), RoleKey, d.role), NameKey, d.name)
  }

  /** The storage after `logout`'s three removals: none of the three keys is left; every other key is unchanged. */
  function ClearSession(s: Store): (r: Store)
    ensures r.Keys == s.Keys - SessionKeys
    ensures forall k :: k !in SessionKeys ==> GetItem(r, k) == GetItem(s, k)
    ensures Rehydrate(r) == None
  {
    RemoveItem(RemoveItem(RemoveItem(s, TokenKey), RoleKey), NameKey)
  }

  /**
   * `user?._id || user?.id || localStorage.getItem("userId") || null`,
   * the way both dashboards find the current user's id: the first truthy
   * candidate, or `None`.
   */
  function ResolveUserId(user: Option<User>, s: Store): (r: Option<string>)
    ensures r.None? || r.value != ""
    ensures user.Some? && Truthy(user.value.docId) ==> r == user.value.docId
    ensures user.Some? && !Truthy(user.value.docId) && Truthy(user.value.id) ==> r == user.value.id
    ensures (user.None? || (!Truthy(user.value.docId) && !Truthy(user.value.id))) ==>
              r == (if Truthy(GetItem(s, "userId")) then GetItem(s, "userId") else None)
  {
    var docId := if user.Some? then user.value.docId else None;
    var id := if user.Some? then user.value.id else None;
    var v := Or(Or(docId, id), GetItem(s, "userId"));
    if Truthy(v) then v else None
  }

  class AuthProvider {
    var storage: Store
    var user: Option<User>

    /** The provider's first render: the user is rehydrated from storage. */
    constructor (initial: Store)
      ensures storage == initial && user == Rehydrate(initial)
    {
      storage := initial;
      user := Rehydrate(initial);
    }

    /**
     * `login(email, password)`: one `POST /auth/login`; on success the
     * answer is written to storage and to `user` and its role is returned;
     * on failure the error propagates and nothing changes.
     */
    method Login(email: string, password: string, reply: Reply<LoginData>)
      returns (r: Reply<string>, sent: seq<Request>)
      modifies this
      ensures sent == [Request(Post, "/auth/login", Credentials(email, password))]
      ensures reply.Ok? ==> r == Ok(reply.value.role)
      ensures reply.Ok? ==> storage == StoreSession(old(storage), reply.value)
      ensures reply.Ok? ==> user == Some(SessionUser(reply.value))
      ensures reply.Fail? ==> r == Fail(reply.error) && storage == old(storage) && user == old(user)
    {
      sent := [Request(Post, "/auth/login", Credentials(email, password))];
      match reply
      case Fail(e) =>
        r := Fail(e);
      case Ok(d) =>
        storage := SetItem(storage, TokenKey, d.token);
        storage := SetItem(storage, RoleKey, d.role);
        storage := SetItem(storage, NameKey, d.name);
        user := Some(User(d.token, Some(d.role), Some(d.name), None, None));
        r := Ok(d.role);
    }

    /** `logout()`: the three session keys are removed and `user` becomes null. */
    method Logout()
      modifies this
      ensures storage == ClearSession(old(storage))
      ensures user == None
    {
      storage := RemoveItem(storage, TokenKey);
      storage := RemoveItem(storage, RoleKey);
      storage := RemoveItem(storage, NameKey);
      user := None;
    }
  }

  /** After a login whose token is truthy, a fresh start rehydrates exactly the user `login` set. */
  lemma LoginThenRehydrate(s: Store, d: LoginData)
    ensures Rehydrate(StoreSession(s, d)) == (if d.token != "" then Some(SessionUser(d)) else None)
  {
  }

  /** Logging out twice leaves the same storage as logging out once. */
  lemma LogoutIdempotent(s: Store)
    ensures ClearSession(ClearSession(s)) == ClearSession(s)
  {
  }

  /** Login then logout leaves storage as logging out alone would: the login leaves no trace. */
  lemma LoginThenLogout(s: Store, d: LoginData)
    ensures ClearSession(StoreSession(s, d)) == ClearSession(s)
    ensures Rehydrate(ClearSession(StoreSession(s, d))) == None
  {
  }

  /** A user the provider built never carries `_id` or `id`, so the id chain comes down to the stored "userId". */
  lemma SessionUserIdComesFromStorage(s: Store, d: LoginData, u: Option<User>)
    requires u == Rehydrate(s) || u == Some(SessionUser(d))
    ensures ResolveUserId(u, s) == (if Truthy(GetItem(s, "userId")) then GetItem(s, "userId") else None)
  {
  }
}
