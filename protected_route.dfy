/** The route guard: from the stored user, the decoded token claims and the
    current time it decides whether a page is rendered, or the visitor is
    sent to the login page or home. */
module ProtectedRoute {
  import opened JsText
  import opened BrowserStorage

  /** The fields of the stored user object the guard reads. */
  datatype RouteUser = RouteUser(name: Option<string>, email: Option<string>, role: Option<string>)

  /** What `JSON.parse` makes of the stored text. */
  datatype ParsedUser = Malformed | JsonNull | UserObject(user: RouteUser)

  /** The stored token after `jwtDecode`: absent (or empty), not decodable,
      or its claims. `exp` is in seconds. The role claims are modelled as
      text only; a claim that holds a list is not. */
  datatype Token =
    | NoToken
    | Undecodable
    | Claims(exp: Option<int>, role: Option<string>, authorities: Option<string>, roles: Option<string>)

  datatype Decision = RedirectLogin | RedirectHome | RenderChildren

  const LoginPath := "/login"
  const HomePath := "/"

  /** `userString ? JSON.parse(userString) : null`, a parse error giving null. */
  function UserOf(stored: Option<string>, parse: string -> ParsedUser): (u: Option<RouteUser>)
    ensures u.Some? <==> Truthy(stored) && parse(stored.value).UserObject?
    ensures u.Some? ==> u.value == parse(stored.value).user
  {
    if Truthy(stored) && parse(stored.value).UserObject? then Some(parse(stored.value).user) else None
  }

  /** `decoded.exp && decoded.exp * 1000 > Date.now()` */
  predicate TokenValid(t: Token, now: int) {
    t.Claims? && TruthyNumber(t.exp) && t.exp.value * 1000 > now
  }

  /** `decoded.role || decoded.authorities || decoded.roles || null`, read
      only from a valid token. */
  function TokenRole(t: Token, now: int): (r: Option<string>)
    ensures r.Some? ==> TokenValid(t, now) && r.value != ""
    ensures TokenValid(t, now) && Truthy(t.role) ==> r == t.role
  {
    if !TokenValid(t, now) then None
    else if Truthy(t.role) then t.role
    else if Truthy(t.authorities) then t.authorities
    else if Truthy(t.roles) then t.roles
    else None
  }

  /** A user object that names someone: it has a name or an email. */
  predicate Identifies(user: Option<RouteUser>) {
    user.Some? && (Truthy(user.value.name) || Truthy(user.value.email))
  }

  /** `user?.role || tokenRole` */
  function EffectiveRole(user: Option<RouteUser>, t: Token, now: int): (r: Option<string>)
    ensures user.Some? && Truthy(user.value.role) ==> r == user.value.role
    ensures !(user.Some? && Truthy(user.value.role)) ==> r == TokenRole(t, now)
  {
    if user.Some? && Truthy(user.value.role) then user.value.role else TokenRole(t, now)
  }

  /** The guard's decision. */
  function Decide(user: Option<RouteUser>, t: Token, now: int, roleRequired: Option<string>): (d: Decision)
    ensures d == RedirectLogin <==> !Identifies(user) && !TokenValid(t, now)
    ensures d == RedirectHome <==>
      (Identifies(user) || TokenValid(t, now))
      && Truthy(roleRequired) && EffectiveRole(user, t, now) != roleRequired
    ensures d == RenderChildren ==> !Truthy(roleRequired) || EffectiveRole(user, t, now) == roleRequired
  {
    if !Identifies(user) && !TokenValid(t, now) then RedirectLogin
    else if Truthy(roleRequired) && EffectiveRole(user, t, now) != roleRequired then RedirectHome
    else RenderChildren
  }

  /** A token that is valid now was valid at every earlier moment. */
  lemma TokenValidEarlier(t: Token, earlier: int, now: int)
    requires earlier <= now && TokenValid(t, now)
    ensures TokenValid(t, earlier)
  {
  }

  /** A page guarded by a role is rendered only for that role, and the role
      comes from the user or from a token that is still valid. */
  lemma {:induction false} GuardedPageNeedsRole(user: Option<RouteUser>, t: Token, now: int, required: string)
    requires required != ""
    requires Decide(user, t, now, Some(required)) == RenderChildren
    ensures EffectiveRole(user, t, now) == Some(required)
    ensures (user.Some? && user.value.role == Some(required)) || TokenValid(t, now)
  {
    if !(user.Some? && Truthy(user.value.role)) {
      assert TokenRole(t, now) == Some(required);
    }
  }

  /** Without a stored user, a missing, broken or expired token always
      leads to the login page whatever role is asked for. */
  lemma NoUserNoValidTokenLogsIn(t: Token, now: int, roleRequired: Option<string>)
    requires t.NoToken? || t.Undecodable? || (t.Claims? && t.exp.Some? && t.exp.value * 1000 <= now)
    ensures Decide(None, t, now, roleRequired) == RedirectLogin
  {
  }

  /** The component: reads the user and the token, drops an unparseable
      stored user from storage, and decides. */
  method Guard(store: Storage, parse: string -> ParsedUser, t: Token, now: int, roleRequired: Option<string>)
      returns (d: Decision)
    modifies store
    ensures var stored := old(store.GetItem(UserKey));
      d == Decide(UserOf(stored, parse), t, now, roleRequired)
      && store.items == (if Truthy(stored) && parse(stored.value).Malformed? then old(store.items) - {UserKey} else old(store.items))
    ensures store.events == old(store.events)
  {
    var userString := store.GetItem(UserKey);
    var user: Option<RouteUser> := None;
    if Truthy(userString) {
      match parse(userString.value)
      case Malformed => store.RemoveItem(UserKey);
      case JsonNull =>
      case UserObject(u) => user := Some(u);
    }
    var tokenValid := t.Claims? && TruthyNumber(t.exp) && t.exp.value * 1000 > now;
    var tokenRole: Option<string> := None;
    if tokenValid {
      tokenRole := if Truthy(t.role) then t.role
        else if Truthy(t.authorities) then t.authorities
        else if Truthy(t.roles) then t.roles
        else None;
    }
    if !Identifies(user) && !tokenValid {
      return RedirectLogin;
    }
    var effectiveRole := if user.Some? && Truthy(user.value.role) then user.value.role else tokenRole;
    if Truthy(roleRequired) && effectiveRole != roleRequired {
      return RedirectHome;
    }
    return RenderChildren;
  }
}
