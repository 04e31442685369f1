/**
 * The web client's authentication state (frontend/src/store.ts): the token, the role and
 * the login held by the store, the token persisted under the "token" key of the browser's
 * localStorage, and the two functions that read a token's payload.
 *
 * Decoding the payload (`JSON.parse(atob(token.split(".")[1] ?? ""))`) is not modelled:
 * a token carries the outcome of that decoding.
 */
module Session {

  import opened Wrappers
  import opened Lookup
  import Auth
  import Entities

  /**
   * The role names the client accepts. The client is a separate TypeScript program whose
   * role is the string type `"Admin" | "User"`, not the backend's enum, so it keeps its own
   * type; it only ever meets the backend's roles as claim strings inside a token.
   */
  datatype Role = Admin | User

  function RoleText(r: Role): string
  {
    match r
    case Admin => "Admin"
    case User => "User"
  }

  /**
   * A decoded payload: the `exp` field (None when it is absent or not a number) and the
   * role claims under the long Microsoft claim-type key
   * "http://schemas.microsoft.com/ws/2008/06/identity/claims/role" and under "role"
   * (None when the key is absent or null; a single string counts as a one-element list,
   * as `[].concat` makes it).
   */
  datatype Payload = Payload(exp: Option<int>, msRole: Option<seq<string>>, role: Option<seq<string>>)

  /** A token string with the result of decoding its payload (None when decoding throws). */
  datatype Jwt = Jwt(raw: string, payload: Option<Payload>)

  /** A claim value `decodeRole` accepts. */
  predicate IsRoleName(x: string)
  {
    x == "Admin" || x == "User"
  }

  /** The position of the first accepted claim value: the list search with `IsRoleName` as key. */
  function RoleIndex(xs: seq<string>): (r: Option<nat>)
    ensures r.Some? ==> r.value < |xs| && IsRoleName(xs[r.value])
    ensures r.Some? ==> forall j :: 0 <= j < r.value ==> !IsRoleName(xs[j])
    ensures r.None? <==> forall j :: 0 <= j < |xs| ==> !IsRoleName(xs[j])
  {
    FirstIndex(xs, IsRoleName, true)
  }

  /** `roles.find(x => x === "Admin" || x === "User")`, as a role. */
  function FirstRole(xs: seq<string>): (r: Option<Role>)
    ensures r.Some? <==> RoleIndex(xs).Some?
    ensures r.Some? ==> RoleText(r.value) == xs[RoleIndex(xs).value]
  {
    match RoleIndex(xs)
    case None => None
    case Some(k) => if xs[k] == "Admin" then Some(Admin) else Some(User)
  }

  /** The role claims `decodeRole` searches: the Microsoft key when present, else "role", else none. */
  function RoleClaims(p: Payload): seq<string>
  {
    if p.msRole.Some? then p.msRole.value else if p.role.Some? then p.role.value else []
  }

  /** `decodeRole`: the first accepted role claim, or None when there is none or decoding fails. */
  function DecodeRole(t: Jwt): (r: Option<Role>)
    ensures t.payload.None? ==> r.None?
    ensures t.payload.Some? ==> (r.None? <==> forall j :: 0 <= j < |RoleClaims(t.payload.value)| ==> !IsRoleName(RoleClaims(t.payload.value)[j]))
    ensures r.Some? ==> RoleText(r.value) in RoleClaims(t.payload.value)
    ensures r.Some? ==>
      exists k :: (0 <= k < |RoleClaims(t.payload.value)| && RoleText(r.value) == RoleClaims(t.payload.value)[k]
                   && forall j :: 0 <= j < k ==> !IsRoleName(RoleClaims(t.payload.value)[j]))
  {
    match t.payload
    case None => None
    case Some(p) => FirstRole(RoleClaims(p))
  }

  /**
   * `isTokenExpired` at `now` (seconds since the epoch): undecodable tokens are expired;
   * a token without a truthy `exp` (absent, or 0) never expires; otherwise it is expired
   * once `exp` is strictly before `now`.
   */
  function IsTokenExpired(t: Jwt, now: int): (r: bool)
    ensures t.payload.None? ==> r
    ensures t.payload.Some? && (t.payload.value.exp.None? || t.payload.value.exp.value == 0) ==> !r
    ensures t.payload.Some? && t.payload.value.exp.Some? && t.payload.value.exp.value != 0 ==>
      (r <==> t.payload.value.exp.value < now)
  {
    match t.payload
    case None => true
    case Some(p) => if p.exp.None? || p.exp.value == 0 then false else p.exp.value < now
  }

  /** A token whose only role claim names a role decodes to that role, under either key. */
  lemma {:induction false} RoleClaimRoundTrip(raw: string, exp: Option<int>, r: Role, other: Option<seq<string>>)
    ensures DecodeRole(Jwt(raw, Some(Payload(exp, None, Some([RoleText(r)]))))) == Some(r)
    ensures DecodeRole(Jwt(raw, Some(Payload(exp, Some([RoleText(r)]), other)))) == Some(r)
  {
    assert RoleText(r) == "Admin" || RoleText(r) == "User";
    match r
    case Admin =>
    case User =>
  }

  /**
   * The Microsoft key takes precedence even when it holds no accepted role: the "role"
   * key is then not consulted at all.
   */
  lemma {:induction false} MsKeyShadowsRole(raw: string, exp: Option<int>, junk: seq<string>, roles: seq<string>)
    requires forall i :: 0 <= i < |junk| ==> junk[i] != "Admin" && junk[i] != "User"
    ensures DecodeRole(Jwt(raw, Some(Payload(exp, Some(junk), Some(roles))))).None?
  {
  }

  /** Once expired, a token stays expired: expiry is monotone in time. */
  lemma {:induction false} ExpiryMonotone(t: Jwt, now: int, later: int)
    requires now <= later
    requires IsTokenExpired(t, now)
    ensures IsTokenExpired(t, later)
  {
  }

  /**
   * The client honours the backend's token lifetime: a token carrying as `exp` the expiry
   * `AuthService` wrote into it (issued at a time after the epoch) counts as live up to and
   * including that second, and as expired at every later one.
   */
  lemma {:induction false} IssuedTokenLifetime(issuer: string, u: Entities.UserAccount, issued: int, now: int,
                                               raw: string, msRole: Option<seq<string>>, role: Option<seq<string>>)
    requires issued >= 0
    ensures var tk := Auth.IssueToken(issuer, u, issued);
            IsTokenExpired(Jwt(raw, Some(Payload(Some(tk.expires), msRole, role))), now) <==> now > issued + 28800
  {
    Auth.TokenNamesUser(issuer, u, issued);
  }

  class AuthStore {
    var token: Option<Jwt>
    var role: Option<Role>
    var login: Option<string>
    /** localStorage["token"]. */
    var stored: Option<Jwt>

    /**
     * The persisted token is the store's token, and without a token there is no role and
     * no login. Nothing relies on it: it is the invariant the constructor establishes and
     * `SetAuth` and `Logout` re-establish whatever the state before them.
     */
    predicate Valid()
      reads this
    {
      stored == token && (token.None? ==> role.None? && login.None?)
    }

    /**
     * Store creation with `saved` in localStorage at instant `now`: a saved token that is
     * truthy and expired is removed; otherwise it is kept, with the role decoded from it
     * (only a truthy token is decoded). The login always starts empty.
     */
    constructor (saved: Option<Jwt>, now: int)
      ensures Valid()
      ensures login.None?
      ensures saved.Some? && saved.value.raw != "" && IsTokenExpired(saved.value, now) ==>
        token.None? && role.None? && stored.None?
      ensures !(saved.Some? && saved.value.raw != "" && IsTokenExpired(saved.value, now)) ==>
        && token == saved && stored == saved
        && role == (if saved.Some? && saved.value.raw != "" then DecodeRole(saved.value) else None)
    {
      stored := saved;
      var validToken := saved;
      var validRole := if saved.Some? && saved.value.raw != "" then DecodeRole(saved.value) else None;
      if saved.Some? && saved.value.raw != "" && IsTokenExpired(saved.value, now) {
        stored := None;
        validToken := None;
        validRole := None;
      }
      token := validToken;
      role := validRole;
      login := None;
    }

    /**
     * `setAuth` at instant `now`: an expired token logs out; any other is persisted and
     * becomes the store's token with the login and the supplied role (or, lacking one,
     * the role decoded from the token).
     */
    method SetAuth(t: Jwt, r: Option<Role>, l: string, now: int)
      modifies this
      ensures Valid()
      ensures IsTokenExpired(t, now) ==> token.None? && role.None? && login.None? && stored.None?
      ensures !IsTokenExpired(t, now) ==>
        && token == Some(t) && stored == Some(t) && login == Some(l)
        && role == (if r.Some? then r else DecodeRole(t))
    {
      if IsTokenExpired(t, now) {
        stored := None;
        token, role, login := None, None, None;
        return;
      }
      stored := Some(t);
      token, role, login := Some(t), if r.Some? then r else DecodeRole(t), Some(l);
    }

    /** `logout`: clears the persisted token and all three fields. */
    method Logout()
      modifies this
      ensures Valid()
      ensures token.None? && role.None? && login.None? && stored.None?
    {
      stored := None;
      token, role, login := None, None, None;
    }
  }
}
