/**
 * AuthService (backend/Orders.Api/AuthService.cs): the credential check behind the login
 * endpoint and the claims of the token it issues. Signing and serialising the JWT are
 * not modelled: the token is the record of what it carries.
 */
module Auth {

  import opened Wrappers
  import opened Entities
  import opened Users

  /** `ClaimTypes.NameIdentifier`, `ClaimTypes.Name` and `ClaimTypes.Role` claims. */
  datatype Claim = NameIdentifier(id: Ident) | Name(name: string) | RoleClaim(role: string)

  /** The token's content: issuer, claims and expiry instant (in seconds); there is no audience. */
  datatype Token = Token(issuer: string, claims: seq<Claim>, expires: int)

  /** The issuer when the configuration has no `Jwt:Issuer`. */
  const DefaultIssuer: string := "OrdersApp"

  /** `AddHours(8)`, in seconds. */
  const TokenLifetime: int := 8 * 60 * 60

  /**
   * The credential check: the first user whose login equals `login` ignoring case,
   * accepted only when its stored password equals `password` exactly (case-sensitively).
   */
  function Authenticate(users: seq<UserAccount>, login: string, password: string): (r: Option<UserAccount>)
    ensures r.Some? <==> FindLogin(users, login).Some? && FindLogin(users, login).value.passwordHash == password
    ensures r.Some? ==> r == FindLogin(users, login) && r.value in users
    ensures r.Some? ==> EqualsIgnoreCase(r.value.login, login) && r.value.passwordHash == password
  {
    match FindLogin(users, login)
    case None => None
    case Some(u) => if u.passwordHash == password then Some(u) else None
  }

  /** The token issued at instant `now` to `u`. */
  function IssueToken(issuer: string, u: UserAccount, now: int): (t: Token)
    ensures t.issuer == issuer && t.expires == now + TokenLifetime
    ensures |t.claims| == 3 && t.claims[0] == NameIdentifier(u.id)
  {
    Token(issuer, [NameIdentifier(u.id), Name(u.login), RoleClaim(RoleName(u.role))], now + TokenLifetime)
  }

  /** Reads the user's id, login and role back from a token's claims, as a consumer would. */
  function ClaimedUser(claims: seq<Claim>): Option<(Ident, string, Role)>
  {
    if |claims| == 3 && claims[0].NameIdentifier? && claims[1].Name? && claims[2].RoleClaim?
      && ParseRole(claims[2].role).Some?
    then Some((claims[0].id, claims[1].name, ParseRole(claims[2].role).value))
    else None
  }

  /**
   * An issued token names exactly the user it was issued to, with its role, is issued
   * by the service's issuer and expires eight hours after issuance.
   */
  lemma {:induction false} TokenNamesUser(issuer: string, u: UserAccount, now: int)
    ensures ClaimedUser(IssueToken(issuer, u, now).claims) == Some((u.id, u.login, u.role))
    ensures IssueToken(issuer, u, now).issuer == issuer
    ensures IssueToken(issuer, u, now).expires - now == 28800
  {
    RoleNameRoundTrip(u.role, "");
  }

  /**
   * On a freshly seeded document exactly two credentials are accepted: "admin" with
   * password "admin" and "user" with password "user", the login in any letter case and
   * the password exactly.
   */
  lemma {:induction false} SeededCredentials(adminId: Ident, userId: Ident, login: string, password: string)
    ensures Authenticate(SeedUsers(adminId, userId), login, password).Some? <==>
      || (EqualsIgnoreCase("admin", login) && password == "admin")
      || (EqualsIgnoreCase("user", login) && password == "user")
  {
    SeedLoginsAnyCase(adminId, userId, login);
  }

  class AuthService {
    const users: UserStore
    const issuer: string

    /** `cfg["Jwt:Issuer"] ?? "OrdersApp"`: only a missing setting falls back to the default. */
    constructor (users: UserStore, configuredIssuer: Option<string>)
      ensures this.users == users
      ensures issuer == if configuredIssuer.Some? then configuredIssuer.value else DefaultIssuer
    {
      this.users := users;
      issuer := if configuredIssuer.Some? then configuredIssuer.value else DefaultIssuer;
    }

    /**
     * `LoginAsync` at instant `now`: seeds the user document first (with the fresh ids
     * `adminId`, `userId`), then looks the login up and compares the password.
     */
    method Login(login: string, password: string, now: int, adminId: Ident, userId: Ident)
      returns (token: Option<Token>)
      modifies users`cache, users.store`users, users.store`userWrites
      ensures users.store.users == Seeded(old(users.store.users), adminId, userId)
      ensures users.store.userWrites == old(users.store.userWrites) + (if |old(users.store.users)| == 0 then 1 else 0)
      ensures users.cache == Some(users.store.users)
      ensures token.Some? <==> Authenticate(users.store.users, login, password).Some?
      ensures token.Some? ==> token.value == IssueToken(issuer, Authenticate(users.store.users, login, password).value, now)
    {
      users.EnsureSeed(adminId, userId);
      var user := users.FindByLogin(login);
      if user.None? {
        return None;
      }
      if user.value.passwordHash != password {
        return None;
      }
      var u := user.value;
      var claims := [NameIdentifier(u.id), Name(u.login), RoleClaim(RoleName(u.role))];
      return Some(Token(issuer, claims, now + TokenLifetime));
    }
  }
}
