/**
 * UserStore (backend/Orders.Api/UserStore.cs): the user document with its one-time
 * seeding, a process-wide cache that `EnsureSeed`, run by every login, overwrites with a
 * fresh read and that `Load` fills only while it is empty, and the case-insensitive
 * lookup by login.
 */
module Users {

  import opened Wrappers
  import opened Entities
  import opened Storage
  import opened Lookup

  /** ASCII lower-casing of one character; every other character is its own fold. */
  function LowerAscii(c: char): char
  {
    if 'A' <= c <= 'Z' then (c as int + 32) as char else c
  }

  /** `a.Equals(b, StringComparison.OrdinalIgnoreCase)`, restricted to ASCII case folding. */
  predicate EqualsIgnoreCase(a: string, b: string)
  {
    |a| == |b| && forall i :: 0 <= i < |a| ==> LowerAscii(a[i]) == LowerAscii(b[i])
  }

  /** A login folded to lower case: two logins are equal ignoring case exactly when their folds are equal. */
  function Folded(s: string): (r: string)
    ensures |r| == |s| && forall i :: 0 <= i < |s| ==> r[i] == LowerAscii(s[i])
  {
    seq(|s|, i requires 0 <= i < |s| => LowerAscii(s[i]))
  }

  function LoginKey(u: UserAccount): string { Folded(u.login) }

  lemma {:induction false} FoldedMatches(login: string)
    ensures forall u: UserAccount :: LoginKey(u) == Folded(login) <==> EqualsIgnoreCase(u.login, login)
  {
    forall u: UserAccount ensures LoginKey(u) == Folded(login) <==> EqualsIgnoreCase(u.login, login) {
      if EqualsIgnoreCase(u.login, login) {
        assert LoginKey(u) == Folded(login);
      }
      if LoginKey(u) == Folded(login) {
        assert forall i :: 0 <= i < |login| ==> LoginKey(u)[i] == Folded(login)[i];
      }
    }
  }

  /** The position of the first user whose login equals `login` ignoring case. */
  function LoginIndex(users: seq<UserAccount>, login: string): (r: Option<nat>)
    ensures r.Some? ==> r.value < |users| && EqualsIgnoreCase(users[r.value].login, login)
    ensures r.Some? ==> forall j :: 0 <= j < r.value ==> !EqualsIgnoreCase(users[j].login, login)
    ensures r.None? <==> forall j :: 0 <= j < |users| ==> !EqualsIgnoreCase(users[j].login, login)
  {
    FoldedMatches(login);
    FirstIndex(users, LoginKey, Folded(login))
  }

  /** `FirstOrDefault(u => u.Login.Equals(login, OrdinalIgnoreCase))`. */
  function FindLogin(users: seq<UserAccount>, login: string): Option<UserAccount>
  {
    match LoginIndex(users, login)
    case None => None
    case Some(k) => Some(users[k])
  }

  /** The two accounts written into an empty user document, in this order. */
  function SeedUsers(adminId: Ident, userId: Ident): seq<UserAccount>
  {
    [UserAccount(adminId, "admin", "admin", Admin), UserAccount(userId, "user", "user", User)]
  }

  /** The user document after `EnsureSeedAsync`: seeded when it was empty, else as it was. */
  function Seeded(users: seq<UserAccount>, adminId: Ident, userId: Ident): (r: seq<UserAccount>)
    ensures |r| > 0
    ensures |users| > 0 ==> r == users
    ensures |users| == 0 ==> r == SeedUsers(adminId, userId)
  {
    if |users| == 0 then SeedUsers(adminId, userId) else users
  }

  /** Seeding twice leaves the document as seeding once, whatever fresh ids the second call draws. */
  lemma {:induction false} SeededIdempotent(users: seq<UserAccount>, a: Ident, u: Ident, a': Ident, u': Ident)
    ensures Seeded(Seeded(users, a, u), a', u') == Seeded(users, a, u)
  {
  }

  /**
   * In a freshly seeded document, "admin" and "user" are found in any letter case, and
   * no other login is found.
   */
  lemma {:induction false} SeedLoginsAnyCase(adminId: Ident, userId: Ident, login: string)
    ensures EqualsIgnoreCase("admin", login) ==> FindLogin(SeedUsers(adminId, userId), login) == Some(SeedUsers(adminId, userId)[0])
    ensures EqualsIgnoreCase("user", login) ==> FindLogin(SeedUsers(adminId, userId), login) == Some(SeedUsers(adminId, userId)[1])
    ensures FindLogin(SeedUsers(adminId, userId), login).Some? ==>
      EqualsIgnoreCase("admin", login) || EqualsIgnoreCase("user", login)
  {
    var s := SeedUsers(adminId, userId);
    if EqualsIgnoreCase("user", login) {
      assert !EqualsIgnoreCase(s[0].login, login) by {
        assert LowerAscii(s[0].login[0]) != LowerAscii(login[0]);
      }
    }
  }

  class UserStore {
    const store: DataStore
    /** `_cache`: None until the first load. */
    var cache: Option<seq<UserAccount>>

    constructor (store: DataStore)
      ensures this.store == store && cache.None?
    {
      this.store := store;
      cache := None;
    }

    /**
     * `EnsureSeedAsync`: loads the document, seeds and saves it only when it is empty,
     * and replaces the cache with the result. `adminId`, `userId` are the fresh GUIDs of
     * the two seeded accounts.
     */
    method EnsureSeed(adminId: Ident, userId: Ident)
      modifies this`cache, store`users, store`userWrites
      ensures store.users == Seeded(old(store.users), adminId, userId)
      ensures store.userWrites == old(store.userWrites) + (if |old(store.users)| == 0 then 1 else 0)
      ensures cache == Some(store.users)
    {
      var list := store.users;
      if |list| == 0 {
        list := list + [UserAccount(adminId, "admin", "admin", Admin)];
        list := list + [UserAccount(userId, "user", "user", User)];
        store.SaveUsers(list);
      }
      cache := Some(list);
    }

    /**
     * `LoadAsync`: reads the document only while the cache is empty; afterwards it
     * answers from the cache, so later writes to the document are not seen until the
     * next `EnsureSeed`.
     */
    method Load() returns (list: seq<UserAccount>)
      modifies this`cache
      ensures old(cache).Some? ==> cache == old(cache) && list == old(cache).value
      ensures old(cache).None? ==> cache == Some(store.users) && list == store.users
    {
      if cache.None? {
        cache := Some(store.users);
      }
      list := cache.value;
    }

    /** `FindByLoginAsync`: the first cached user whose login equals `login` ignoring case. */
    method FindByLogin(login: string) returns (user: Option<UserAccount>)
      modifies this`cache
      ensures cache == if old(cache).Some? then old(cache) else Some(store.users)
      ensures user == FindLogin(cache.value, login)
    {
      var list := Load();
      user := FindLogin(list, login);
    }

    /** `GetAllAsync`: the cached list. */
    method GetAll() returns (list: seq<UserAccount>)
      modifies this`cache
      ensures cache == if old(cache).Some? then old(cache) else Some(store.users)
      ensures list == cache.value
    {
      list := Load();
    }
  }
}
