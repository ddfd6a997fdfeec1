/** The session store (src/context/AuthContext.tsx): a token and a user id,
    restored from local storage at start-up, written by `login` and erased
    by `logout`. Local storage is a string-to-string map. */
module AuthContext {
  import opened Wrappers
  import opened Js

  const TokenKey := "authToken"
  const UserIdKey := "userId"

  /** The token restored at start-up: `localStorage.getItem("authToken")`. */
  function StoredToken(storage: map<string, string>): (t: Option<string>)
    ensures t.Some? <==> TokenKey in storage
    ensures t.Some? ==> t.value == storage[TokenKey]
  {
    if TokenKey in storage then Some(storage[TokenKey]) else None
  }

  /** The user id restored at start-up: null when the stored string is
      absent or empty, otherwise its `parseInt(…, 10)`. */
  function StoredUserId(storage: map<string, string>): (u: Option<JsInt>)
    ensures u.None? <==> UserIdKey !in storage || storage[UserIdKey] == ""
    ensures u.Some? ==> u.value == ParseInt(storage[UserIdKey])
  {
    if UserIdKey in storage && storage[UserIdKey] != "" then Some(ParseInt(storage[UserIdKey])) else None
  }

  /** Storage after `login(t, n)`: both keys overwritten, nothing else touched. */
  function LoginWrite(storage: map<string, string>, t: string, n: int): (s: map<string, string>)
    ensures s.Keys == storage.Keys + {TokenKey, UserIdKey}
    ensures s[TokenKey] == t && s[UserIdKey] == NumberToString(n)
    ensures forall k :: k in storage && k != TokenKey && k != UserIdKey ==> s[k] == storage[k]
  {
    storage[TokenKey := t][UserIdKey := NumberToString(n)]
  }

  /** Storage after `logout()`: both keys removed, nothing else touched. */
  function LogoutErase(storage: map<string, string>): (s: map<string, string>)
    ensures s.Keys == storage.Keys - {TokenKey, UserIdKey}
    ensures forall k :: k in s ==> s[k] == storage[k]
  {
    storage - {TokenKey, UserIdKey}
  }

  /** Round trip: a restart after `login(t, n)` restores exactly `t` and `n`,
      whatever the storage held before. */
  lemma RestoreAfterLogin(storage: map<string, string>, t: string, n: int)
    ensures StoredToken(LoginWrite(storage, t, n)) == Some(t)
    ensures StoredUserId(LoginWrite(storage, t, n)) == Some(Num(n))
  {
    ParseIntOfNumberToString(n);
  }

  /** A restart after `logout()` restores the anonymous session. */
  lemma RestoreAfterLogout(storage: map<string, string>)
    ensures StoredToken(LogoutErase(storage)) == None
    ensures StoredUserId(LogoutErase(storage)) == None
  {
  }

  /** Logging out twice leaves the same storage as logging out once. */
  lemma LogoutIdempotent(storage: map<string, string>)
    ensures LogoutErase(LogoutErase(storage)) == LogoutErase(storage)
  {
  }

  /** The `AuthProvider` state: the storage it mirrors and the two React
      state cells. */
  class Session {
    var storage: map<string, string>
    var token: Option<string>
    var userId: Option<JsInt>

    /** Token and user id are both set or both null. A restored session may
        break this (storage edited by hand); `login` and `logout` restore it. */
    predicate Paired()
      reads this
    {
      token.Some? <==> userId.Some?
    }

    /** Mount of `AuthProvider`: the lazy initialisers read storage. */
    constructor Restore(stored: map<string, string>)
      ensures storage == stored
      ensures token == StoredToken(stored) && userId == StoredUserId(stored)
    {
      storage := stored;
      token := StoredToken(stored);
      userId := StoredUserId(stored);
    }

    /** `login(newToken, newUserId)`: overwrites any prior session. */
    method Login(newToken: string, newUserId: int)
      modifies this
      ensures storage == LoginWrite(old(storage), newToken, newUserId)
      ensures token == Some(newToken) && userId == Some(Num(newUserId))
      ensures Paired()
    {
      storage := storage[TokenKey := newToken];
      storage := storage[UserIdKey := NumberToString(newUserId)];
      token := Some(newToken);
      userId := Some(Num(newUserId));
    }

    /** `logout()`: both keys removed, both cells null. */
    method Logout()
      modifies this
      ensures storage == LogoutErase(old(storage))
      ensures token == None && userId == None
      ensures Paired()
    {
      storage := storage - {TokenKey};
      storage := storage - {UserIdKey};
      token := None;
      userId := None;
    }
  }

  /** A client of the store: log in, restart from what was written, and the
      same session is back; log out, restart, and it is anonymous. */
  method LoginRestartLogout(stored: map<string, string>, t: string, n: int)
  {
    var s := new Session.Restore(stored);
    s.Login(t, n);
    var restarted := new Session.Restore(s.storage);
    RestoreAfterLogin(stored, t, n);
    assert restarted.token == Some(t) && restarted.userId == Some(Num(n));
    restarted.Logout();
    restarted.Logout();
    var again := new Session.Restore(restarted.storage);
    assert again.token == None && again.userId == None;
  }
}
