/**
 * The session gate of the `useAuth` hook. Two `localStorage` keys hold the session: a
 * status flag and the login time in epoch milliseconds as decimal text. On mount the hook
 * checks them against the current time: the session is live while less than two minutes
 * have passed since login, and a stored session found stale is erased. `login` and
 * `logout` write or erase both keys together. The clock is the parameter `now`.
 */
module Session {
  import opened Wrappers
  import opened NumberText
  import opened BrowserStorage

  const AuthKey: string := "cardapio_authenticated"
  const TimestampKey: string := "cardapio_auth_timestamp"

  /** Two minutes in milliseconds. */
  const SessionTtl: int := 2 * 60 * 1000

  /** What a check decides, and the store it leaves behind. */
  datatype CheckResult = CheckResult(authenticated: bool, store: map<string, string>)

  /** The store with both session keys erased. */
  function LoggedOut(store: map<string, string>): map<string, string>
  {
    store - {AuthKey, TimestampKey}
  }

  /** The store after a login at time `now`. */
  function LoggedIn(store: map<string, string>, now: int): map<string, string>
  {
    store[AuthKey := "true"][TimestampKey := ToText(now)]
  }

  /**
   * The mount-time check. A session is considered only when the status is exactly "true"
   * and the time stamp is present and non-empty (a JavaScript truthy string); a time stamp
   * that does not parse is NaN, every comparison with NaN is false, so it is treated as
   * expired.
   */
  function Check(store: map<string, string>, now: int): CheckResult
  {
    var status := Lookup(store, AuthKey);
    var stamp := Lookup(store, TimestampKey);
    if status == Some("true") && stamp.Some? && stamp.value != "" then
      match ParseInt(stamp.value)
      case Some(loginTime) =>
        if now - loginTime < SessionTtl then CheckResult(true, store)
        else CheckResult(false, LoggedOut(store))
      case None => CheckResult(false, LoggedOut(store))
    else
      CheckResult(false, store)
  }

  /** The status flag says "true" and a non-empty time stamp is stored. */
  ghost predicate SessionStored(store: map<string, string>)
  {
    AuthKey in store && store[AuthKey] == "true" && TimestampKey in store && store[TimestampKey] != ""
  }

  lemma KeysDiffer()
    ensures AuthKey != TimestampKey
  {
    assert |AuthKey| != |TimestampKey|;
  }

  /** The check succeeds exactly when a session is stored, its time stamp parses, and it is younger than the TTL. */
  lemma CheckAuthenticatedIff(store: map<string, string>, now: int)
    ensures Check(store, now).authenticated <==>
      SessionStored(store) && ParseInt(store[TimestampKey]).Some? &&
      now - ParseInt(store[TimestampKey]).value < SessionTtl
  {
  }

  /** A stored session that is stale or whose time stamp is not a number is erased, both keys at once. */
  lemma CheckClearsStaleSession(store: map<string, string>, now: int)
    requires SessionStored(store)
    requires ParseInt(store[TimestampKey]).None? || now - ParseInt(store[TimestampKey]).value >= SessionTtl
    ensures Check(store, now) == CheckResult(false, LoggedOut(store))
    ensures AuthKey !in Check(store, now).store && TimestampKey !in Check(store, now).store
  {
  }

  /** Without a stored session the check fails and does not touch the store. */
  lemma CheckIgnoresAbsentSession(store: map<string, string>, now: int)
    requires !SessionStored(store)
    ensures Check(store, now) == CheckResult(false, store)
  {
  }

  /**
   * The check only ever erases: it writes no key, in particular never a fresh time stamp,
   * it erases the two session keys together or not at all, and it leaves every other key alone.
   */
  lemma CheckOnlyErases(store: map<string, string>, now: int)
    ensures var after := Check(store, now).store;
      (after == store || after == LoggedOut(store)) &&
      (forall k :: k in after ==> k in store && after[k] == store[k]) &&
      (forall k :: k != AuthKey && k != TimestampKey ==> (k in after <==> k in store))
  {
  }

  /** The boundary is strict: a session exactly one TTL old is expired, one millisecond younger is live. */
  lemma CheckBoundaryStrict(store: map<string, string>, loginTime: int)
    requires AuthKey in store && store[AuthKey] == "true"
    requires TimestampKey in store && store[TimestampKey] == ToText(loginTime)
    ensures !Check(store, loginTime + SessionTtl).authenticated
    ensures Check(store, loginTime + SessionTtl - 1).authenticated
  {
    ParseIntToText(loginTime);
  }

  /** Checking twice at the same time gives the same answer and the same store as checking once. */
  lemma CheckIdempotent(store: map<string, string>, now: int)
    ensures Check(Check(store, now).store, now) == Check(store, now)
  {
  }

  /** No sliding expiration: once a check has failed, no check at any time succeeds without a new login. */
  lemma FailedCheckIsFinal(store: map<string, string>, now: int, later: int)
    requires !Check(store, now).authenticated
    ensures !Check(Check(store, now).store, later).authenticated
  {
  }

  /** A live session stays live when checked earlier: the verdict depends only on the original login time. */
  lemma CheckMonotoneInTime(store: map<string, string>, earlier: int, now: int)
    requires earlier <= now
    requires Check(store, now).authenticated
    ensures Check(store, earlier).authenticated
  {
  }

  /** After a login at `loginTime`, a check at `now` succeeds exactly while `now - loginTime < TTL`, and otherwise erases the session. */
  lemma {:induction false} LoginThenCheck(store: map<string, string>, loginTime: int, now: int)
    ensures Check(LoggedIn(store, loginTime), now) ==
      if now - loginTime < SessionTtl then CheckResult(true, LoggedIn(store, loginTime))
      else CheckResult(false, LoggedOut(store))
  {
    KeysDiffer();
    ParseIntToText(loginTime);
    var s := LoggedIn(store, loginTime);
    assert Lookup(s, AuthKey) == Some("true");
    assert Lookup(s, TimestampKey) == Some(ToText(loginTime));
    assert LoggedOut(s) == LoggedOut(store);
  }

  /** A login followed at once by a check is authenticated. */
  lemma LoginThenCheckAtOnce(store: map<string, string>, now: int)
    ensures Check(LoggedIn(store, now), now) == CheckResult(true, LoggedIn(store, now))
  {
    LoginThenCheck(store, now, now);
  }

  /** After a logout a check fails and leaves the store as the logout left it. */
  lemma LogoutThenCheck(store: map<string, string>, now: int)
    ensures Check(LoggedOut(store), now) == CheckResult(false, LoggedOut(store))
  {
  }

  /** Login at 0, then a check at 119999 ms succeeds and one at 120001 ms fails and leaves neither key behind. */
  lemma ScenarioTwoMinutes(store: map<string, string>)
    ensures Check(LoggedIn(store, 0), 119999).authenticated
    ensures var late := Check(LoggedIn(store, 0), 120001);
      !late.authenticated && AuthKey !in late.store && TimestampKey !in late.store
  {
    LoginThenCheck(store, 0, 119999);
    LoginThenCheck(store, 0, 120001);
  }

  /** The state of one `useAuth` hook, over the page's shared storage. */
  class AuthHook {
    var isAuthenticated: bool
    var isCheckingAuth: bool
    const storage: LocalStorage

    /** The initial React state: not authenticated, check pending. */
    constructor (storage: LocalStorage)
      ensures this.storage == storage
      ensures !isAuthenticated && isCheckingAuth
    {
      this.storage := storage;
      isAuthenticated := false;
      isCheckingAuth := true;
    }

    /**
     * The mount effect. It sets the flag to true on a live session and never sets it to
     * false; the pending flag ends false on every path.
     */
    method CheckOnMount(now: int)
      modifies this, storage
      ensures storage.items == Check(old(storage.items), now).store
      ensures isAuthenticated == (old(isAuthenticated) || Check(old(storage.items), now).authenticated)
      ensures !isCheckingAuth
    {
      var authStatus := storage.GetItem(AuthKey);
      var authTimestamp := storage.GetItem(TimestampKey);
      if authStatus == Some("true") && authTimestamp.Some? && authTimestamp.value != "" {
        var loginTime := ParseInt(authTimestamp.value);
        if loginTime.Some? && now - loginTime.value < SessionTtl {
          isAuthenticated := true;
        } else {
          storage.RemoveItem(AuthKey);
          storage.RemoveItem(TimestampKey);
          assert storage.items == LoggedOut(old(storage.items));
        }
      }
      isCheckingAuth := false;
    }

    method Login(now: int)
      modifies this, storage
      ensures storage.items == LoggedIn(old(storage.items), now)
      ensures isAuthenticated && isCheckingAuth == old(isCheckingAuth)
    {
      storage.SetItem(AuthKey, "true");
      storage.SetItem(TimestampKey, ToText(now));
      isAuthenticated := true;
    }

    method Logout()
      modifies this, storage
      ensures storage.items == LoggedOut(old(storage.items))
      ensures !isAuthenticated && isCheckingAuth == old(isCheckingAuth)
    {
      storage.RemoveItem(AuthKey);
      storage.RemoveItem(TimestampKey);
      isAuthenticated := false;
    }
  }
}
