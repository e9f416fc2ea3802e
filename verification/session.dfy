/**
  The authentication context: a session is the token held in the browser's store
  under "jwttoken", the `isAuthenticated` flag and the cached `user` record.
  Decoding a token and asking the API for a user are parameters: a `Decoder`
  reads a token's claims without checking its signature, and a `UserApi` answers
  `GET /api/users/{id}` sent with a bearer token.
 */
module Session {
  import opened Js

  /** The claims the client reads from a token: the subject id and the expiry in seconds. */
  datatype Claims = Claims(id: Value, exp: Option<real>)

  /** A user record as the API returns it (`token` is read by the profile page when present). */
  datatype User = User(
    id: Value, username: Value, email: Value, profileImage: Value,
    height: Value, weight: Value, gender: Value, age: Value, token: Value)

  datatype Fetch = Fetched(record: User) | FetchFailed

  /** `None` is a token that does not decode (jwtDecode throws). */
  type Decoder = string -> Option<Claims>

  /** The answer to a user request for an id, sent with a bearer token. */
  type UserApi = (Value, string) -> Fetch

  datatype Session = Session(stored: Option<string>, isAuthenticated: bool, user: Option<User>)

  const DefaultImage: string := "/default-profile.png"
  const NotAvailable: string := "N/A"

  /** The state before any effect has run, over whatever the store already holds. */
  function Initial(stored: Option<string>): Session {
    Session(stored, false, None)
  }

  predicate LoggedOut(s: Session) {
    s.stored == None && !s.isAuthenticated && s.user == None
  }

  /** `localStorage.getItem("jwttoken")` when it passes `if (token)`: present and not empty. */
  function StoredToken(s: Session): (t: Option<string>)
    ensures t.Some? <==> s.stored.Some? && s.stored.value != ""
    ensures t.Some? ==> t.value == s.stored.value
  {
    if s.stored.Some? && s.stored.value != "" then s.stored else None
  }

  /** The expiry test is strict, and a token without `exp` never expires
      (`undefined < now` is false). */
  function Expired(c: Claims, now: real): (b: bool)
    ensures c.exp.None? ==> !b
    ensures b ==> c.exp.value < now
    ensures c.exp.Some? && c.exp.value < now ==> b
  {
    c.exp.Some? && c.exp.value < now
  }

  /** `logout`: remove the stored token, forget the user, clear the flag. */
  function Logout(s: Session): (r: Session)
    ensures LoggedOut(r)
  {
    Session(None, false, None)
  }

  /** The record kept after a successful fetch: falsy image, height, weight, gender
      and age replaced by their defaults, everything else copied. */
  function WithDefaults(u: User): (r: User)
    ensures r.id == u.id && r.username == u.username && r.email == u.email && r.token == u.token
    ensures !Falsy(r.profileImage) && !Falsy(r.height) && !Falsy(r.weight)
    ensures !Falsy(r.gender) && !Falsy(r.age)
    ensures Falsy(u.profileImage) ==> r.profileImage == Str(DefaultImage)
    ensures Falsy(u.height) ==> r.height == Str(NotAvailable)
    ensures Falsy(u.weight) ==> r.weight == Str(NotAvailable)
    ensures Falsy(u.gender) ==> r.gender == Str(NotAvailable)
    ensures Falsy(u.age) ==> r.age == Str(NotAvailable)
    ensures !Falsy(u.profileImage) ==> r.profileImage == u.profileImage
    ensures !Falsy(u.height) ==> r.height == u.height
    ensures !Falsy(u.weight) ==> r.weight == u.weight
    ensures !Falsy(u.gender) ==> r.gender == u.gender
    ensures !Falsy(u.age) ==> r.age == u.age
  {
    u.(profileImage := Or(u.profileImage, Str(DefaultImage)),
       height := Or(u.height, Str(NotAvailable)),
       weight := Or(u.weight, Str(NotAvailable)),
       gender := Or(u.gender, Str(NotAvailable)),
       age := Or(u.age, Str(NotAvailable)))
  }

  /** `fetchUser(userId)`: it reads the token afresh; without one, or when the request
      fails, the user is cleared. The flag is never touched. */
  function FetchUser(s: Session, userId: Value, api: UserApi): (r: Session)
    ensures r.stored == s.stored && r.isAuthenticated == s.isAuthenticated
    ensures r.user.Some? <==> StoredToken(s).Some? && api(userId, StoredToken(s).value).Fetched?
    ensures r.user.Some? ==> r.user.value == WithDefaults(api(userId, StoredToken(s).value).record)
  {
    match StoredToken(s)
    case None => s.(user := None)
    case Some(token) =>
      match api(userId, token)
      case Fetched(u) => s.(user := Some(WithDefaults(u)))
      case FetchFailed => s.(user := None)
  }

  /** What the mount effect leaves behind: the new session, and the user id whose
      fetch it started (resolved later by `FetchUser`). */
  datatype Restore = Restore(session: Session, fetchFor: Option<Value>)

  /** The mount effect of the provider. */
  function Startup(s: Session, decode: Decoder, now: real): (r: Restore)
    ensures StoredToken(s).None? ==> r == Restore(s, None)
    ensures StoredToken(s).Some? && decode(StoredToken(s).value).None? ==>
              LoggedOut(r.session) && r.fetchFor == None
    ensures StoredToken(s).Some? && decode(StoredToken(s).value).Some? ==>
              var c := decode(StoredToken(s).value).value;
              if Expired(c, now) then LoggedOut(r.session) && r.fetchFor == None
              else r.session == s.(isAuthenticated := true) && r.fetchFor == Some(c.id)
  {
    match StoredToken(s)
    case None => Restore(s, None)
    case Some(token) =>
      match decode(token)
      case None => Restore(Logout(s), None)
      case Some(c) =>
        if Expired(c, now) then Restore(Logout(s), None)
        else Restore(s.(isAuthenticated := true), Some(c.id))
  }

  /** Application start followed by the completion of the fetch it started. */
  function Boot(stored: Option<string>, decode: Decoder, now: real, api: UserApi): (b: Session)
    ensures stored.None? || stored == Some("") ==> b == Initial(stored)
    ensures stored.Some? && stored.value != "" ==>
              var d := decode(stored.value);
              if d.None? || Expired(d.value, now) then LoggedOut(b)
              else
                && b.stored == stored && b.isAuthenticated
                && (b.user.Some? <==> api(d.value.id, stored.value).Fetched?)
                && (b.user.Some? ==> b.user.value == WithDefaults(api(d.value.id, stored.value).record))
  {
    var r := Startup(Initial(stored), decode, now);
    match r.fetchFor
    case None => r.session
    case Some(id) => FetchUser(r.session, id, api)
  }

  /** `login(token)`: store the token, then decode it; an undecodable or expired
      token logs out (twice for an expired one: once before throwing, once in the
      handler); otherwise await the user fetch, whose failure is swallowed, and set
      the flag. */
  function Login(s: Session, token: string, decode: Decoder, now: real, api: UserApi): (r: Session)
    ensures decode(token).None? ==> LoggedOut(r)
    ensures decode(token).Some? && Expired(decode(token).value, now) ==> LoggedOut(r)
    ensures decode(token).Some? && !Expired(decode(token).value, now) ==>
              && r.stored == Some(token)
              && r.isAuthenticated
              && (r.user.Some? <==> token != "" && api(decode(token).value.id, token).Fetched?)
  {
    var saved := s.(stored := Some(token));
    match decode(token)
    case None => Logout(saved)
    case Some(c) =>
      if Expired(c, now) then Logout(Logout(saved))
      else FetchUser(saved, c.id, api).(isAuthenticated := true)
  }

  // ---------------------------------------------------------------------------
  // Properties

  /** Logging out forgets everything and doing it twice is doing it once. */
  lemma LogoutIdempotent(s: Session)
    ensures Logout(Logout(s)) == Logout(s)
    ensures Logout(s) == Initial(None)
  {
  }

  /** With nothing (or an empty string) in the store, the mount effect changes nothing. */
  lemma StartupWithoutToken(stored: Option<string>, decode: Decoder, now: real, api: UserApi)
    requires stored.None? || stored == Some("")
    ensures Startup(Initial(stored), decode, now) == Restore(Initial(stored), None)
    ensures Boot(stored, decode, now, api) == Initial(stored)
  {
  }

  /** A token that does not decode or has expired is discarded at start-up. */
  lemma StartupDiscardsBadToken(token: string, decode: Decoder, now: real, api: UserApi)
    requires token != ""
    requires decode(token).None? || Expired(decode(token).value, now)
    ensures LoggedOut(Boot(Some(token), decode, now, api))
  {
  }

  /** A valid stored token authenticates at start-up with no user yet; the user
      arrives only when the fetch for the decoded id completes, and then only if it
      succeeds. */
  lemma StartupWithValidToken(token: string, decode: Decoder, now: real, api: UserApi)
    requires token != ""
    requires decode(token).Some? && !Expired(decode(token).value, now)
    ensures var r := Startup(Initial(Some(token)), decode, now);
            r.session == Session(Some(token), true, None) && r.fetchFor == Some(decode(token).value.id)
    ensures var b := Boot(Some(token), decode, now, api);
            && b.isAuthenticated && b.stored == Some(token)
            && (b.user.Some? <==> api(decode(token).value.id, token).Fetched?)
  {
  }

  /** Expiry is strict: a token whose `exp` equals the current time is still accepted,
      both at start-up and at login. */
  lemma ExpiryIsStrict(s: Session, token: string, id: Value, now: real, api: UserApi)
    requires token != ""
    ensures var decode: Decoder := t => Some(Claims(id, Some(now)));
            && Boot(Some(token), decode, now, api).isAuthenticated
            && Login(s, token, decode, now, api).isAuthenticated
  {
  }

  /** A failed fetch clears the user and never touches the flag or the store, even
      when no token is stored at all. */
  lemma FailedFetchKeepsFlag(s: Session, userId: Value, api: UserApi)
    requires StoredToken(s).None? || api(userId, StoredToken(s).value).FetchFailed?
    ensures FetchUser(s, userId, api) == s.(user := None)
  {
  }

  /** Login does not roll back when the user fetch fails: it ends authenticated with
      no user, the state the provider never repairs. */
  lemma LoginCanEndWithoutUser(s: Session, token: string, decode: Decoder, now: real, api: UserApi)
    requires decode(token).Some? && !Expired(decode(token).value, now)
    requires api(decode(token).value.id, token).FetchFailed?
    ensures var r := Login(s, token, decode, now, api);
            r.isAuthenticated && r.user == None && r.stored == Some(token)
  {
  }

  /** The user kept after a login is the fetched record with defaults filled in. */
  lemma LoginKeepsFetchedUser(s: Session, token: string, decode: Decoder, now: real, api: UserApi)
    requires token != ""
    requires decode(token).Some? && !Expired(decode(token).value, now)
    requires api(decode(token).value.id, token).Fetched?
    ensures Login(s, token, decode, now, api).user
            == Some(WithDefaults(api(decode(token).value.id, token).record))
  {
  }

  /** Filling in defaults twice changes nothing more. */
  lemma WithDefaultsIdempotent(u: User)
    ensures WithDefaults(WithDefaults(u)) == WithDefaults(u)
  {
  }

  /** The consistency every transition keeps: authentication implies a stored token,
      and a cached user implies a usable (non-empty) stored token. Note that
      "authenticated" does not imply "has a user". */
  predicate Coherent(s: Session) {
    && (s.isAuthenticated ==> s.stored.Some?)
    && (s.user.Some? ==> StoredToken(s).Some?)
  }

  lemma TransitionsKeepCoherent(s: Session, token: string, userId: Value, decode: Decoder, now: real, api: UserApi)
    requires Coherent(s)
    ensures Coherent(Logout(s))
    ensures Coherent(FetchUser(s, userId, api))
    ensures Coherent(Startup(s, decode, now).session)
    ensures Coherent(Login(s, token, decode, now, api))
  {
  }

  /** Every start-up ends coherent. */
  lemma BootIsCoherent(stored: Option<string>, decode: Decoder, now: real, api: UserApi)
    ensures Coherent(Boot(stored, decode, now, api))
  {
  }
}
