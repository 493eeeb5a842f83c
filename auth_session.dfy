/**
 * The session state of the authentication service, as a value, and the
 * transitions the service's operations make on it.
 *
 * The identity provider's answers, the clock, the browser's key/value store,
 * the URL hash and the router are all made explicit: a provider answer is a
 * `Reply` parameter, `Date.now()` is a `now` parameter, the store is a map,
 * the hash a string and every navigation is appended to a log.
 */
module AuthSession {
  import opened Wrappers

  /** Provider-supplied identity claims; the service never looks inside them. */
  type Claims = map<string, string>

  /** Store key of the persisted "is logged in" flag. */
  const LoggedInKey: string := "isLoggedIn"
  /** Where the service navigates after a successful login. */
  const OnAuthSuccessUrl: string := "/"
  /** Where the service navigates after a failed silent renewal. */
  const OnAuthFailureUrl: string := "/"

  /** In-memory token data; `expiresAt` is in epoch milliseconds. */
  datatype TokenData = TokenData(accessToken: Option<string>, expiresAt: Option<int>)

  /** What the provider returns on success; `expiresIn` is in seconds. */
  datatype AuthResult = AuthResult(accessToken: Option<string>, expiresIn: int, idTokenPayload: Option<Claims>)

  /** A provider error, kept opaque. */
  datatype ProviderError = ProviderError(description: Option<string>)

  /** The provider's callback: an error, or a (possibly missing) result. */
  datatype Reply = Failed(err: ProviderError) | Answered(result: Option<AuthResult>)

  /** What the wrapping observable delivers to its subscriber. */
  datatype Notification = Next(result: AuthResult) | Error(err: ProviderError) | CompleteOnly

  /** Everything the service's operations read or change. */
  datatype Session = Session(
    tokenData: TokenData,
    userProfile: Option<Claims>,
    store: map<string, string>,
    hash: string,
    navigations: seq<string>,
    errorLog: seq<ProviderError>)

  /** Token data has both fields absent or both present. */
  predicate TokenConsistent(t: TokenData) {
    t.accessToken.Some? <==> t.expiresAt.Some?
  }

  /** The flag key holds nothing, "true" or "false". */
  predicate FlagWellFormed(store: map<string, string>) {
    LoggedInKey in store ==> store[LoggedInKey] == "true" || store[LoggedInKey] == "false"
  }

  predicate Valid(s: Session) {
    TokenConsistent(s.tokenData) && FlagWellFormed(s.store)
  }

  /** The `authenticated` getter: the persisted flag parses as `true`. */
  predicate Authenticated(s: Session) {
    LoggedInKey in s.store && s.store[LoggedInKey] == "true"
  }

  /** A session created in this page that says it is authenticated holds a usable token. */
  predicate SignedIn(s: Session) {
    Authenticated(s) ==> Truthy(s.tokenData.accessToken)
  }

  /** Guard of the login callback: there is a hash and the user is not yet authenticated. */
  predicate CallbackGuard(s: Session) {
    s.hash != "" && !Authenticated(s)
  }

  /** The service as constructed, over the store and hash the browser already holds. */
  function Initial(store: map<string, string>, hash: string): (s: Session)
    ensures s.tokenData.accessToken == None && s.tokenData.expiresAt == None
    ensures s.userProfile == None
    ensures s.store == store && s.hash == hash && s.navigations == [] && s.errorLog == []
    ensures LoggedInKey !in store ==> !Authenticated(s) && CallbackGuard(s) == (hash != "")
    ensures FlagWellFormed(store) ==> Valid(s)
    ensures (LoggedInKey in store ==> store[LoggedInKey] != "true") ==> SignedIn(s)
  {
    Session(TokenData(None, None), None, store, hash, [], [])
  }

  /**
   * The filtering done by the observables wrapping the provider's
   * `parseHash` and `checkSession`: an error is passed on, a result is
   * emitted only when it carries a truthy access token, otherwise the
   * stream just completes.
   */
  function Observe(reply: Reply): (n: Notification)
    ensures n.Error? <==> reply.Failed?
    ensures n.Error? ==> n.err == reply.err
    ensures n.Next? <==> reply.Answered? && reply.result.Some? && Truthy(reply.result.value.accessToken)
    ensures n.Next? ==> reply.result == Some(n.result)
  {
    match reply
    case Failed(e) => Error(e)
    case Answered(r) =>
      if r.Some? && Truthy(r.value.accessToken) then Next(r.value) else CompleteOnly
  }

  /** The token, profile and flag update that a successful login or renewal makes. */
  predicate Streamed(s: Session, s': Session, r: AuthResult, now: nat) {
    && s'.tokenData == TokenData(r.accessToken, Some(r.expiresIn * 1000 + now))
    && s'.userProfile == r.idTokenPayload
    && s'.store == s.store[LoggedInKey := "true"]
  }

  /** `_streamSession`: publish the new token data and profile and persist the flag. */
  function StreamSession(s: Session, r: AuthResult, now: nat): (s': Session)
    ensures Streamed(s, s', r, now)
    ensures Authenticated(s')
    ensures s'.hash == s.hash && s'.navigations == s.navigations && s'.errorLog == s.errorLog
    ensures forall k :: k != LoggedInKey ==> (k in s'.store <==> k in s.store)
    ensures forall k :: k != LoggedInKey && k in s.store ==> s'.store[k] == s.store[k]
    ensures r.accessToken.Some? ==> TokenConsistent(s'.tokenData)
    ensures Truthy(r.accessToken) ==> SignedIn(s')
    ensures FlagWellFormed(s.store) ==> FlagWellFormed(s'.store)
  {
    s.(tokenData := TokenData(r.accessToken, Some(r.expiresIn * 1000 + now)),
       userProfile := r.idTokenPayload,
       store := s.store[LoggedInKey := "true"])
  }

  /** `handleLoginCallback`, with the provider's `parseHash` answer given as `reply`. */
  function HandleLoginCallback(s: Session, reply: Reply, now: nat): (s': Session)
    // nothing happens without a hash or when already authenticated
    ensures !CallbackGuard(s) ==> s' == s
    // a parse error only adds to the error log
    ensures reply.Failed? ==> s'.(errorLog := s.errorLog) == s
    ensures reply.Failed? && CallbackGuard(s) ==> s'.errorLog == s.errorLog + [reply.err]
    // a result without an access token is not emitted and changes nothing
    ensures Observe(reply).CompleteOnly? ==> s' == s
    // a result with an access token signs in, clears the hash and navigates
    ensures CallbackGuard(s) && Observe(reply).Next? ==>
      && Streamed(s, s', Observe(reply).result, now)
      && s'.tokenData.accessToken == reply.result.value.accessToken
      && Authenticated(s')
      && s'.hash == ""
      && s'.navigations == s.navigations + [OnAuthSuccessUrl]
      && s'.errorLog == s.errorLog
    ensures TokenConsistent(s.tokenData) ==> TokenConsistent(s'.tokenData)
    ensures Valid(s) ==> Valid(s')
    ensures SignedIn(s) ==> SignedIn(s')
  {
    if CallbackGuard(s) then
      match Observe(reply)
      case Next(r) =>
        var t := StreamSession(s, r, now);
        t.(hash := "", navigations := t.navigations + [OnAuthSuccessUrl])
      case Error(e) => s.(errorLog := s.errorLog + [e])
      case CompleteOnly => s
    else
      s
  }

  /** `renewAuth`, with the provider's `checkSession` answer given as `reply`. */
  function RenewAuth(s: Session, reply: Reply, now: nat): (s': Session)
    // nothing happens when not authenticated
    ensures !Authenticated(s) ==> s' == s
    // a result without an access token is not emitted and changes nothing
    ensures Observe(reply).CompleteOnly? ==> s' == s
    // success: the same update as a login, without touching the hash or navigating
    ensures Authenticated(s) && Observe(reply).Next? ==>
      && Streamed(s, s', Observe(reply).result, now)
      && Authenticated(s')
      && s'.hash == s.hash && s'.navigations == s.navigations && s'.errorLog == s.errorLog
    // failure: the flag is removed and the service navigates away; tokens and profile stay
    ensures Authenticated(s) && reply.Failed? ==>
      && s'.store == s.store - {LoggedInKey}
      && !Authenticated(s')
      && s'.tokenData == s.tokenData && s'.userProfile == s.userProfile
      && s'.hash == s.hash && s'.errorLog == s.errorLog
      && s'.navigations == s.navigations + [OnAuthFailureUrl]
    ensures TokenConsistent(s.tokenData) ==> TokenConsistent(s'.tokenData)
    ensures Valid(s) ==> Valid(s')
    ensures SignedIn(s) ==> SignedIn(s')
  {
    if Authenticated(s) then
      match Observe(reply)
      case Next(r) => StreamSession(s, r, now)
      case Error(_) =>
        s.(store := s.store - {LoggedInKey}, navigations := s.navigations + [OnAuthFailureUrl])
      case CompleteOnly => s
    else
      s
  }

  /** `logout`: persist `false` under the flag key; nothing else in the app changes. */
  function Logout(s: Session): (s': Session)
    ensures !Authenticated(s')
    ensures s'.store == s.store[LoggedInKey := "false"]
    ensures s'.(store := s.store) == s
    ensures Valid(s) ==> Valid(s')
    ensures SignedIn(s')
  {
    s.(store := s.store[LoggedInKey := "false"])
  }

  /** One call into the service. */
  datatype Event =
    | LoginCallback(loginReply: Reply, loginNow: nat)
    | Renewal(renewReply: Reply, renewNow: nat)
    | LogoutRequest

  function Step(s: Session, e: Event): (s': Session)
    ensures TokenConsistent(s.tokenData) ==> TokenConsistent(s'.tokenData)
    ensures Valid(s) ==> Valid(s')
    ensures SignedIn(s) ==> SignedIn(s')
    ensures s.hash == "" ==> s'.hash == ""
    ensures Truthy(s.tokenData.accessToken) ==> Truthy(s'.tokenData.accessToken)
  {
    match e
    case LoginCallback(reply, now) => HandleLoginCallback(s, reply, now)
    case Renewal(reply, now) => RenewAuth(s, reply, now)
    case LogoutRequest => Logout(s)
  }

  /** The session after a sequence of calls, in order. */
  function Run(s: Session, events: seq<Event>): (s': Session)
    decreases |events|
  {
    if events == [] then s else Run(Step(s, events[0]), events[1..])
  }

  /** Token data stays both-absent or both-present, and the flag well formed, over any run. */
  lemma {:induction false} RunPreservesValid(s: Session, events: seq<Event>)
    requires Valid(s)
    ensures Valid(Run(s, events))
    decreases |events|
  {
    if events != [] {
      RunPreservesValid(Step(s, events[0]), events[1..]);
    }
  }

  /** Whenever the flag says authenticated, a usable access token is held, over any run. */
  lemma {:induction false} RunPreservesSignedIn(s: Session, events: seq<Event>)
    requires SignedIn(s)
    ensures SignedIn(Run(s, events))
    decreases |events|
  {
    if events != [] {
      RunPreservesSignedIn(Step(s, events[0]), events[1..]);
    }
  }

  /** A service started without a stored `true` flag is signed in only with a token. */
  lemma FreshServiceSignedIn(store: map<string, string>, hash: string, events: seq<Event>)
    requires LoggedInKey in store ==> store[LoggedInKey] != "true"
    ensures var s := Run(Initial(store, hash), events);
      Authenticated(s) ==> Truthy(s.tokenData.accessToken) && s.tokenData.expiresAt.Some?
  {
    RunPreservesSignedIn(Initial(store, hash), events);
    RunKeepsTokenConsistent(Initial(store, hash), events);
  }

  /** Token consistency alone is kept over any run, whatever the store holds. */
  lemma {:induction false} RunKeepsTokenConsistent(s: Session, events: seq<Event>)
    requires TokenConsistent(s.tokenData)
    ensures TokenConsistent(Run(s, events).tokenData)
    decreases |events|
  {
    if events != [] {
      RunKeepsTokenConsistent(Step(s, events[0]), events[1..]);
    }
  }

  /** Once the hash is cleared no operation sets it again. */
  lemma {:induction false} RunKeepsHashCleared(s: Session, events: seq<Event>)
    requires s.hash == ""
    ensures Run(s, events).hash == ""
    decreases |events|
  {
    if events != [] {
      RunKeepsHashCleared(Step(s, events[0]), events[1..]);
    }
  }

  /** No operation clears a usable access token: renewal failure and logout leave it in place. */
  lemma {:induction false} RunNeverClearsToken(s: Session, events: seq<Event>)
    requires Truthy(s.tokenData.accessToken)
    ensures Truthy(Run(s, events).tokenData.accessToken)
    decreases |events|
  {
    if events != [] {
      RunNeverClearsToken(Step(s, events[0]), events[1..]);
    }
  }
}
