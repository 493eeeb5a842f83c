/**
 * The authentication service as an object whose fields its methods update
 * in place. Each method's new state is the corresponding transition of
 * `AuthSession` applied to the old state, so everything proved there
 * (the effects of each call and the invariants kept over any run) holds
 * of the object.
 */
module Auth {
  import opened Wrappers
  import opened AuthSession

  class AuthService {
    /** Latest value of the token data stream. */
    var tokenData: TokenData
    /** Latest value of the user profile stream. */
    var userProfile: Option<Claims>
    /** The browser's persistent key/value store. */
    var store: map<string, string>
    /** The URL hash (fragment) of the current location. */
    var hash: string
    /** Every navigation target handed to the router, oldest first. */
    var navigations: seq<string>
    /** Every provider error reported on the console, oldest first. */
    var errorLog: seq<ProviderError>

    /** The fields, as a session value. */
    function State(): Session
      reads this
    {
      Session(tokenData, userProfile, store, hash, navigations, errorLog)
    }

    ghost predicate Valid()
      reads this
    {
      AuthSession.Valid(State())
    }

    /** The service over the store and hash the browser holds when the app starts. */
    constructor (initialStore: map<string, string>, initialHash: string)
      ensures State() == Initial(initialStore, initialHash)
      ensures FlagWellFormed(initialStore) ==> Valid()
    {
      tokenData := TokenData(None, None);
      userProfile := None;
      store := initialStore;
      hash := initialHash;
      navigations := [];
      errorLog := [];
    }

    /** The `authenticated` getter: read the flag back from the store. */
    predicate Authenticated()
      reads this
      ensures Authenticated() <==> LoggedInKey in store && store[LoggedInKey] == "true"
    {
      AuthSession.Authenticated(State())
    }

    /** `_streamSession`: emit the new token data and profile, then persist the flag. */
    method StreamSession(result: AuthResult, now: nat)
      requires Truthy(result.accessToken)
      modifies this
      ensures State() == AuthSession.StreamSession(old(State()), result, now)
      ensures old(Valid()) ==> Valid()
    {
      tokenData := TokenData(result.accessToken, Some(result.expiresIn * 1000 + now));
      userProfile := result.idTokenPayload;
      store := store[LoggedInKey := "true"];
    }

    /** `handleLoginCallback`; `reply` is what the provider's `parseHash` answers. */
    method HandleLoginCallback(reply: Reply, now: nat)
      modifies this
      ensures State() == AuthSession.HandleLoginCallback(old(State()), reply, now)
      ensures old(Valid()) ==> Valid()
    {
      if CallbackGuard(State()) {
        match Observe(reply)
        case Next(result) =>
          StreamSession(result, now);
          hash := "";
          navigations := navigations + [OnAuthSuccessUrl];
        case Error(err) =>
          errorLog := errorLog + [err];
        case CompleteOnly =>
      }
    }

    /** `renewAuth`; `reply` is what the provider's `checkSession` answers. */
    method RenewAuth(reply: Reply, now: nat)
      modifies this
      ensures State() == AuthSession.RenewAuth(old(State()), reply, now)
      ensures old(Valid()) ==> Valid()
    {
      if Authenticated() {
        match Observe(reply)
        case Next(result) =>
          StreamSession(result, now);
        case Error(_) =>
          store := store - {LoggedInKey};
          navigations := navigations + [OnAuthFailureUrl];
        case CompleteOnly =>
      }
    }

    /** `logout`: persist `false` under the flag key before leaving the app. */
    method Logout()
      modifies this
      ensures State() == AuthSession.Logout(old(State()))
      ensures !Authenticated()
      ensures old(Valid()) ==> Valid()
    {
      store := store[LoggedInKey := "false"];
    }
  }
}
