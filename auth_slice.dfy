/**
 * lib/slices/authSlice.ts: the in-memory session (`AuthState`) and its two reducers,
 * `setCredentials` and `logout`, which also mirror both tokens into `localStorage`.
 */
module AuthSlice {
  import opened Wrappers
  import opened BrowserStorage

  /** `AuthState`; `null` is `None`. */
  datatype AuthState = AuthState(
    accessToken: Option<string>,
    refreshToken: Option<string>,
    isAuthenticated: bool,
    username: Option<string>)

  /** `LoginResponse`, the payload of `setCredentials`. */
  datatype LoginResponse = LoginResponse(accessToken: string, refreshToken: string)

  /** The slice's `initialState`: nobody is logged in. */
  const InitialState: AuthState := AuthState(None, None, false, None)

  /**
   * `getUsernameFromToken(token)`: an empty token gives `null`; otherwise the result of
   * decoding the token's payload, which `decode` stands for (base64 and JSON parsing
   * are not modelled).
   */
  function UsernameFromToken(decode: string -> Option<string>, token: string): (u: Option<string>)
    ensures token == "" ==> u == None
    ensures token != "" ==> u == decode(token)
  {
    if token == "" then None else decode(token)
  }

  /** The two tokens and `isAuthenticated` are set together or cleared together. */
  predicate Consistent(s: AuthState)
  {
    && (s.isAuthenticated <==> s.accessToken.Some?)
    && (s.accessToken.Some? <==> s.refreshToken.Some?)
  }

  /** Storage holds exactly the in-memory tokens under their two keys. */
  predicate Mirrors(s: AuthState, items: map<string, string>)
  {
    Get(items, AccessTokenKey) == s.accessToken && Get(items, RefreshTokenKey) == s.refreshToken
  }

  /** The state `setCredentials(p)` leaves, whatever the state before. */
  function AfterSetCredentials(p: LoginResponse, decode: string -> Option<string>): (r: AuthState)
    ensures r.accessToken == Some(p.accessToken) && r.refreshToken == Some(p.refreshToken)
    ensures r.isAuthenticated
    ensures r.username == UsernameFromToken(decode, p.accessToken)
    ensures Consistent(r)
  {
    AuthState(Some(p.accessToken), Some(p.refreshToken), true, UsernameFromToken(decode, p.accessToken))
  }

  /** The storage `setCredentials(p)` leaves: both tokens written, every other key kept. */
  function StoredCredentials(items: map<string, string>, p: LoginResponse): (r: map<string, string>)
    ensures Get(r, AccessTokenKey) == Some(p.accessToken)
    ensures Get(r, RefreshTokenKey) == Some(p.refreshToken)
    ensures forall k :: k != AccessTokenKey && k != RefreshTokenKey ==> Get(r, k) == Get(items, k)
  {
    items[AccessTokenKey := p.accessToken][RefreshTokenKey := p.refreshToken]
  }

  /** The state `logout()` leaves: all four fields back to the initial state. */
  function AfterLogout(): (r: AuthState)
    ensures r.accessToken == None && r.refreshToken == None && r.username == None
    ensures !r.isAuthenticated
  {
    InitialState
  }

  /** The storage `logout()` leaves: both tokens removed, every other key kept. */
  function ClearedCredentials(items: map<string, string>): (r: map<string, string>)
    ensures Get(r, AccessTokenKey) == None && Get(r, RefreshTokenKey) == None
    ensures forall k :: k != AccessTokenKey && k != RefreshTokenKey ==> Get(r, k) == Get(items, k)
  {
    items - {AccessTokenKey, RefreshTokenKey}
  }

  lemma InitialStateConsistent()
    ensures Consistent(InitialState)
    ensures forall items :: AccessTokenKey !in items && RefreshTokenKey !in items ==> Mirrors(InitialState, items)
  {
  }

  /** The slice's state and the storage it writes to. */
  datatype Session = Session(state: AuthState, storage: map<string, string>)

  /** A dispatched action of the slice. */
  datatype Action = SetCredentials(payload: LoginResponse) | Logout

  /** Either reducer, from any session, leaves a consistent state that storage mirrors. */
  function Reduce(s: Session, a: Action, decode: string -> Option<string>): (r: Session)
    ensures Consistent(r.state)
    ensures Mirrors(r.state, r.storage)
    ensures forall k :: k != AccessTokenKey && k != RefreshTokenKey ==> Get(r.storage, k) == Get(s.storage, k)
  {
    match a
    case SetCredentials(p) => Session(AfterSetCredentials(p, decode), StoredCredentials(s.storage, p))
    case Logout => Session(AfterLogout(), ClearedCredentials(s.storage))
  }

  function Run(s: Session, actions: seq<Action>, decode: string -> Option<string>): (r: Session)
    decreases |actions|
  {
    if actions == [] then s else Run(Reduce(s, actions[0], decode), actions[1..], decode)
  }

  /** `logout` is idempotent, on the state and on storage. */
  lemma LogoutIdempotent(s: Session, decode: string -> Option<string>)
    ensures Reduce(Reduce(s, Logout, decode), Logout, decode) == Reduce(s, Logout, decode)
  {
  }

  /** From a consistent state, every sequence of actions keeps the state consistent. */
  lemma {:induction false} RunStaysConsistent(s: Session, actions: seq<Action>, decode: string -> Option<string>)
    requires Consistent(s.state)
    ensures Consistent(Run(s, actions, decode).state)
    decreases |actions|
  {
    if actions != [] {
      RunStaysConsistent(Reduce(s, actions[0], decode), actions[1..], decode);
    }
  }

  /**
   * After any non-empty sequence of actions, storage holds exactly the in-memory
   * tokens, even when it held stale tokens before the first action.
   */
  lemma {:induction false} RunMirrors(s: Session, actions: seq<Action>, decode: string -> Option<string>)
    requires |actions| > 0
    ensures Mirrors(Run(s, actions, decode).state, Run(s, actions, decode).storage)
    decreases |actions|
  {
    var s' := Reduce(s, actions[0], decode);
    if |actions| == 1 {
      assert Run(s', actions[1..], decode) == s';
    } else {
      RunMirrors(s', actions[1..], decode);
    }
  }

  /** The slice never touches a storage key other than the two token keys. */
  lemma {:induction false} RunKeepsOtherKeys(s: Session, actions: seq<Action>, decode: string -> Option<string>, k: string)
    requires k != AccessTokenKey && k != RefreshTokenKey
    ensures Get(Run(s, actions, decode).storage, k) == Get(s.storage, k)
    decreases |actions|
  {
    if actions != [] {
      RunKeepsOtherKeys(Reduce(s, actions[0], decode), actions[1..], decode, k);
    }
  }

  /** The slice's state, updated in place by its reducers. */
  class Auth {
    var accessToken: Option<string>
    var refreshToken: Option<string>
    var isAuthenticated: bool
    var username: Option<string>
    const storage: LocalStorage
    const decode: string -> Option<string>

    function State(): (s: AuthState)
      reads this
    {
      AuthState(accessToken, refreshToken, isAuthenticated, username)
    }

    constructor(storage: LocalStorage, decode: string -> Option<string>)
      ensures State() == InitialState
      ensures this.storage == storage && this.decode == decode
    {
      accessToken := None;
      refreshToken := None;
      isAuthenticated := false;
      username := None;
      this.storage := storage;
      this.decode := decode;
    }

    method SetCredentials(payload: LoginResponse)
      modifies this, storage
      ensures State() == AfterSetCredentials(payload, decode)
      ensures storage.items == StoredCredentials(old(storage.items), payload)
    {
      accessToken := Some(payload.accessToken);
      refreshToken := Some(payload.refreshToken);
      isAuthenticated := true;
      username := UsernameFromToken(decode, payload.accessToken);
      storage.SetItem(AccessTokenKey, payload.accessToken);
      storage.SetItem(RefreshTokenKey, payload.refreshToken);
    }

    method Logout()
      modifies this, storage
      ensures State() == AfterLogout()
      ensures storage.items == ClearedCredentials(old(storage.items))
    {
      accessToken := None;
      refreshToken := None;
      isAuthenticated := false;
      username := None;
      storage.RemoveItem(AccessTokenKey);
      storage.RemoveItem(RefreshTokenKey);
    }
  }
}
