/**
 * The client session controller (`AuthProvider` in src/contexts/AuthContext.tsx):
 * the `token`, `user` and `loading` state, the global `Authorization` default
 * header of the HTTP client, the persisted `'userToken'` secure-store entry,
 * the bootstrap `loadData`, `login`, `register`, `logout`, and the
 * navigation gate.
 *
 * Network replies (`/me`, `/sessions`, `/users`) are parameters: a success
 * carrying `response.data`, or a failure (any rejected request). The header
 * table and the secure store are maps the controller updates; every
 * secure-store call is taken to succeed.
 */
module AuthSession {
  import opened Wrappers

  /** The `User` interface of the client. */
  datatype Account = Account(id: string, fullName: string, email: string, username: string, avatarUrl: Option<string>)

  /** The outcome of one HTTP request. */
  datatype Reply<T> = Success(data: T) | Failure

  /** The `token` field of a JSON reply: missing (`undefined`), `null`, or a string. */
  datatype TokenField = Absent | Null | Text(text: string)

  /**
   * `response.data` of `/sessions` or `/users`, destructured. A `user` that is
   * missing or `null` is `None`: both leave the state's user falsy.
   */
  datatype SessionData = SessionData(token: TokenField, user: Option<Account>)

  /**
   * Everything the controller reads or writes: its three state variables,
   * the client's default headers, and the secure store.
   */
  datatype ClientState = ClientState(
    token: Option<string>,
    user: Option<Account>,
    loading: bool,
    headers: map<string, string>,
    store: map<string, string>)

  /** The result of `login` or `register`: the new state, and whether the returned promise resolved. */
  datatype Step = Step(state: ClientState, resolved: bool)

  const AuthHeader: string := "Authorization"
  const TokenKey: string := "userToken"
  const AuthGroup: string := "(auth)"

  /** What the template literal `${newToken}` prints for each kind of token field. */
  function Printed(t: TokenField): string {
    match t
    case Absent => "undefined"
    case Null => "null"
    case Text(text) => text
  }

  /** The state's token after `setToken(newToken)`; `undefined` and `null` are both no token. */
  function AsStateToken(t: TokenField): Option<string> {
    if t.Text? then Some(t.text) else None
  }

  function Bearer(t: string): string {
    "Bearer " + t
  }


  /** `SecureStore.getItemAsync('userToken')`: the entry, or `null` when there is none. */
  function StoredToken(s: ClientState): Option<string> {
    if TokenKey in s.store then Some(s.store[TokenKey]) else None
  }

  /** The state on first render: no token, no user, loading. */
  function Initial(headers: map<string, string>, store: map<string, string>): ClientState {
    ClientState(None, None, true, headers, store)
  }

  // ---------------------------------------------------------------------
  // Transitions
  // ---------------------------------------------------------------------

  /**
   * `logout`: token and user cleared, the `Authorization` header and the
   * `'userToken'` entry gone; every other header and entry, and `loading`, kept.
   */
  function AfterLogout(s: ClientState): (r: ClientState)
    ensures r.token == None && r.user == None && r.loading == s.loading
    ensures AuthHeader !in r.headers && TokenKey !in r.store
    ensures forall h :: h in s.headers && h != AuthHeader ==> h in r.headers && r.headers[h] == s.headers[h]
    ensures forall h :: h in r.headers ==> h in s.headers
    ensures forall k :: k in s.store && k != TokenKey ==> k in r.store && r.store[k] == s.store[k]
    ensures forall k :: k in r.store ==> k in s.store
  {
    s.(token := None, user := None, headers := s.headers - {AuthHeader}, store := s.store - {TokenKey})
  }

  /**
   * `loadData`: whatever the stored token and the `/me` reply, loading ends.
   * With no truthy stored token nothing else changes. With one, a successful
   * `/me` confirms it as the session; a failed one leaves the logged-out state.
   */
  function AfterBootstrap(s: ClientState, me: Reply<Account>): (r: ClientState)
    ensures !r.loading
    ensures !Truthy(StoredToken(s)) ==> r == s.(loading := false)
    ensures Truthy(StoredToken(s)) && me.Success? ==>
      r.token == StoredToken(s) && r.user == Some(me.data) &&
      r.headers == s.headers[AuthHeader := Bearer(StoredToken(s).value)] && r.store == s.store
    ensures Truthy(StoredToken(s)) && me.Failure? ==> r == AfterLogout(s).(loading := false)
  {
    var stored := StoredToken(s);
    if !Truthy(stored) then s.(loading := false)
    else
      var attached := s.(headers := s.headers[AuthHeader := Bearer(stored.value)]);
      match me
      case Success(account) => attached.(user := Some(account), token := stored, loading := false)
      case Failure =>
        assert attached.headers - {AuthHeader} == s.headers - {AuthHeader};
        AfterLogout(attached).(loading := false)
  }

  /**
   * `login` and `register`: a failed request changes nothing and rejects.
   * A reply whose token is a string makes it the session: state, header and
   * stored entry all hold it, and the promise resolves. A reply whose token
   * is missing (as from `/users`) or `null` leaves no token in state, sets the
   * header to "Bearer undefined" or "Bearer null", and the secure-store write
   * rejects the non-string value, leaving the entry as it was.
   */
  function AfterSignIn(s: ClientState, reply: Reply<SessionData>): (st: Step)
    ensures st.state.loading == s.loading
    ensures reply.Failure? ==> st == Step(s, false)
    ensures reply.Success? ==> st.state.user == reply.data.user
    ensures reply.Success? ==> (st.state.token.Some? <==> reply.data.token.Text?)
    ensures reply.Success? && reply.data.token.Text? ==>
      var t := reply.data.token.text;
      st.resolved && st.state.token == Some(t) &&
      st.state.headers == s.headers[AuthHeader := Bearer(t)] &&
      st.state.store == s.store[TokenKey := t]
    ensures reply.Success? && reply.data.token == Absent ==>
      !st.resolved && st.state.headers == s.headers[AuthHeader := "Bearer undefined"] && st.state.store == s.store
    ensures reply.Success? && reply.data.token == Null ==>
      !st.resolved && st.state.headers == s.headers[AuthHeader := "Bearer null"] && st.state.store == s.store
  {
    match reply
    case Failure => Step(s, false)
    case Success(data) =>
      var updated := s.(token := AsStateToken(data.token), user := data.user,
                        headers := s.headers[AuthHeader := Bearer(Printed(data.token))]);
      if data.token.Text? then Step(updated.(store := s.store[TokenKey := data.token.text]), true)
      else
        assert Bearer("undefined") == "Bearer undefined" && Bearer("null") == "Bearer null";
        Step(updated, false)
  }

  // ---------------------------------------------------------------------
  // The navigation gate
  // ---------------------------------------------------------------------

  /** The two targets of `router.replace`. */
  datatype Route = Tabs | Login

  function Path(r: Route): string {
    match r
    case Tabs => "/(tabs)"
    case Login => "/(auth)/login"
  }

  /** The route segments the router reports once it shows `r`. */
  function SegmentsOf(r: Route): seq<string> {
    match r
    case Tabs => ["(tabs)"]
    case Login => [AuthGroup, "login"]
  }

  /** The path a list of route segments spells: each segment after a slash. */
  function JoinSegments(segments: seq<string>): string
    decreases |segments|
  {
    if |segments| == 0 then "" else "/" + segments[0] + JoinSegments(segments[1..])
  }

  /** The segments assumed for each target are exactly the pieces of the path passed to `router.replace`. */
  lemma SegmentsSpellPath(r: Route)
    ensures JoinSegments(SegmentsOf(r)) == Path(r)
  {
    match r
    case Tabs =>
      assert JoinSegments(["(tabs)"]) == "/" + "(tabs)" + JoinSegments([]);
    case Login =>
      assert [AuthGroup, "login"][1..] == ["login"];
      assert JoinSegments(["login"]) == "/" + "login" + JoinSegments([]);
      assert JoinSegments([AuthGroup, "login"]) == "/" + AuthGroup + JoinSegments(["login"]);
  }

  /** `segments[0] === '(auth)'`; an empty segment list has no group. */
  predicate InAuthGroup(segments: seq<string>) {
    |segments| > 0 && segments[0] == AuthGroup
  }

  /**
   * The navigation effect as a decision: never while loading; to the tabs
   * from an auth screen with a token; to login from elsewhere without one;
   * otherwise none.
   */
  function Gate(loading: bool, token: Option<string>, segments: seq<string>): (r: Option<Route>)
    ensures loading ==> r == None
    ensures r == Some(Tabs) <==> !loading && Truthy(token) && InAuthGroup(segments)
    ensures r == Some(Login) <==> !loading && !Truthy(token) && !InAuthGroup(segments)
  {
    if loading then None
    else
      var inAuthGroup := InAuthGroup(segments);
      if Truthy(token) && inAuthGroup then Some(Tabs)
      else if !Truthy(token) && !inAuthGroup then Some(Login)
      else None
  }

  // ---------------------------------------------------------------------
  // Properties
  // ---------------------------------------------------------------------

  /** Calling `logout` twice leaves the same state as calling it once. */
  lemma LogoutIdempotent(s: ClientState)
    ensures AfterLogout(AfterLogout(s)) == AfterLogout(s)
  {
  }

  /** Bootstrap from the first render with no truthy stored token: still no token, no user, no header set. */
  lemma BootstrapWithoutToken(headers: map<string, string>, store: map<string, string>, me: Reply<Account>)
    requires TokenKey !in store || store[TokenKey] == ""
    ensures AfterBootstrap(Initial(headers, store), me) == ClientState(None, None, false, headers, store)
  {
  }

  /** Bootstrap with a truthy stored token and a successful `/me` restores that session. */
  lemma BootstrapRestores(s: ClientState, t: string, a: Account)
    requires TokenKey in s.store && s.store[TokenKey] == t && t != ""
    ensures var r := AfterBootstrap(s, Success(a));
      r.token == Some(t) && r.user == Some(a) && !r.loading &&
      AuthHeader in r.headers && r.headers[AuthHeader] == Bearer(t) &&
      r.store == s.store
  {
  }

  /** Bootstrap with a truthy stored token and a failed `/me` ends logged out, the header and entry removed. */
  lemma BootstrapFailureLogsOut(s: ClientState)
    requires Truthy(StoredToken(s))
    ensures var r := AfterBootstrap(s, Failure);
      r.token == None && r.user == None && !r.loading &&
      AuthHeader !in r.headers && TokenKey !in r.store
  {
  }

  /** Following a redirect leads to a location the gate leaves alone. */
  lemma GateStable(loading: bool, token: Option<string>, segments: seq<string>, r: Route)
    requires Gate(loading, token, segments) == Some(r)
    ensures Gate(loading, token, SegmentsOf(r)) == None
  {
  }

  /** After a failed bootstrap every screen outside the auth group redirects to login. */
  lemma FailedBootstrapGoesToLogin(s: ClientState, segments: seq<string>)
    requires Truthy(StoredToken(s)) && !InAuthGroup(segments)
    ensures var r := AfterBootstrap(s, Failure);
      Gate(r.loading, r.token, segments) == Some(Login)
  {
  }

  /** After a successful sign-in with a non-empty token, an auth screen redirects to the tabs once loaded. */
  lemma SignInLeavesAuthGroup(s: ClientState, data: SessionData, segments: seq<string>)
    requires !s.loading && data.token.Text? && data.token.text != "" && InAuthGroup(segments)
    ensures var st := AfterSignIn(s, Success(data));
      st.resolved && Gate(st.state.loading, st.state.token, segments) == Some(Tabs)
  {
  }

  // ---------------------------------------------------------------------
  // Sequences of transitions
  // ---------------------------------------------------------------------

  /** One transition of the controller. */
  datatype Event = Boot(me: Reply<Account>) | SignIn(reply: Reply<SessionData>) | SignOut

  function Apply(s: ClientState, e: Event): ClientState {
    match e
    case Boot(me) => AfterBootstrap(s, me)
    case SignIn(reply) => AfterSignIn(s, reply).state
    case SignOut => AfterLogout(s)
  }

  function Replay(s: ClientState, events: seq<Event>): ClientState
    decreases |events|
  {
    if |events| == 0 then s else Replay(Apply(s, events[0]), events[1..])
  }

  /** A session token in state is exactly the one attached to requests and persisted. */
  ghost predicate Coherent(s: ClientState) {
    s.token.Some? ==>
      AuthHeader in s.headers && s.headers[AuthHeader] == Bearer(s.token.value) &&
      TokenKey in s.store && s.store[TokenKey] == s.token.value
  }

  lemma ApplyKeepsCoherent(s: ClientState, e: Event)
    requires Coherent(s)
    ensures Coherent(Apply(s, e))
  {
  }

  /** From any coherent state, e.g. the first render, every sequence of transitions keeps the session coherent. */
  lemma {:induction false} ReplayKeepsCoherent(s: ClientState, events: seq<Event>)
    requires Coherent(s)
    ensures Coherent(Replay(s, events))
    decreases |events|
  {
    if |events| > 0 {
      ApplyKeepsCoherent(s, events[0]);
      ReplayKeepsCoherent(Apply(s, events[0]), events[1..]);
    }
  }

  /** Until a bootstrap has run, the controller is loading and the gate never redirects. */
  lemma {:induction false} NoRedirectBeforeBootstrap(s: ClientState, events: seq<Event>, segments: seq<string>)
    requires s.loading
    requires forall i :: 0 <= i < |events| ==> !events[i].Boot?
    ensures Replay(s, events).loading
    ensures Gate(Replay(s, events).loading, Replay(s, events).token, segments) == None
    decreases |events|
  {
    if |events| > 0 {
      NoRedirectBeforeBootstrap(Apply(s, events[0]), events[1..], segments);
    }
  }

  /** Once loaded, the controller never returns to loading. */
  lemma {:induction false} LoadedStaysLoaded(s: ClientState, events: seq<Event>)
    requires !s.loading
    ensures !Replay(s, events).loading
    decreases |events|
  {
    if |events| > 0 {
      LoadedStaysLoaded(Apply(s, events[0]), events[1..]);
    }
  }

  // ---------------------------------------------------------------------
  // The provider as updated in place
  // ---------------------------------------------------------------------

  /** The `AuthProvider` component's state, with the global header table and the secure store it writes. */
  class AuthProvider {
    var token: Option<string>
    var user: Option<Account>
    var loading: bool
    var headers: map<string, string>
    var store: map<string, string>

    function State(): ClientState
      reads this
    {
      ClientState(token, user, loading, headers, store)
    }

    /** The first render: `useState(null)`, `useState(null)`, `useState(true)`. */
    constructor (headers0: map<string, string>, store0: map<string, string>)
      ensures State() == Initial(headers0, store0)
      ensures token == None && user == None && loading
    {
      token, user, loading := None, None, true;
      headers, store := headers0, store0;
    }

    method LoadData(me: Reply<Account>)
      modifies this
      ensures State() == AfterBootstrap(old(State()), me)
    {
      var storedToken := if TokenKey in store then Some(store[TokenKey]) else None;
      if Truthy(storedToken) {
        headers := headers[AuthHeader := Bearer(storedToken.value)];
        match me
        case Success(account) =>
          user := Some(account);
          token := storedToken;
        case Failure =>
          Logout();
      }
      loading := false;
    }

    method Login(reply: Reply<SessionData>) returns (resolved: bool)
      modifies this
      ensures Step(State(), resolved) == AfterSignIn(old(State()), reply)
    {
      if reply.Failure? {
        return false;
      }
      var newToken, userData := reply.data.token, reply.data.user;
      token := AsStateToken(newToken);
      user := userData;
      headers := headers[AuthHeader := Bearer(Printed(newToken))];
      if !newToken.Text? {
        return false;
      }
      store := store[TokenKey := newToken.text];
      resolved := true;
    }

    method Register(reply: Reply<SessionData>) returns (resolved: bool)
      modifies this
      ensures Step(State(), resolved) == AfterSignIn(old(State()), reply)
    {
      if reply.Failure? {
        return false;
      }
      var newToken, userData := reply.data.token, reply.data.user;
      token := AsStateToken(newToken);
      user := userData;
      headers := headers[AuthHeader := Bearer(Printed(newToken))];
      if !newToken.Text? {
        return false;
      }
      store := store[TokenKey := newToken.text];
      resolved := true;
    }

    method Logout()
      modifies this
      ensures State() == AfterLogout(old(State()))
    {
      token := None;
      user := None;
      headers := headers - {AuthHeader};
      store := store - {TokenKey};
    }
  }
}
