/**
 * The session store: who is signed in, with which token, and whether the session has been
 * initialised, plus the two browser-storage entries that persist it across page loads.
 *
 * `localStorage` is a map field of the store, `process.client` a constant of it, and
 * `JSON.parse`/`JSON.stringify` on user records are functions supplied at construction
 * (`None` from the parser stands for a thrown exception). `navigateTo` is recorded: every
 * navigation an action requests is appended to `navigations`.
 */
module Auth {
  import opened Wrappers

  datatype Role = Athlete | Coach

  datatype User = User(
    id: string,
    email: string,
    role: Role,
    name: string,
    profileImage: Option<string>,
    age: Option<real>,
    height: Option<real>,
    weight: Option<real>)

  /** The store's state: `user`, `token`, `initialized`. */
  datatype AuthState = AuthState(user: Option<User>, token: Option<string>, initialized: bool)

  type Storage = map<string, string>

  const TokenKey: string := "auth_token"
  const UserKey: string := "auth_user"
  const Landing: string := "/"

  /** JavaScript truthiness of a string that may be null: present and not empty. */
  function Truthy(s: Option<string>): (r: bool)
    ensures r <==> s.Some? && |s.value| > 0
  {
    s.Some? && s.value != ""
  }

  // ---------------------------------------------------------------------------------------
  // Getters

  /** `isAuthenticated`: initialised and holding a non-empty token. */
  function IsAuthenticated(s: AuthState): (r: bool)
    ensures !s.initialized ==> !r
    ensures r <==> s.initialized && s.token.Some? && |s.token.value| > 0
  {
    s.initialized && Truthy(s.token)
  }

  /** `isCoach`: the signed-in user's role is coach. */
  function IsCoach(s: AuthState): (r: bool)
    ensures s.user.None? ==> !r
    ensures r <==> s.user.Some? && s.user.value.role == Coach
  {
    s.user.Some? && s.user.value.role == Coach
  }

  /** `isAthlete`: the signed-in user's role is athlete. */
  function IsAthlete(s: AuthState): (r: bool)
    ensures s.user.None? ==> !r
    ensures r <==> s.user.Some? && s.user.value.role == Athlete
  {
    s.user.Some? && s.user.value.role == Athlete
  }

  /** Never both roles; a signed-in user has exactly one, nobody signed in has neither. */
  lemma RolesExclusive(s: AuthState)
    ensures !(IsCoach(s) && IsAthlete(s))
    ensures s.user.Some? ==> IsCoach(s) || IsAthlete(s)
  {
  }

  // ---------------------------------------------------------------------------------------
  // Storage

  /** Storage after writing both session entries. */
  function WithSession(s: Storage, token: string, userJson: string): (s': Storage)
    ensures s'.Keys == s.Keys + {TokenKey, UserKey}
    ensures s'[TokenKey] == token && s'[UserKey] == userJson
    ensures forall k :: k in s && k != TokenKey && k != UserKey ==> s'[k] == s[k]
  {
    s[TokenKey := token][UserKey := userJson]
  }

  /** Storage after removing both session entries. */
  function WithoutSession(s: Storage): (s': Storage)
    ensures s'.Keys == s.Keys - {TokenKey, UserKey}
    ensures forall k :: k in s' ==> s'[k] == s[k]
  {
    s - {TokenKey} - {UserKey}
  }

  /** What `initializeAuth` finds in storage. */
  datatype Persisted = Missing | Corrupt | Restorable(token: string, user: User)

  function ReadPersisted(s: Storage, parse: string -> Option<User>): (p: Persisted)
    ensures p.Missing? <==> !(Truthy(Get(s, TokenKey)) && Truthy(Get(s, UserKey)))
    ensures p.Corrupt? <==> Truthy(Get(s, TokenKey)) && Truthy(Get(s, UserKey)) && parse(s[UserKey]).None?
    ensures p.Restorable? ==> p.token == s[TokenKey] && p.token != "" && parse(s[UserKey]) == Some(p.user)
  {
    var token, userStr := Get(s, TokenKey), Get(s, UserKey);
    if Truthy(token) && Truthy(userStr) then
      match parse(userStr.value)
      case Some(u) => Restorable(token.value, u)
      case None => Corrupt
    else Missing
  }

  // ---------------------------------------------------------------------------------------
  // Transitions: what each action does to the state, the storage and the navigations

  /** Everything an action of the store can change. */
  datatype StoreView = StoreView(state: AuthState, storage: Storage, navigations: seq<string>)

  function AfterSetAuth(v: StoreView, isClient: bool, stringify: User -> string, t: string, u: User): (r: StoreView)
    ensures r.state == AuthState(Some(u), Some(t), true)
    ensures isClient ==> r.storage == WithSession(v.storage, t, stringify(u))
    ensures !isClient ==> r.storage == v.storage
    ensures r.navigations == v.navigations
  {
    var storage := if isClient then v.storage[TokenKey := t][UserKey := stringify(u)] else v.storage;
    StoreView(AuthState(Some(u), Some(t), true), storage, v.navigations)
  }

  function AfterUpdateUser(v: StoreView, isClient: bool, stringify: User -> string, u: User): (r: StoreView)
    ensures r.state.user == Some(u)
    ensures r.state.token == v.state.token && r.state.initialized == v.state.initialized
    ensures isClient ==> r.storage == v.storage[UserKey := stringify(u)]
    ensures !isClient ==> r.storage == v.storage
    ensures r.navigations == v.navigations
  {
    var storage := if isClient then v.storage[UserKey := stringify(u)] else v.storage;
    StoreView(v.state.(user := Some(u)), storage, v.navigations)
  }

  function AfterLogout(v: StoreView, isClient: bool): (r: StoreView)
    ensures r.state.user == None && r.state.token == None
    ensures r.state.initialized == v.state.initialized
    ensures isClient ==> r.storage == WithoutSession(v.storage)
    ensures !isClient ==> r.storage == v.storage
    ensures r.navigations == v.navigations + [Landing]
  {
    var storage := if isClient then v.storage - {TokenKey} - {UserKey} else v.storage;
    StoreView(AuthState(None, None, v.state.initialized), storage, v.navigations + [Landing])
  }

  function AfterInitialize(v: StoreView, isClient: bool, parse: string -> Option<User>): (r: StoreView)
    ensures r.state.initialized
  {
    var read :=
      if !isClient then v
      else match ReadPersisted(v.storage, parse)
        case Missing => v
        case Corrupt => AfterLogout(v, isClient)
        case Restorable(t, u) => v.(state := v.state.(token := Some(t), user := Some(u)));
    read.(state := read.state.(initialized := true))
  }

  /** What a thrown value becomes in the error `login` rethrows. */
  datatype Thrown = ErrorObject(message: string) | OtherValue

  /** The body of a response, as `response.json()` resolves or rejects. */
  datatype Body = Parsed(data: LoginData) | Unparsable(reason: Thrown)

  /** The login endpoint's answer as `fetch` delivers it. */
  datatype Reply = FetchRejected(reason: Thrown) | Response(ok: bool, body: Body)

  datatype LoginData = LoginData(token: string, user: User)

  /** The message of the rethrown error: an `Error`'s own message, otherwise a fixed text. */
  function Message(t: Thrown): (m: string)
    ensures t.ErrorObject? ==> m == t.message
    ensures t.OtherValue? ==> m == "Authentication failed"
  {
    match t
    case ErrorObject(m) => m
    case OtherValue => "Authentication failed"
  }

  /** What `login` resolves to (`Success`) or rejects with (`Failure`, the error message). */
  function LoginOutcome(reply: Reply): (r: Result<LoginData, string>)
    ensures r.Success? <==> reply.Response? && reply.ok && reply.body.Parsed?
    ensures r.Success? ==> r.value == reply.body.data
    ensures reply.Response? && !reply.ok ==> r == Failure("Invalid credentials")
    ensures reply.FetchRejected? ==> r == Failure(Message(reply.reason))
    ensures reply.Response? && reply.ok && reply.body.Unparsable? ==> r == Failure(Message(reply.body.reason))
  {
    match reply
    case FetchRejected(t) => Failure(Message(t))
    case Response(ok, body) =>
      if !ok then Failure(Message(ErrorObject("Invalid credentials")))
      else match body
        case Parsed(data) => Success(data)
        case Unparsable(t) => Failure(Message(t))
  }

  function AfterLogin(v: StoreView, isClient: bool, stringify: User -> string, reply: Reply): (r: StoreView)
    ensures LoginOutcome(reply).Failure? ==> r == v
    ensures LoginOutcome(reply).Success? ==>
      r == AfterSetAuth(v, isClient, stringify, LoginOutcome(reply).value.token, LoginOutcome(reply).value.user)
  {
    match LoginOutcome(reply)
    case Success(data) => AfterSetAuth(v, isClient, stringify, data.token, data.user)
    case Failure(_) => v
  }

  // ---------------------------------------------------------------------------------------
  // Properties of the transitions

  /** After `setAuth` the session is authenticated exactly when the token is not empty. */
  lemma SetAuthAuthenticates(v: StoreView, isClient: bool, stringify: User -> string, t: string, u: User)
    ensures IsAuthenticated(AfterSetAuth(v, isClient, stringify, t, u).state) <==> t != ""
  {
  }

  /** After `logout` nobody is signed in, in any role, and the landing page was requested. */
  lemma LogoutSignsOut(v: StoreView, isClient: bool)
    ensures var s := AfterLogout(v, isClient).state; !IsAuthenticated(s) && !IsCoach(s) && !IsAthlete(s)
    ensures AfterLogout(v, isClient).navigations[|v.navigations|] == Landing
  {
  }

  /** On the server `initializeAuth` only marks the session initialised. */
  lemma InitializeOnServer(v: StoreView, parse: string -> Option<User>)
    ensures AfterInitialize(v, false, parse) == v.(state := v.state.(initialized := true))
  {
  }

  /** With a session entry missing or empty, `initializeAuth` keeps user and token as they were. */
  lemma InitializeMissing(v: StoreView, parse: string -> Option<User>)
    requires ReadPersisted(v.storage, parse) == Missing
    ensures AfterInitialize(v, true, parse) == v.(state := v.state.(initialized := true))
  {
  }

  /** With both entries present and the user parseable, `initializeAuth` adopts them. */
  lemma InitializeRestores(v: StoreView, parse: string -> Option<User>, t: string, u: User)
    requires ReadPersisted(v.storage, parse) == Restorable(t, u)
    ensures AfterInitialize(v, true, parse).state == AuthState(Some(u), Some(t), true)
    ensures AfterInitialize(v, true, parse).storage == v.storage
    ensures AfterInitialize(v, true, parse).navigations == v.navigations
  {
  }

  /** An unparseable stored user ends exactly as a `logout` would, but initialised. */
  lemma InitializeCorruptIsLogout(v: StoreView, parse: string -> Option<User>)
    requires ReadPersisted(v.storage, parse) == Corrupt
    ensures var l := AfterLogout(v, true);
      AfterInitialize(v, true, parse) == l.(state := l.state.(initialized := true))
  {
  }

  /** After `logout` on the client nothing is left to restore. */
  lemma LogoutClearsPersisted(v: StoreView, parse: string -> Option<User>)
    ensures ReadPersisted(AfterLogout(v, true).storage, parse) == Missing
  {
    var s := AfterLogout(v, true).storage;
    assert TokenKey !in s;
  }

  /**
   * What `setAuth` writes on the client is what a later `initializeAuth` restores, when the
   * token is not empty and the parser reads back what the serialiser wrote.
   */
  lemma PersistedSessionRestores(v: StoreView, stringify: User -> string, parse: string -> Option<User>, t: string, u: User)
    requires t != "" && stringify(u) != "" && parse(stringify(u)) == Some(u)
    ensures ReadPersisted(AfterSetAuth(v, true, stringify, t, u).storage, parse) == Restorable(t, u)
    ensures var start := StoreView(AuthState(None, None, false), AfterSetAuth(v, true, stringify, t, u).storage, []);
      AfterInitialize(start, true, parse).state == AuthState(Some(u), Some(t), true)
  {
    var s := AfterSetAuth(v, true, stringify, t, u).storage;
    assert Get(s, TokenKey) == Some(t) && Get(s, UserKey) == Some(stringify(u));
  }

  /** Running `initializeAuth` a second time changes nothing. */
  lemma InitializeIdempotent(v: StoreView, isClient: bool, parse: string -> Option<User>)
    ensures AfterInitialize(AfterInitialize(v, isClient, parse), isClient, parse) == AfterInitialize(v, isClient, parse)
  {
    if isClient && ReadPersisted(v.storage, parse) == Corrupt {
      LogoutClearsPersisted(v, parse);
    }
  }

  /** A failed login leaves state, storage and navigations as they were. */
  lemma FailedLoginChangesNothing(v: StoreView, isClient: bool, stringify: User -> string, reply: Reply)
    requires LoginOutcome(reply).Failure?
    ensures AfterLogin(v, isClient, stringify, reply) == v
  {
  }

  // ---------------------------------------------------------------------------------------
  // The store

  class AuthStore {
    var user: Option<User>
    var token: Option<string>
    var initialized: bool
    var storage: Storage
    var navigations: seq<string>
    const isClient: bool
    const parseUser: string -> Option<User>
    const stringifyUser: User -> string

    function State(): (s: AuthState)
      reads this
      ensures s.user == user && s.token == token && s.initialized == initialized
    {
      AuthState(user, token, initialized)
    }

    function View(): (v: StoreView)
      reads this
      ensures v.state == State() && v.storage == storage && v.navigations == navigations
    {
      StoreView(State(), storage, navigations)
    }

    /** A fresh store: nobody signed in, not initialised, over the given storage. */
    constructor (isClient: bool, storage: Storage, parseUser: string -> Option<User>, stringifyUser: User -> string)
      ensures State() == AuthState(None, None, false)
      ensures this.storage == storage && navigations == []
      ensures this.isClient == isClient && this.parseUser == parseUser && this.stringifyUser == stringifyUser
    {
      user := None;
      token := None;
      initialized := false;
      this.storage := storage;
      navigations := [];
      this.isClient := isClient;
      this.parseUser := parseUser;
      this.stringifyUser := stringifyUser;
    }

    /** `setAuth(token, user)`. */
    method SetAuth(t: string, u: User)
      modifies this
      ensures View() == AfterSetAuth(old(View()), isClient, stringifyUser, t, u)
    {
      token := Some(t);
      user := Some(u);
      initialized := true;
      if isClient {
        storage := storage[TokenKey := t];
        storage := storage[UserKey := stringifyUser(u)];
      }
    }

    /** `updateUser(user)`. */
    method UpdateUser(u: User)
      modifies this
      ensures View() == AfterUpdateUser(old(View()), isClient, stringifyUser, u)
    {
      user := Some(u);
      if isClient {
        storage := storage[UserKey := stringifyUser(u)];
      }
    }

    /** `logout()`. */
    method Logout()
      modifies this
      ensures View() == AfterLogout(old(View()), isClient)
    {
      token := None;
      user := None;
      if isClient {
        storage := storage - {TokenKey};
        storage := storage - {UserKey};
      }
      navigations := navigations + [Landing];
    }

    /** `initializeAuth()`. */
    method InitializeAuth()
      modifies this
      ensures View() == AfterInitialize(old(View()), isClient, parseUser)
    {
      if isClient {
        var storedToken := Get(storage, TokenKey);
        var userStr := Get(storage, UserKey);
        if Truthy(storedToken) && Truthy(userStr) {
          match parseUser(userStr.value)
          case Some(u) =>
            token := storedToken;
            user := Some(u);
          case None =>
            Logout();
        }
      }
      initialized := true;
    }

    /** `login(email, password)`, given the endpoint's reply. */
    method Login(reply: Reply) returns (r: Result<LoginData, string>)
      modifies this
      ensures r == LoginOutcome(reply)
      ensures View() == AfterLogin(old(View()), isClient, stringifyUser, reply)
    {
      match reply
      case FetchRejected(t) =>
        r := Failure(Message(t));
      case Response(ok, body) =>
        if !ok {
          r := Failure(Message(ErrorObject("Invalid credentials")));
        } else {
          match body
          case Parsed(data) =>
            SetAuth(data.token, data.user);
            r := Success(data);
          case Unparsable(t) =>
            r := Failure(Message(t));
        }
    }
  }
}
