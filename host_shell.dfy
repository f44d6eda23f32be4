/**
 * The host shell (host-shell/src/App.jsx): the session coordinator that listens for
 * messages from the embedded frames, keeps `token` / `user` in memory and in
 * localStorage, and the route table with its two guards.
 */
module HostShell {
  import opened Base
  import opened Protocol
  import opened Browser
  import Json

  /** The frames the route table can show. */
  datatype Frame = LoginFrame | DashboardFrame

  /** What one render of `HostWrapper` does for a path: show a frame, `<Navigate>` elsewhere, or throw. */
  datatype Render = Show(frame: Frame) | Redirect(to: string) | Crash

  /** Where following the route table ends: a frame shown at a path, a render that threw, or still redirecting when the renders run out. */
  datatype Outcome = Settled(frame: Frame, path: string) | Crashed | Unsettled

  /** Everything the message handler reads and writes: localStorage, the two state hooks, the location. */
  datatype HostState = HostState(store: Store, token: Option<string>, user: Option<User>, route: string)

  /**
   * The initial `token` and `user`: the stored token as is, and `JSON.parse` of the stored
   * user or of `'null'` when that key is absent or empty. Err where `JSON.parse` throws,
   * which the source does not catch.
   */
  function Seed(store: Store): (r: Result<(Option<string>, Option<User>)>)
    ensures r.Ok? ==> r.value.0 == Get(store, TokenKey)
    ensures !Truthy(Get(store, UserKey)) || store[UserKey] == "null" ==> r == Ok((Get(store, TokenKey), None))
    ensures forall u :: Get(store, UserKey) == Some(Json.StringifyUser(u)) ==> r == Ok((Get(store, TokenKey), Some(u)))
    ensures Truthy(Get(store, UserKey)) && store[UserKey] != "null" && r.Ok? ==>
      r.value.1.Some? && store[UserKey] == Json.StringifyUser(r.value.1.value)
  {
    Json.ParseUserShape(GetOr(store, UserKey, "null"));
    match Json.ParseUser(GetOr(store, UserKey, "null"))
    case Ok(u) => Ok((Get(store, TokenKey), u))
    case Err(e) => Err(e)
  }

  /** What `setItem('mf_token', msg.token)` stores: `setItem` turns `undefined` and `null` into text. */
  function StoredToken(t: Field<string>): string {
    match t
    case Missing => "undefined"
    case Null => "null"
    case Given(v) => v
  }

  /** The `message` handler: ignore a payload without `type`, accept the two protocol messages, ignore the rest. */
  function Step(s: HostState, m: Message): (r: HostState)
    ensures !IsLoginSuccess(m) && !IsLogout(m) ==> r == s
    ensures IsLoginSuccess(m) ==>
      && Get(r.store, TokenKey) == Some(StoredToken(m.token))
      && Get(r.store, UserKey) == Some(Json.StoredUser(m.user))
      && r.token == m.token.ToOption() && r.user == m.user.ToOption()
      && r.route == "/dashboard"
    ensures IsLogout(m) ==>
      && TokenKey !in r.store && UserKey !in r.store
      && r.token == None && r.user == None
      && r.route == "/"
    ensures forall k :: k != TokenKey && k != UserKey ==> Get(r.store, k) == Get(s.store, k)
  {
    if m.NoData? || m.kind.None? || m.kind.value == "" then s
    else if m.kind.value == LoginSuccessType then
      HostState(s.store[TokenKey := StoredToken(m.token)][UserKey := Json.StoredUser(m.user)],
                m.token.ToOption(), m.user.ToOption(), "/dashboard")
    else if m.kind.value == LogoutType then
      HostState(s.store - {TokenKey, UserKey}, None, None, "/")
    else s
  }

  /** The messages of `ms`, handled in the order they are delivered. */
  function Run(s: HostState, ms: seq<Message>): HostState
    decreases |ms|
  {
    if ms == [] then s else Run(Step(s, ms[0]), ms[1..])
  }

  /** Delivering a message a second time changes nothing: the handler overwrites, it never accumulates. */
  lemma StepIdempotent(s: HostState, m: Message)
    ensures Step(Step(s, m), m) == Step(s, m)
  {
    var once := Step(s, m);
    if IsLoginSuccess(m) {
      assert once.store[TokenKey := StoredToken(m.token)][UserKey := Json.StoredUser(m.user)] == once.store;
    } else if IsLogout(m) {
      assert once.store - {TokenKey, UserKey} == once.store;
    }
  }

  /** Any number (at least one) of deliveries of the same message end where one delivery ends. */
  lemma {:induction false} RunRepeated(s: HostState, m: Message, n: nat)
    requires n >= 1
    ensures Run(s, seq(n, _ => m)) == Step(s, m)
    decreases n
  {
    var ms := seq(n, _ => m);
    assert ms[0] == m;
    if n == 1 {
      assert ms[1..] == [];
    } else {
      assert ms[1..] == seq(n - 1, _ => m);
      RunRepeated(Step(s, m), m, n - 1);
      StepIdempotent(s, m);
    }
  }

  /** Two LOGOUT messages in a row leave the host where one does. */
  lemma DoubleLogout(s: HostState)
    ensures Run(s, [Logout, Logout]) == Step(s, Logout)
  {
    RunRepeated(s, Logout, 2);
    assert seq(2, _ => Logout) == [Logout, Logout];
  }

  /** After LOGIN_SUCCESS a reload of the host reads the same session back from localStorage. */
  lemma LoginSurvivesReload(s: HostState, token: string, user: User)
    ensures Seed(Step(s, LoginSuccess(token, user)).store) == Ok((Some(token), Some(user)))
  {
    Json.StoredUserReadsBack(Given(user));
  }

  /** After LOGOUT a reload of the host starts with no session. */
  lemma LogoutSurvivesReload(s: HostState)
    ensures Seed(Step(s, Logout).store) == Ok((None, None))
  {
  }

  /**
   * A render of `HostWrapper` throws: React evaluates the `useState` arguments of lines 5-6
   * on every render, so the stored user is parsed again each time, and nothing catches the error.
   */
  predicate RenderThrows(store: Store) {
    Seed(store).Err?
  }

  /** A LOGIN_SUCCESS without `user` stores the text "undefined": the very next render of the host throws, and so does the next mount. */
  lemma UserlessLoginCrashes(s: HostState, m: Message)
    requires IsLoginSuccess(m) && m.user.Missing?
    ensures RenderThrows(Step(s, m).store)
    ensures forall path, fuel :: fuel > 0 ==> Settle(path, Step(s, m).token, Step(s, m).store, fuel) == Crashed
  {
    Json.StoredUserReadsBack(m.user);
  }

  /** From a host that renders, a message breaks the render exactly when it is a LOGIN_SUCCESS without `user`. */
  lemma StepKeepsRendering(s: HostState, m: Message)
    requires !RenderThrows(s.store)
    ensures RenderThrows(Step(s, m).store) <==> IsLoginSuccess(m) && m.user.Missing?
  {
    if m.Data? {
      Json.StoredUserReadsBack(m.user);
    }
  }

  /**
   * One render of `HostWrapper` at `path`: the parse of line 6 first, then the route table:
   * `/` (login frame, or on to `/dashboard` when a token is stored), `/dashboard` (guarded by
   * the in-memory token), anything else back to `/`.
   */
  function RenderRoute(path: string, token: Option<string>, store: Store): (r: Render)
    ensures r == Crash <==> RenderThrows(store)
    ensures !RenderThrows(store) && path != "/" && path != "/dashboard" ==> r == Redirect("/")
    ensures !RenderThrows(store) && path == "/dashboard" ==> (r == Show(DashboardFrame) <==> Truthy(token))
    ensures !RenderThrows(store) && path == "/dashboard" && !Truthy(token) ==> r == Redirect("/")
    ensures !RenderThrows(store) && path == "/" ==> (r == Redirect("/dashboard") <==> Truthy(Get(store, TokenKey)))
    ensures !RenderThrows(store) && path == "/" && !Truthy(Get(store, TokenKey)) ==> r == Show(LoginFrame)
    ensures r.Show? ==> (r.frame == DashboardFrame <==> path == "/dashboard")
  {
    if RenderThrows(store) then Crash
    else if path == "/" then
      if Truthy(Get(store, TokenKey)) then Redirect("/dashboard") else Show(LoginFrame)
    else if path == "/dashboard" then
      if Truthy(token) then Show(DashboardFrame) else Redirect("/")
    else Redirect("/")
  }

  /** Follows redirects for at most `fuel` renders: the frame shown and the path it settles on, a crash, or no frame yet. */
  function Settle(path: string, token: Option<string>, store: Store, fuel: nat): (r: Outcome)
    ensures r.Crashed? <==> fuel > 0 && RenderThrows(store)
    ensures r.Settled? ==> RenderRoute(r.path, token, store) == Show(r.frame)
    decreases fuel
  {
    if fuel == 0 then Unsettled
    else match RenderRoute(path, token, store)
      case Show(f) => Settled(f, path)
      case Redirect(to) => Settle(to, token, store, fuel - 1)
      case Crash => Crashed
  }

  /** The in-memory token and the stored token agree on being present. */
  predicate InSync(s: HostState) {
    Truthy(s.token) == Truthy(Get(s.store, TokenKey))
  }

  /** With token and store in sync every path settles within three renders, on the dashboard exactly when logged in, unless the stored user makes the render throw. */
  lemma SettleInSync(s: HostState, path: string)
    requires InSync(s)
    ensures Settle(path, s.token, s.store, 3) ==
      if RenderThrows(s.store) then Crashed
      else if Truthy(s.token) then Settled(DashboardFrame, "/dashboard")
      else Settled(LoginFrame, "/")
  {
  }

  /** A stored token without an in-memory one bounces between `/` and `/dashboard` for ever, unless the render throws first. */
  lemma {:induction false} RedirectLoop(path: string, token: Option<string>, store: Store, fuel: nat)
    requires Truthy(Get(store, TokenKey)) && !Truthy(token)
    ensures Settle(path, token, store, fuel) == if fuel > 0 && RenderThrows(store) then Crashed else Unsettled
    decreases fuel
  {
    if fuel > 0 && !RenderThrows(store) {
      RedirectLoop(RenderRoute(path, token, store).to, token, store, fuel - 1);
    }
  }

  /** The handler keeps token and store in sync, except for a LOGIN_SUCCESS that carries no token. */
  lemma StepKeepsSync(s: HostState, m: Message)
    requires InSync(s)
    requires IsLoginSuccess(m) ==> m.token.Given?
    ensures InSync(Step(s, m))
  {
  }

  /**
   * A LOGIN_SUCCESS without a token stores the text "undefined" while the in-memory token is
   * empty: the host never settles on a frame again, and when `user` is missing too its next
   * render throws instead.
   */
  lemma TokenlessLoginLoops(s: HostState, m: Message, path: string, fuel: nat)
    requires IsLoginSuccess(m) && !m.token.Given?
    ensures !InSync(Step(s, m))
    ensures Settle(path, Step(s, m).token, Step(s, m).store, fuel) ==
      if fuel > 0 && m.user.Missing? then Crashed else Unsettled
  {
    var r := Step(s, m);
    Json.StoredUserReadsBack(m.user);
    RedirectLoop(path, r.token, r.store, fuel);
  }

  /** The shell's `HostWrapper`: its state hooks, the location, and the origin's localStorage. */
  class Host {
    const storage: Storage
    /** The host window, where the frames post. */
    const window: Channel
    var token: Option<string>
    var user: Option<User>
    var route: string

    function State(): HostState
      reads this, storage
    {
      HostState(storage.items, token, user, route)
    }

    /** Mounting at `path` seeds the session from localStorage; a stored user that does not parse makes the mount throw. */
    constructor (storage: Storage, window: Channel, path: string)
      requires Seed(storage.items).Ok?
      ensures this.storage == storage && this.window == window
      ensures token == Get(storage.items, TokenKey) && user == Seed(storage.items).value.1 && route == path
      ensures InSync(State())
    {
      this.storage := storage;
      this.window := window;
      var seeded := Seed(storage.items).value;
      token := seeded.0;
      user := seeded.1;
      route := path;
    }

    /** `onMessage`: the store writes, the two state updates and the navigation, in the source's order. */
    method OnMessage(m: Message)
      modifies this, storage
      ensures State() == Step(old(State()), m)
    {
      if m.NoData? || m.kind.None? || m.kind.value == "" {
        return;
      }
      if m.kind.value == LoginSuccessType {
        storage.SetItem(TokenKey, StoredToken(m.token));
        storage.SetItem(UserKey, Json.StoredUser(m.user));
        token := m.token.ToOption();
        user := m.user.ToOption();
        route := "/dashboard";
      } else if m.kind.value == LogoutType {
        storage.RemoveItem(TokenKey);
        storage.RemoveItem(UserKey);
        token := None;
        user := None;
        route := "/";
        assert storage.items == old(storage.items) - {TokenKey, UserKey};
      }
    }

    /** The browser dispatches every pending message to the listener, oldest first. */
    method ReceiveAll()
      modifies this, storage, window
      ensures State() == Run(old(State()), old(window.pending))
      ensures window.pending == []
    {
      ghost var target := Run(State(), window.pending);
      while window.pending != []
        invariant Run(State(), window.pending) == target
        decreases |window.pending|
      {
        ghost var before := window.pending;
        var m := window.Take();
        assert before[0] == m && before[1..] == window.pending;
        OnMessage(m);
      }
    }
  }
}
