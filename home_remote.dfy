/**
 * The home frame: its page component (remotes/home/src/home.jsx) and its navigation bar
 * (remotes/home/src/Navbar.jsx), which share the frame's localStorage and `window.parent`.
 */
module HomeRemote {
  import opened Base
  import opened Protocol
  import opened Browser
  import Json

  /** The five sections `Home` can show, and the `active` key that selects each. */
  datatype View = DashboardView | PatientsView | AppointmentsView | RegisterView | SettingsView

  function KeyOf(v: View): string {
    match v
    case DashboardView => "dashboard"
    case PatientsView => "patients"
    case AppointmentsView => "appointments"
    case RegisterView => "register"
    case SettingsView => "settings"
  }

  /** The sections rendered for `active`, one `active === key &&` guard each, in page order. */
  function RenderedViews(active: string): (r: seq<View>)
    ensures |r| <= 1
    ensures forall v: View :: v in r <==> KeyOf(v) == active
    ensures r == [] <==> active !in {"dashboard", "patients", "appointments", "register", "settings"}
  {
    (if active == "dashboard" then [DashboardView] else [])
    + (if active == "patients" then [PatientsView] else [])
    + (if active == "appointments" then [AppointmentsView] else [])
    + (if active == "register" then [RegisterView] else [])
    + (if active == "settings" then [SettingsView] else [])
  }

  const DefaultName: string := "Recepcionista"

  /** The name in the bar: the stored user's email, or the default; Err where `JSON.parse` throws. */
  function DisplayedName(store: Store): (r: Result<string>)
    ensures !Truthy(Get(store, UserKey)) || store[UserKey] == "null" ==> r == Ok(DefaultName)
    ensures forall u :: Get(store, UserKey) == Some(Json.StringifyUser(u)) ==> r == Ok(u.email)
    ensures Truthy(Get(store, UserKey)) && store[UserKey] != "null" && r.Ok? ==>
      exists u :: store[UserKey] == Json.StringifyUser(u) && r.value == u.email
  {
    Json.ParseUserShape(GetOr(store, UserKey, "null"));
    match Json.ParseUser(GetOr(store, UserKey, "null"))
    case Ok(Some(u)) => Ok(u.email)
    case Ok(None) => Ok(DefaultName)
    case Err(e) => Err(e)
  }

  /** A user written the way the host writes it is what the bar shows. */
  lemma DisplayedStoredUser(store: Store, u: User)
    ensures DisplayedName(store[UserKey := Json.StringifyUser(u)]) == Ok(u.email)
  {
    Json.ParseStringifyUser(u);
    assert Json.StringifyUser(u) != "";
  }

  /** The `Home` component's state. */
  class Home {
    var active: string
    var sidebarOpen: bool
    const storage: Storage
    const parent: Channel

    constructor (storage: Storage, parent: Channel)
      ensures active == "dashboard" && !sidebarOpen
      ensures this.storage == storage && this.parent == parent
    {
      active := "dashboard";
      sidebarOpen := false;
      this.storage := storage;
      this.parent := parent;
    }

    /** `handleNavigate(key)`: show that section and close the mobile drawer. */
    method HandleNavigate(key: string)
      modifies this`active, this`sidebarOpen
      ensures active == key && !sidebarOpen
    {
      active := key;
      sidebarOpen := false;
    }

    /** The navbar's `onToggleSidebar`: opens the drawer (it never closes it). */
    method OpenSidebar()
      modifies this`sidebarOpen
      ensures sidebarOpen
    {
      sidebarOpen := true;
    }

    /** The sidebar's `onClose`. */
    method CloseSidebar()
      modifies this`sidebarOpen
      ensures !sidebarOpen
    {
      sidebarOpen := false;
    }

    /** `handleLogout`: drop the session keys of this frame's storage, then tell the host. */
    method HandleLogout()
      modifies storage, parent
      ensures storage.items == old(storage.items) - {TokenKey, UserKey}
      ensures parent.pending == old(parent.pending) + [Logout]
    {
      storage.RemoveItem(TokenKey);
      storage.RemoveItem(UserKey);
      parent.Post(Logout);
    }
  }

  /**
   * The `Navbar` component. `home` is the page that supplies the callbacks
   * (`onLogout={handleLogout}`, `onToggleSidebar`), or null for the default no-op callbacks;
   * `searches` records what reached `onSearch`.
   */
  class Navbar {
    var query: string
    var openNotif: bool
    var searches: seq<string>
    const home: Home?
    const storage: Storage
    const parent: Channel

    constructor (home: Home?, storage: Storage, parent: Channel)
      requires home != null ==> home.storage == storage && home.parent == parent
      ensures query == "" && !openNotif && searches == []
      ensures this.home == home && this.storage == storage && this.parent == parent
    {
      query, openNotif, searches := "", false, [];
      this.home := home;
      this.storage := storage;
      this.parent := parent;
    }

    /** `handleSearchChange`: the box shows `q` and the same `q` goes to `onSearch`. */
    method HandleSearchChange(q: string)
      modifies this`query, this`searches
      ensures query == q && searches == old(searches) + [q]
    {
      query := q;
      searches := searches + [q];
    }

    /** The bell button flips the notification panel. */
    method ToggleNotifications()
      modifies this`openNotif
      ensures openNotif == !old(openNotif)
    {
      openNotif := !openNotif;
    }

    /** The hamburger button calls `onToggleSidebar`. */
    method ClickMenu()
      modifies if home != null then {home} else {}
      ensures home != null ==> home.sidebarOpen && home.active == old(home.active)
    {
      if home != null {
        home.OpenSidebar();
      }
    }

    /**
     * `handleLogout`: remove the two keys, call `onLogout`, then post LOGOUT. With the home
     * page's callback the host is told twice.
     */
    method HandleLogout()
      requires home != null ==> home.storage == storage && home.parent == parent
      modifies storage, parent
      ensures storage.items == old(storage.items) - {TokenKey, UserKey}
      ensures parent.pending == old(parent.pending) + (if home != null then [Logout, Logout] else [Logout])
    {
      storage.RemoveItem(TokenKey);
      storage.RemoveItem(UserKey);
      if home != null {
        home.HandleLogout();
      }
      parent.Post(Logout);
    }
  }
}
