/**
 * End-to-end runs: a remote's handler posts to the host window, the browser delivers
 * the pending messages to the host's listener, and the host's session is observed.
 */
module Scenarios {
  import opened Base
  import opened Protocol
  import opened Browser
  import opened HostShell
  import LoginRemote
  import HomeRemote
  import DashboardRemote

  /** Submitting the login form logs the host in exactly for the mock credentials, and nothing changes otherwise. */
  method LoginFlow(login: LoginRemote.LoginApp, host: Host)
    requires login.parent == host.window && host.window.pending == []
    modifies login`err, login`timers, host, host.storage, host.window
    ensures LoginRemote.Authorized(login.email, login.password) ==>
      && host.token == Some(LoginRemote.MockToken) && host.user == Some(User(login.email))
      && host.route == "/dashboard"
      && Seed(host.storage.items) == Ok((Some(LoginRemote.MockToken), Some(User(login.email))))
      && InSync(host.State())
    ensures !LoginRemote.Authorized(login.email, login.password) ==> host.State() == old(host.State())
  {
    ghost var before := host.State();
    login.HandleSubmit();
    ghost var posted := LoginRemote.SubmitPosts(login.email, login.password);
    assert host.window.pending == posted;
    host.ReceiveAll();
    if posted != [] {
      assert posted[1..] == [];
      LoginSurvivesReload(before, LoginRemote.MockToken, User(login.email));
    }
  }

  /**
   * The navbar's logout button: with the home page's callback the host receives LOGOUT
   * twice and ends where one LOGOUT leaves it, whether or not the frame shares the host's storage.
   */
  method NavbarLogoutFlow(nav: HomeRemote.Navbar, host: Host)
    requires nav.home != null && nav.home.storage == nav.storage && nav.home.parent == nav.parent
    requires nav.parent == host.window && host.window.pending == []
    modifies nav.storage, host, host.storage, host.window
    ensures host.State() == Step(old(host.State()), Logout)
    ensures Seed(host.storage.items) == Ok((None, None))
    ensures nav.storage.items == old(nav.storage.items) - {TokenKey, UserKey}
  {
    ghost var before := host.State();
    nav.HandleLogout();
    assert host.window.pending == [Logout, Logout];
    ghost var mid := host.State();
    assert mid.store == before.store || mid.store == before.store - {TokenKey, UserKey};
    host.ReceiveAll();
    DoubleLogout(mid);
    assert Step(mid, Logout) == Step(before, Logout) by {
      assert mid.store - {TokenKey, UserKey} == before.store - {TokenKey, UserKey};
    }
  }

  /** The dashboard's logout button: one LOGOUT, and the host is logged out. */
  method DashboardLogoutFlow(dash: DashboardRemote.Dashboard, host: Host)
    requires dash.parent == host.window && host.window.pending == []
    modifies dash.storage, host, host.storage, host.window
    ensures host.State() == Step(old(host.State()), Logout)
    ensures host.token == None && host.user == None && host.route == "/"
    ensures Seed(host.storage.items) == Ok((None, None))
  {
    ghost var before := host.State();
    dash.Logout();
    assert host.window.pending == [Logout];
    ghost var mid := host.State();
    assert mid.store == before.store || mid.store == before.store - {TokenKey, UserKey};
    host.ReceiveAll();
    assert [Logout][1..] == [];
    assert Step(mid, Logout) == Step(before, Logout) by {
      assert mid.store - {TokenKey, UserKey} == before.store - {TokenKey, UserKey};
    }
  }

  /** A host mounted again on the same storage after LOGIN_SUCCESS starts with that session, no message needed. */
  method ReloadAfterLogin(host: Host, token: string, user: User, path: string) returns (again: Host)
    modifies host, host.storage
    ensures again.token == Some(token) && again.user == Some(user) && again.route == path
    ensures InSync(again.State())
  {
    host.OnMessage(LoginSuccess(token, user));
    LoginSurvivesReload(old(host.State()), token, user);
    again := new Host(host.storage, host.window, path);
  }

  /** Two clicks on the bell restore the panel. */
  method ToggleTwice(nav: HomeRemote.Navbar)
    modifies nav`openNotif
    ensures nav.openNotif == old(nav.openNotif)
  {
    nav.ToggleNotifications();
    nav.ToggleNotifications();
  }
}
