/** The site navigation bar: the signed-in account, the links it offers, sign-out and the mobile menu. */
module Navbar {
  import opened Wrappers
  import opened Session
  import AdminDashboard

  /** The routes `renderAuthButtons` links to; the mobile menu makes the same choice. */
  function AuthLinks(user: Option<User>): (r: seq<string>)
    ensures user.None? ==> r == ["/login", "/register"]
    ensures user.Some? ==> |r| == 1
    ensures "/admin/dashboard" in r <==> user.Some? && user.value.role == "admin"
    ensures "/dashboard" in r <==> user.Some? && user.value.role != "admin"
    ensures "/login" in r <==> user.None?
  {
    if user.None? then ["/login", "/register"]
    else if user.value.role == "admin" then ["/admin/dashboard"]
    else ["/dashboard"]
  }

  /** Only a signed-in account is offered the sign-out button. */
  function ShowsSignOut(user: Option<User>): (r: bool)
    ensures r <==> "/login" !in AuthLinks(user)
  {
    user.Some?
  }

  /** The navbar offers the admin link to exactly the sessions the admin guard lets in. */
  lemma AdminLinkMatchesGuard(items: map<string, User>)
    requires UserKey in items
    ensures "/admin/dashboard" in AuthLinks(Some(items[UserKey])) <==> AdminDashboard.Guard(items).Render?
  {
  }

  class NavbarState {
    var user: Option<User>
    var isMenuOpen: bool

    constructor ()
      ensures user == None && !isMenuOpen
    {
      user := None;
      isMenuOpen := false;
    }

    /** `checkUser`: takes the stored account when there is one, and otherwise keeps the current one. */
    method CheckUser(storage: Storage)
      modifies this
      ensures UserKey in storage.items ==> user == Some(storage.items[UserKey])
      ensures UserKey !in storage.items ==> user == old(user)
      ensures isMenuOpen == old(isMenuOpen)
    {
      var stored := storage.GetItem(UserKey);
      if stored.Some? {
        user := stored;
      }
    }

    /** `handleSignOut`: drops the stored account and the user, then goes home. */
    method SignOut(storage: Storage) returns (route: string)
      modifies this, storage
      ensures storage.items == old(storage.items) - {UserKey}
      ensures user == None && isMenuOpen == old(isMenuOpen)
      ensures route == "/"
    {
      storage.RemoveItem(UserKey);
      user := None;
      route := "/";
    }

    /** The menu button. */
    method ToggleMenu()
      modifies this
      ensures isMenuOpen == !old(isMenuOpen) && user == old(user)
    {
      isMenuOpen := !isMenuOpen;
    }
  }

  /** Two clicks on the menu button leave it as it was. */
  method ToggleTwice(nav: NavbarState)
    modifies nav
    ensures nav.isMenuOpen == old(nav.isMenuOpen) && nav.user == old(nav.user)
  {
    nav.ToggleMenu();
    nav.ToggleMenu();
  }

  /** After signing out the navbar offers log in and sign up, and the admin guard sends visitors to /login. */
  method SignOutThenGuard(nav: NavbarState, storage: Storage)
    modifies nav, storage
    ensures AuthLinks(nav.user) == ["/login", "/register"]
    ensures AdminDashboard.Guard(storage.items) == AdminDashboard.RedirectLogin
  {
    var route := nav.SignOut(storage);
    nav.CheckUser(storage);
  }
}
