/** The guard in front of the admin dashboard. */
module AdminDashboard {
  import opened Wrappers
  import opened Session
  import Login

  /** What `checkUser` decides for the stored session. */
  datatype Decision = RedirectLogin | AccessDenied | Render(user: User)

  /** No session: go to /login; a session whose role is not `admin`: deny; otherwise render for that user. */
  function Guard(items: map<string, User>): (d: Decision)
    ensures d == RedirectLogin <==> UserKey !in items
    ensures d.AccessDenied? <==> UserKey in items && items[UserKey].role != "admin"
    ensures d.Render? <==> UserKey in items && items[UserKey].role == "admin"
    ensures d.Render? ==> d.user == items[UserKey]
  {
    if UserKey !in items then RedirectLogin
    else if items[UserKey].role != "admin" then AccessDenied
    else Render(items[UserKey])
  }

  /** The route a denied or unauthenticated visitor is sent to. */
  function RedirectTarget(d: Decision): (r: Option<string>)
    ensures r.None? <==> d.Render?
    ensures d == RedirectLogin ==> r == Some("/login")
    ensures d == AccessDenied ==> r == Some("/dashboard")
  {
    match d
    case RedirectLogin => Some("/login")
    case AccessDenied => Some("/dashboard")
    case Render(_) => None
  }

  /** The session an admin login writes passes the guard. */
  lemma AdminSessionPasses(items: map<string, User>)
    ensures Guard(items[UserKey := Login.AdminSession]) == Render(Login.AdminSession)
  {
  }

  /** The session a demo login writes is denied. */
  lemma DemoSessionDenied(items: map<string, User>)
    ensures Guard(items[UserKey := Login.DemoSession]) == AccessDenied
  {
  }

  /** After sign-out has removed the key the guard sends the visitor to /login. */
  lemma SignedOutRedirects(items: map<string, User>)
    ensures Guard(items - {UserKey}) == RedirectLogin
  {
  }

  class AdminDashboardPage {
    var loading: bool
    var user: Option<User>

    constructor ()
      ensures loading && user == None
    {
      loading := true;
      user := None;
    }

    /**
     * The mount effect. Both redirects return early, so `loading` stays
     * true and the dashboard is never rendered together with a redirect.
     */
    method CheckUser(storage: Storage) returns (route: Option<string>)
      modifies this
      ensures route == RedirectTarget(Guard(storage.items))
      ensures route.Some? ==> loading == old(loading) && user == old(user)
      ensures route.None? <==> !loading && user.Some? && Guard(storage.items) == Render(user.value)
      ensures old(loading) ==> (route.Some? <==> loading)
    {
      var stored := storage.GetItem(UserKey);
      if stored.None? {
        return Some("/login");
      }
      var u := stored.value;
      if u.role != "admin" {
        // "Access denied" toast
        return Some("/dashboard");
      }
      user := Some(u);
      loading := false;
      route := None;
    }
  }

  /** An admin who signs in through the form and then opens the dashboard sees it. */
  method AdminLoginThenDashboard(form: Login.LoginPage, storage: Storage, page: AdminDashboardPage)
    requires form.email == Login.AdminEmail && form.password == Login.AdminPassword
    requires page.loading
    modifies form, storage, page
    ensures !page.loading && page.user == Some(Login.AdminSession)
  {
    var r := form.HandleLogin(storage, false);
    var g := page.CheckUser(storage);
  }
}
