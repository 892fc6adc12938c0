/**
 * The login form: two hard-coded accounts that are signed in locally by
 * writing a session under `user`, and a remote sign-in for everything else.
 */
module Login {
  import opened Wrappers
  import opened Session

  const AdminEmail := "admin@buildify.com"
  const AdminPassword := "admin123"
  const DemoEmail := "demo@buildify.com"
  const DemoPassword := "demo123"

  /** The session an admin login stores. */
  const AdminSession := User("admin-user-id", AdminEmail, "admin", "Admin User")
  /** The session a demo login stores. */
  const DemoSession := User("demo-user-id", DemoEmail, "user", "Demo User")

  /** Which branch of `handleLogin` a pair of credentials takes. */
  datatype Attempt = AdminLogin | DemoLogin | RemoteLogin

  /** Only the exact admin pair and the exact demo pair are handled locally; any other pair goes to the remote call. */
  function Dispatch(email: string, password: string): (a: Attempt)
    ensures a == AdminLogin <==> email == AdminEmail && password == AdminPassword
    ensures a == DemoLogin <==> email == DemoEmail && password == DemoPassword
    ensures a == RemoteLogin <==>
      (!(email == AdminEmail && password == AdminPassword) && !(email == DemoEmail && password == DemoPassword))
  {
    if email == AdminEmail && password == AdminPassword then AdminLogin
    else if email == DemoEmail && password == DemoPassword then DemoLogin
    else RemoteLogin
  }

  /** A mixed pair, the admin email with the demo password, is not a local login. */
  lemma MixedPairGoesRemote()
    ensures Dispatch(AdminEmail, DemoPassword) == RemoteLogin
    ensures Dispatch(DemoEmail, AdminPassword) == RemoteLogin
  {
  }

  /** Where a login ends up: the route it navigates to, or none when it fails. */
  function LoginRoute(email: string, password: string, remoteOk: bool): (r: Option<string>)
    ensures Dispatch(email, password) == AdminLogin ==> r == Some("/admin/dashboard")
    ensures Dispatch(email, password) == DemoLogin ==> r == Some("/dashboard")
    ensures Dispatch(email, password) == RemoteLogin ==> (r.Some? <==> remoteOk)
    ensures r.Some? ==> r.value in {"/admin/dashboard", "/dashboard"}
  {
    match Dispatch(email, password)
    case AdminLogin => Some("/admin/dashboard")
    case DemoLogin => Some("/dashboard")
    case RemoteLogin => if remoteOk then Some("/dashboard") else None
  }

  class LoginPage {
    var email: string
    var password: string
    var loading: bool

    constructor ()
      ensures email == "" && password == "" && !loading
    {
      email := "";
      password := "";
      loading := false;
    }

    /**
     * `handleLogin`. `remoteOk` is the outcome of the remote sign-in, asked
     * only when the pair is not one of the two local accounts. A local
     * login stores its session; a remote one writes nothing. The `finally`
     * block clears `loading` on every path.
     */
    method HandleLogin(storage: Storage, remoteOk: bool) returns (route: Option<string>)
      modifies this, storage
      ensures !loading && email == old(email) && password == old(password)
      ensures route == LoginRoute(email, password, remoteOk)
      ensures Dispatch(email, password) == AdminLogin ==> storage.items == old(storage.items)[UserKey := AdminSession]
      ensures Dispatch(email, password) == DemoLogin ==> storage.items == old(storage.items)[UserKey := DemoSession]
      ensures Dispatch(email, password) == RemoteLogin ==> storage.items == old(storage.items)
    {
      loading := true;
      if email == AdminEmail && password == AdminPassword {
        storage.SetItem(UserKey, AdminSession);
        route := Some("/admin/dashboard");
      } else if email == DemoEmail && password == DemoPassword {
        storage.SetItem(UserKey, DemoSession);
        route := Some("/dashboard");
      } else if remoteOk {
        route := Some("/dashboard");
      } else {
        // the error is shown as a toast and nothing navigates
        route := None;
      }
      // finally
      loading := false;
    }

    /** `handleDemoLogin`: fills in the demo account. */
    method FillDemo()
      modifies this
      ensures email == DemoEmail && password == DemoPassword && loading == old(loading)
      ensures Dispatch(email, password) == DemoLogin
    {
      email := DemoEmail;
      password := DemoPassword;
    }

    /** `handleAdminLogin`: fills in the admin account. */
    method FillAdmin()
      modifies this
      ensures email == AdminEmail && password == AdminPassword && loading == old(loading)
      ensures Dispatch(email, password) == AdminLogin
    {
      email := AdminEmail;
      password := AdminPassword;
    }
  }
}
