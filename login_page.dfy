/**
 * The login form (LoginPage.js): on a successful reply the session is set
 * from the reply and the browser is sent to the dashboard of the role; on a
 * failure only the error is shown. Either way loading ends.
 */
module LoginPage {
  import opened Http
  import opened AuthContext
  import opened AppRouter
  import UserModel

  const LoginFallback := "Login failed. Please check your credentials."

  /** The hash the form sends each role to. */
  function RedirectFor(role: string): (hash: string)
    ensures role == "customer" ==> hash == UserDashboardHash
    ensures role == "doctor" ==> hash == DoctorDashboardHash
    ensures role == "admin" ==> hash == AdminDashboardHash
    ensures role !in {"customer", "doctor", "admin"} ==> hash == "#"
  {
    if role == "customer" then UserDashboardHash
    else if role == "doctor" then DoctorDashboardHash
    else if role == "admin" then AdminDashboardHash
    else "#"
  }

  /** The dashboard each server role has. */
  function DashboardOf(role: UserModel.Role): Page
  {
    match role
    case Customer => UserDashboard
    case Doctor => DoctorDashboard
    case Admin => AdminDashboard
  }

  /** For every role the server hands out, the redirect lands on a hash whose
      guard admits that role once the session is set: the user sees the
      role's dashboard, not the login page. */
  lemma RedirectIsAdmitted(role: UserModel.Role, id: string, name: string, email: string, token: string)
    requires token != ""
    ensures var s := Session(Some(UserData(id, name, email, UserModel.RoleName(role))), token);
            RenderContent(RedirectFor(UserModel.RoleName(role)), DeriveFlags(s)) == DashboardOf(role)
  {
  }

  /** With no token in the reply, every redirect shows the login page or the
      home page. */
  lemma NoTokenNoDashboard(u: UserData)
    ensures RenderContent(RedirectFor(u.role), DeriveFlags(Session(Some(u), ""))) in {LoginPage, HomePage}
  {
  }

  /** The server's reply to POST /api/auth/login: the body of a success, or
      a failure with the body's message ('' when there is none). */
  datatype LoginReply =
    | LoginOk(id: string, name: string, email: string, role: string, token: string)
    | LoginFailed(message: string)

  class LoginForm {
    var error: string
    var loading: bool
    /** window.location.hash */
    var hash: string

    constructor (hash: string)
      ensures error == "" && !loading && this.hash == hash
    {
      error := "";
      loading := false;
      this.hash := hash;
    }

    /** handleSubmit, given the reply the request came back with. */
    method HandleSubmit(reply: LoginReply, auth: AuthProvider)
      modifies this, auth
      ensures !loading
      ensures reply.LoginOk? ==>
                && error == ""
                && auth.user == Some(UserData(reply.id, reply.name, reply.email, reply.role))
                && auth.token == reply.token
                && auth.storedUser == Entry(auth.user) && auth.storedToken == reply.token
                && hash == RedirectFor(reply.role)
      ensures reply.LoginFailed? ==>
                && error == OrElse(reply.message, LoginFallback)
                && hash == old(hash)
                && unchanged(auth)
    {
      error := "";
      loading := true;
      match reply {
        case LoginOk(id, name, email, role, token) =>
          auth.Login(UserData(id, name, email, role), token);
          hash := RedirectFor(role);
        case LoginFailed(message) =>
          error := OrElse(message, LoginFallback);
      }
      loading := false;
    }
  }
}
