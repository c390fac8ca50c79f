/**
 * The client's hash router (App.js): which page the current location hash
 * shows, given the session flags.
 */
module AppRouter {
  import opened AuthContext

  datatype Page = LoginPage | RegisterPage | UserDashboard | DoctorDashboard | AdminDashboard | HomePage

  const LoginHash := "#login"
  const RegisterHash := "#register"
  const UserDashboardHash := "#user-dashboard"
  const DoctorDashboardHash := "#doctor-dashboard"
  const AdminDashboardHash := "#admin-dashboard"

  /** renderContent: the login and register pages for anyone, each dashboard
      only for an authenticated user of its role (the login page otherwise),
      the home page for every other hash. */
  function RenderContent(hash: string, f: Flags): (p: Page)
    ensures p == UserDashboard ==> hash == UserDashboardHash && f.isAuthenticated && f.isCustomer
    ensures p == DoctorDashboard ==> hash == DoctorDashboardHash && f.isAuthenticated && f.isDoctor
    ensures p == AdminDashboard ==> hash == AdminDashboardHash && f.isAuthenticated && f.isAdmin
    ensures p == LoginPage ==> hash == LoginHash || DashboardHash(hash)
    ensures p == RegisterPage <==> hash == RegisterHash
  {
    if hash == LoginHash then LoginPage
    else if hash == RegisterHash then RegisterPage
    else if hash == UserDashboardHash then (if f.isAuthenticated && f.isCustomer then UserDashboard else LoginPage)
    else if hash == DoctorDashboardHash then (if f.isAuthenticated && f.isDoctor then DoctorDashboard else LoginPage)
    else if hash == AdminDashboardHash then (if f.isAuthenticated && f.isAdmin then AdminDashboard else LoginPage)
    else HomePage
  }

  predicate DashboardHash(hash: string)
  {
    hash in {UserDashboardHash, DoctorDashboardHash, AdminDashboardHash}
  }

  /** Each page, characterised by the hash and the session alone. */
  lemma PageConditions(hash: string, s: Session)
    ensures var p := RenderContent(hash, DeriveFlags(s));
            var signedIn := s.user.Some? && s.token != "";
            && (p == UserDashboard <==> hash == UserDashboardHash && signedIn && s.user.value.role == "customer")
            && (p == DoctorDashboard <==> hash == DoctorDashboardHash && signedIn && s.user.value.role == "doctor")
            && (p == AdminDashboard <==> hash == AdminDashboardHash && signedIn && s.user.value.role == "admin")
            && (p == RegisterPage <==> hash == RegisterHash)
            && (p == HomePage <==> hash != LoginHash && hash != RegisterHash && !DashboardHash(hash))
            && (p == LoginPage <==> hash == LoginHash || (DashboardHash(hash) && p !in {UserDashboard, DoctorDashboard, AdminDashboard}))
  {
  }

  /** Signed out, no dashboard is ever shown. */
  lemma SignedOutSeesNoDashboard(hash: string)
    ensures RenderContent(hash, DeriveFlags(SignedOut)) !in {UserDashboard, DoctorDashboard, AdminDashboard}
  {
  }

  /** The application holding the current hash. */
  class App {
    var hash: string

    constructor (initial: string)
      ensures hash == initial
    {
      hash := initial;
    }

    /** The hashchange listener. */
    method HashChanged(newHash: string)
      modifies this
      ensures hash == newHash
    {
      hash := newHash;
    }

    function Content(auth: AuthProvider): Page
      reads this, auth
    {
      RenderContent(hash, auth.CurrentFlags())
    }
  }
}
