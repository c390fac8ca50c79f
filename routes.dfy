/**
 * The route-to-role policy: the four mounted routers (auth, doctors,
 * appointments, admin) as one table of (mount point, method, path pattern,
 * access, handler), first-match dispatch over it, and the access gate run in
 * front of every protected handler.
 */
module Routes {
  import opened Http
  import opened UserModel
  import opened Crypto
  import opened AuthMiddleware
  import AC = AppointmentController
  import opened AppointmentModel

  datatype Verb = Get | Post | Put | Delete

  /** A pattern segment: a literal, or a `:param` matching any one segment. */
  datatype Seg = Lit(text: string) | Param

  datatype Handler =
    | RegisterUser | AuthUser
    | GetApprovedDoctors | GetDoctorById
    | BookAppointment | GetMyAppointments | UpdateAppointmentStatus | CancelAppointment
    | GetPendingDoctorApprovals | ApproveDoctor | RejectDoctor

  /** Public routes run no gate; protected ones run protect(roles). */
  datatype Access = Public | Protected(roles: seq<Role>)

  datatype Route = Route(mount: string, verb: Verb, pattern: seq<Seg>, access: Access, handler: Handler)

  const AuthMount := "/api/auth"
  const DoctorsMount := "/api/doctors"
  const AppointmentsMount := "/api/appointments"
  const AdminMount := "/api/admin"

  const AuthRoutes: seq<Route> := [
    Route(AuthMount, Post, [Lit("register")], Public, RegisterUser),
    Route(AuthMount, Post, [Lit("login")], Public, AuthUser)
  ]

  const DoctorRoutes: seq<Route> := [
    Route(DoctorsMount, Get, [], Public, GetApprovedDoctors),
    Route(DoctorsMount, Get, [Param], Public, GetDoctorById)
  ]

  const AppointmentRoutes: seq<Route> := [
    Route(AppointmentsMount, Post, [], Protected([Customer]), BookAppointment),
    Route(AppointmentsMount, Get, [Lit("myappointments")], Protected([Customer, Doctor]), GetMyAppointments),
    Route(AppointmentsMount, Put, [Param, Lit("status")], Protected([Doctor]), UpdateAppointmentStatus),
    Route(AppointmentsMount, Put, [Param, Lit("cancel")], Protected([Customer]), CancelAppointment)
  ]

  const AdminRoutes: seq<Route> := [
    Route(AdminMount, Get, [Lit("doctors"), Lit("pending")], Protected([Admin]), GetPendingDoctorApprovals),
    Route(AdminMount, Put, [Lit("doctors"), Param, Lit("approve")], Protected([Admin]), ApproveDoctor),
    Route(AdminMount, Delete, [Lit("doctors"), Param], Protected([Admin]), RejectDoctor)
  ]

  /** The routers in the order they are mounted. */
  const RouteTable: seq<Route> := AuthRoutes + DoctorRoutes + AppointmentRoutes + AdminRoutes

  /** The roles the policy grants each handler; None is a public handler.
      This is the intended policy, stated apart from the table. */
  function Policy(h: Handler): Option<set<Role>>
  {
    match h
    case RegisterUser | AuthUser | GetApprovedDoctors | GetDoctorById => None
    case BookAppointment | CancelAppointment => Some({Customer})
    case GetMyAppointments => Some({Customer, Doctor})
    case UpdateAppointmentStatus => Some({Doctor})
    case GetPendingDoctorApprovals | ApproveDoctor | RejectDoctor => Some({Admin})
  }

  /** The table grants exactly the policy, and no protected route uses the
      empty (admit-all) role list. */
  lemma TableFollowsPolicy()
    ensures forall r :: r in RouteTable ==>
              match r.access
              case Public => Policy(r.handler) == None
              case Protected(roles) => |roles| > 0 && Policy(r.handler) == Some(set x | x in roles)
  {
    forall r | r in RouteTable
      ensures match r.access
              case Public => Policy(r.handler) == None
              case Protected(roles) => |roles| > 0 && Policy(r.handler) == Some(set x | x in roles)
    {
      if r.access.Protected? {
        var roles := r.access.roles;
        if r.handler == GetMyAppointments {
          assert roles == [Customer, Doctor];
          assert (set x | x in roles) == {Customer, Doctor};
        } else if Policy(r.handler) == Some({Customer}) {
          assert roles == [Customer];
          assert (set x | x in roles) == {Customer};
        } else if Policy(r.handler) == Some({Doctor}) {
          assert roles == [Doctor];
          assert (set x | x in roles) == {Doctor};
        } else {
          assert roles == [Admin];
          assert (set x | x in roles) == {Admin};
        }
      }
    }
  }

  // ------------------------------------------------------------ matching

  /** A segment of a request path: non-empty and free of '/'. */
  predicate SegmentText(s: string)
  {
    s != "" && '/' !in s
  }

  /** The pattern matches the path segments: same length, each literal
      equal, each parameter one whole segment. */
  predicate Matches(pattern: seq<Seg>, segs: seq<string>)
  {
    && |pattern| == |segs|
    && (forall i :: 0 <= i < |segs| ==> SegmentText(segs[i]))
    && (forall i :: 0 <= i < |pattern| && pattern[i].Lit? ==> pattern[i].text == segs[i])
  }

  function RenderSegs(segs: seq<string>): string
  {
    if segs == [] then "" else "/" + segs[0] + RenderSegs(segs[1..])
  }

  /** The router-relative path (req.path) of the segments. */
  function Render(segs: seq<string>): string
  {
    if segs == [] then "/" else RenderSegs(segs)
  }

  datatype Request = Request(verb: Verb, mount: string, segs: seq<string>, authorization: Option<string>)

  predicate RouteMatches(r: Route, verb: Verb, mount: string, segs: seq<string>)
  {
    r.mount == mount && r.verb == verb && Matches(r.pattern, segs)
  }

  /** The first route of the table that matches. */
  function Dispatch(table: seq<Route>, verb: Verb, mount: string, segs: seq<string>): (r: Option<nat>)
    ensures r.Some? ==> r.value < |table| && RouteMatches(table[r.value], verb, mount, segs)
    ensures r.Some? ==> forall j :: 0 <= j < r.value ==> !RouteMatches(table[j], verb, mount, segs)
    ensures r.None? <==> forall j :: 0 <= j < |table| ==> !RouteMatches(table[j], verb, mount, segs)
  {
    if table == [] then None
    else if RouteMatches(table[0], verb, mount, segs) then Some(0)
    else match Dispatch(table[1..], verb, mount, segs)
      case None => None
      case Some(k) => Some(k + 1)
  }

  /** What a request comes to: a handler reached (with the gate's user on a
      protected route), the gate's rejection, or no route at all (the
      notFound middleware is not mounted, so Express answers by itself). */
  datatype Outcome = Reached(handler: Handler, user: Option<AccountView>) | Rejected(error: Error) | NoRoute

  function Handle(req: Request, lib: Library, accounts: map<Id, Account>): (o: Outcome)
    ensures o.NoRoute? <==> forall j :: 0 <= j < |RouteTable| ==> !RouteMatches(RouteTable[j], req.verb, req.mount, req.segs)
    ensures o.Rejected? ==> o.error.status == StatusUnauthorized && o.error.message in {NoToken, TokenFailed}
    ensures o.Reached? ==>
              exists k :: && 0 <= k < |RouteTable| && RouteMatches(RouteTable[k], req.verb, req.mount, req.segs)
                          && RouteTable[k].handler == o.handler
                          && (RouteTable[k].access.Public? <==> o.user.None?)
  {
    match Dispatch(RouteTable, req.verb, req.mount, req.segs)
    case None => NoRoute
    case Some(k) =>
      var route := RouteTable[k];
      match route.access
      case Public => Reached(route.handler, None)
      case Protected(roles) =>
        match Protect(roles, req.authorization, Render(req.segs), lib, accounts)
        case Admit(u) => Reached(route.handler, Some(u))
        case Reject(e) => Rejected(e)
  }

  // ------------------------------------------------------- the guarantees

  /** Every handler is reached only by the roles the policy grants: public
      ones without a user, protected ones by an account whose role is in
      the policy's set. */
  lemma ReachOnlyByPolicy(req: Request, lib: Library, accounts: map<Id, Account>)
    ensures var o := Handle(req, lib, accounts);
            o.Reached? ==>
              && (Policy(o.handler).None? <==> o.user.None?)
              && (o.user.Some? ==> o.user.value.role in Policy(o.handler).value)
  {
    TableFollowsPolicy();
    var o := Handle(req, lib, accounts);
    if o.Reached? {
      var k := Dispatch(RouteTable, req.verb, req.mount, req.segs).value;
      assert RouteTable[k] in RouteTable;
    }
  }

  /** No admin reaches an appointment handler. */
  lemma NoAdminOnAppointmentRoutes(req: Request, lib: Library, accounts: map<Id, Account>)
    ensures var o := Handle(req, lib, accounts);
            o.Reached? && o.handler in {BookAppointment, GetMyAppointments, UpdateAppointmentStatus, CancelAppointment}
            ==> o.user.Some? && o.user.value.role != Admin
  {
    ReachOnlyByPolicy(req, lib, accounts);
  }

  /** Only admins reach an admin handler; an approved doctor does not. */
  lemma OnlyAdminsOnAdminRoutes(req: Request, lib: Library, accounts: map<Id, Account>)
    ensures var o := Handle(req, lib, accounts);
            o.Reached? && o.handler in {GetPendingDoctorApprovals, ApproveDoctor, RejectDoctor}
            ==> o.user.Some? && o.user.value.role == Admin
  {
    ReachOnlyByPolicy(req, lib, accounts);
    var o := Handle(req, lib, accounts);
    if o.Reached? && o.handler in {GetPendingDoctorApprovals, ApproveDoctor, RejectDoctor} {
      assert Policy(o.handler) == Some({Admin});
    }
  }

  /** So the 403 of getMyAppointments for other roles never happens through
      the table: whoever reaches it gets the list. */
  lemma MyAppointmentsNeverForbidden(req: Request, lib: Library, accounts: map<Id, Account>,
                                     appointments: map<Id, Appointment>)
    requires Handle(req, lib, accounts).Reached? && Handle(req, lib, accounts).handler == GetMyAppointments
    ensures Handle(req, lib, accounts).user.Some?
    ensures AC.GetMyAppointments(accounts, appointments, Handle(req, lib, accounts).user.value).Ok?
  {
    NoAdminOnAppointmentRoutes(req, lib, accounts);
  }

  const PendingPathLength := |PendingListPath|

  /** "/<id>/status" never contains "/doctors/pending": the text has a '/'
      only at both ends of the id, and the pattern needs one 8 characters
      apart. */
  lemma StatusPathAvoidsPendingList(id: string)
    requires SegmentText(id)
    ensures !Includes("/" + id + "/status", PendingListPath)
  {
    forall i | 0 <= i <= |"/" + id + "/status"|
      ensures !OccursAt("/" + id + "/status", PendingListPath, i)
    {
      NotAtOffset(id, i);
    }
  }

  lemma NotAtOffset(id: string, i: nat)
    requires SegmentText(id)
    ensures !OccursAt("/" + id + "/status", PendingListPath, i)
  {
    var s := "/" + id + "/status";
    if i + 16 <= |s| {
      if i == 0 {
        assert s[8] == id[7];
        assert s[..16][8] == s[8];
      } else {
        assert s[i] == id[i - 1];
        assert s[i..i + 16][0] == s[i];
      }
    }
  }

  /** The request paths a doctor can be admitted on contain no
      "/doctors/pending", so the approval bypass never applies to them. */
  lemma DoctorRoutePathsAvoidPendingList(req: Request, k: nat)
    requires k < |RouteTable| && RouteMatches(RouteTable[k], req.verb, req.mount, req.segs)
    requires RouteTable[k].access.Protected? && Doctor in RouteTable[k].access.roles
    ensures !Includes(Render(req.segs), PendingListPath)
  {
    if RouteTable[k].handler == GetMyAppointments {
      assert req.segs == ["myappointments"];
      assert req.segs[1..] == [];
      assert RenderSegs(req.segs[1..]) == "";
      assert Render(req.segs) == "/" + req.segs[0];
      assert |Render(req.segs)| < |PendingListPath|;
    } else {
      assert RouteTable[k].handler == UpdateAppointmentStatus;
      var id := req.segs[0];
      assert req.segs[1..] == ["status"] && req.segs[1..][1..] == [];
      assert RenderSegs(req.segs[1..]) == "/status";
      assert Render(req.segs) == "/" + id + "/status";
      StatusPathAvoidsPendingList(id);
    }
  }

  /** An unapproved doctor reaches no protected handler at all: the only
      route whose paths contain "/doctors/pending" is for admins. */
  lemma UnapprovedDoctorNeverAdmitted(req: Request, lib: Library, accounts: map<Id, Account>)
    ensures var o := Handle(req, lib, accounts);
            o.Reached? && o.user.Some? && o.user.value.role == Doctor ==> o.user.value.isApproved
  {
    var o := Handle(req, lib, accounts);
    if o.Reached? && o.user.Some? && o.user.value.role == Doctor {
      var k := Dispatch(RouteTable, req.verb, req.mount, req.segs).value;
      TableFollowsPolicy();
      assert RouteTable[k] in RouteTable;
      var roles := RouteTable[k].access.roles;
      assert Protect(roles, req.authorization, Render(req.segs), lib, accounts) == Admit(o.user.value);
      assert Doctor in roles;
      DoctorRoutePathsAvoidPendingList(req, k);
    }
  }

  /** The converse of the policy: an approved doctor, a customer or an admin
      holding a token for their account reaches every handler the policy
      grants their role, on any path of its route. */
  lemma GrantedRolesAreAdmitted(req: Request, lib: Library, accounts: map<Id, Account>, id: Id, k: nat)
    requires VerifiesOwnTokens(lib) && TokensAreWords(lib)
    requires id in accounts && (accounts[id].role == Doctor ==> accounts[id].isApproved)
    requires Dispatch(RouteTable, req.verb, req.mount, req.segs) == Some(k)
    requires Policy(RouteTable[k].handler).Some? && accounts[id].role in Policy(RouteTable[k].handler).value
    requires req.authorization == Some(BearerHeader(lib.sign(Claims(id, accounts[id].role))))
    ensures Handle(req, lib, accounts) == Reached(RouteTable[k].handler, Some(View(id, accounts[id])))
  {
    TableFollowsPolicy();
    assert RouteTable[k] in RouteTable;
    var roles := RouteTable[k].access.roles;
    assert accounts[id].role in roles;
    IssuedTokenAdmits(roles, Render(req.segs), lib, accounts, id);
  }
}
