/**
 * Sequences of state-changing requests. The server handles one request at
 * a time, so a run of handlers is a fold of the controller functions over
 * the tables. The lemmas here are about runs: the table invariant, slot
 * uniqueness, and the life of a doctor account through registration,
 * approval and rejection.
 */
module Ledger {
  import opened Http
  import opened UserModel
  import opened AppointmentModel
  import opened Crypto
  import opened Database
  import Auth = AuthController
  import Appt = AppointmentController
  import AdminCtl = AdminController
  import UserCtl = UserController
  import DoctorCtl = DoctorController

  /** One state-changing request, with its authenticated caller. */
  datatype Call =
    | Register(req: Auth.RegisterRequest)
    | Book(caller: Id, booking: Appt.BookingRequest)
    | UpdateStatus(doctor: Id, appointmentId: Id, update: Appt.StatusUpdate)
    | Cancel(customer: Id, appointmentId: Id)
    | Approve(doctorId: Id)
    | Reject(doctorId: Id)
    | UpdateProfile(user: Id, profile: UserCtl.ProfileUpdate)

  /** The tables after one call. */
  function Apply(db: Db, lib: Library, c: Call): (r: Db)
    requires Valid(db)
    ensures Valid(r)
    ensures c.Register? || c.Approve? || c.Reject? || c.UpdateProfile? ==> r.appointments == db.appointments
    ensures c.Book? || c.UpdateStatus? || c.Cancel? ==> r.accounts == db.accounts
  {
    match c
    case Register(req) => Auth.RegisterUser(db, lib, req).db
    case Book(caller, b) => Appt.BookAppointment(db, caller, b).db
    case UpdateStatus(d, id, u) => Appt.UpdateAppointmentStatus(db, d, id, u).db
    case Cancel(cu, id) => Appt.CancelAppointment(db, cu, id).db
    case Approve(id) => AdminCtl.ApproveDoctor(db, id).db
    case Reject(id) => AdminCtl.RejectDoctor(db, id).db
    case UpdateProfile(user, p) => UserCtl.UpdateUserProfile(db, lib, user, p).db
  }

  /** The tables after a run of calls, one after the other. */
  function Run(db: Db, lib: Library, calls: seq<Call>): (r: Db)
    requires Valid(db)
    ensures Valid(r)
    decreases |calls|
  {
    if calls == [] then db else Run(Apply(db, lib, calls[0]), lib, calls[1..])
  }

  /** The call, made on the tables `db`, does not re-activate an inactive
      appointment. */
  predicate NoReactivation(db: Db, c: Call)
  {
    c.UpdateStatus? ==> !Appt.Reactivates(db.appointments, c.doctor, c.appointmentId, c.update)
  }

  /** No call of the run re-activates an inactive appointment, each judged
      on the tables the calls before it leave. */
  predicate RunNoReactivation(db: Db, lib: Library, calls: seq<Call>)
    requires Valid(db)
    decreases |calls|
  {
    calls == [] || (NoReactivation(db, calls[0]) && RunNoReactivation(Apply(db, lib, calls[0]), lib, calls[1..]))
  }

  lemma ApplyKeepsSlotUnique(db: Db, lib: Library, c: Call)
    requires Valid(db) && Appt.SlotUnique(db.appointments) && NoReactivation(db, c)
    ensures Appt.SlotUnique(Apply(db, lib, c).appointments)
  {
    match c
    case UpdateStatus(d, id, u) => Appt.StatusUpdateKeepsSlotUnique(db, d, id, u);
    case _ =>
  }

  /** Under sequential calls, at most one pending or scheduled appointment
      holds each (doctor, date, time), provided no doctor re-activates an
      inactive appointment. */
  lemma {:induction false} RunKeepsSlotUnique(db: Db, lib: Library, calls: seq<Call>)
    requires Valid(db) && Appt.SlotUnique(db.appointments)
    requires RunNoReactivation(db, lib, calls)
    ensures Appt.SlotUnique(Run(db, lib, calls).appointments)
    decreases |calls|
  {
    if calls != [] {
      ApplyKeepsSlotUnique(db, lib, calls[0]);
      RunKeepsSlotUnique(Apply(db, lib, calls[0]), lib, calls[1..]);
    }
  }

  /** From the empty database, any run with no re-activation keeps every
      slot single. */
  lemma FromEmptySlotsStaySingle(lib: Library, calls: seq<Call>)
    requires RunNoReactivation(Empty, lib, calls)
    ensures Appt.SlotUnique(Run(Empty, lib, calls).appointments)
  {
    EmptyValid();
    RunKeepsSlotUnique(Empty, lib, calls);
  }

  // ------------------------------------------------------- the directory

  /** Every doctor is on exactly one of the public list and the pending
      list; no other account is on either. */
  lemma DoctorListsPartition(accounts: map<Id, Account>, id: Id)
    ensures id in DoctorCtl.GetApprovedDoctors(accounts) && id in AdminCtl.GetPendingDoctorApprovals(accounts)
            ==> false
    ensures id in accounts && accounts[id].role == Doctor <==>
              id in DoctorCtl.GetApprovedDoctors(accounts) || id in AdminCtl.GetPendingDoctorApprovals(accounts)
  {
  }

  /** Approval moves a pending doctor from the pending list to the public
      list and leaves every other entry of both lists as it was. */
  lemma ApproveMovesBetweenLists(db: Db, id: Id)
    requires Valid(db)
    requires id in AdminCtl.GetPendingDoctorApprovals(db.accounts)
    ensures var db1 := AdminCtl.ApproveDoctor(db, id).db;
            && AdminCtl.GetPendingDoctorApprovals(db1.accounts) == AdminCtl.GetPendingDoctorApprovals(db.accounts) - {id}
            && DoctorCtl.GetApprovedDoctors(db1.accounts)
               == DoctorCtl.GetApprovedDoctors(db.accounts)[id := View(id, db1.accounts[id])]
  {
    var db1 := AdminCtl.ApproveDoctor(db, id).db;
    assert AdminCtl.GetPendingDoctorApprovals(db1.accounts) == AdminCtl.GetPendingDoctorApprovals(db.accounts) - {id};
    assert DoctorCtl.GetApprovedDoctors(db1.accounts)
           == DoctorCtl.GetApprovedDoctors(db.accounts)[id := View(id, db1.accounts[id])];
  }

  /** Rejection takes the doctor off both lists. */
  lemma RejectRemovesFromLists(db: Db, id: Id)
    requires Valid(db)
    requires AdminCtl.RejectDoctor(db, id).result.Ok?
    ensures var db1 := AdminCtl.RejectDoctor(db, id).db;
            && AdminCtl.GetPendingDoctorApprovals(db1.accounts) == AdminCtl.GetPendingDoctorApprovals(db.accounts) - {id}
            && DoctorCtl.GetApprovedDoctors(db1.accounts) == DoctorCtl.GetApprovedDoctors(db.accounts) - {id}
  {
    var db1 := AdminCtl.RejectDoctor(db, id).db;
    assert AdminCtl.GetPendingDoctorApprovals(db1.accounts) == AdminCtl.GetPendingDoctorApprovals(db.accounts) - {id};
    assert DoctorCtl.GetApprovedDoctors(db1.accounts) == DoctorCtl.GetApprovedDoctors(db.accounts) - {id};
  }

  /** The life of a doctor account: after registering, the doctor is on the
      pending list and login says the account is pending; after approval the
      same credentials log in with the id and role of the account; after a
      rejection instead, they get the generic 401. */
  lemma {:induction false} DoctorLifecycle(db: Db, lib: Library, req: Auth.RegisterRequest)
    requires Valid(db) && HashMatches(lib)
    requires req.role == "doctor"
    requires Auth.RegisterUser(db, lib, req).result.Ok?
    ensures var reg := Auth.RegisterUser(db, lib, req);
            var id := reg.result.value.id;
            && id in AdminCtl.GetPendingDoctorApprovals(reg.db.accounts)
            && Auth.AuthUser(reg.db.accounts, lib, req.email, Some(req.password))
               == Fail(Error(StatusUnauthorized, Auth.PendingApproval))
            && var approved := AdminCtl.ApproveDoctor(reg.db, id).db;
               && id in DoctorCtl.GetApprovedDoctors(approved.accounts)
               && Auth.AuthUser(approved.accounts, lib, req.email, Some(req.password))
                  == Ok(Auth.LoginResponse(id, req.name, req.email, Doctor, Auth.GenerateToken(lib, id, Doctor)))
    ensures var reg := Auth.RegisterUser(db, lib, req);
            var rejected := AdminCtl.RejectDoctor(reg.db, reg.result.value.id).db;
            Auth.AuthUser(rejected.accounts, lib, req.email, Some(req.password))
            == Fail(Error(StatusUnauthorized, Auth.InvalidCredentials))
  {
    var reg := Auth.RegisterUser(db, lib, req);
    var id := reg.result.value.id;
    Auth.LoginAfterRegister(db, lib, req);
    Auth.RegisteredAccountShape(req, lib.hash);
    var a := reg.db.accounts[id];
    assert a.role == Doctor && !a.isApproved && a.email == req.email && a.name == req.name;
    assert MatchPassword(lib, req.password, a);

    var approved := AdminCtl.ApproveDoctor(reg.db, id).db;
    assert approved.accounts[id] == a.(isApproved := true);

    var rejected := AdminCtl.RejectDoctor(reg.db, id).db;
    assert !Auth.EmailRegistered(rejected.accounts, req.email) by {
      forall j | j in rejected.accounts ensures rejected.accounts[j].email != req.email {
        assert j in reg.db.accounts && j != id;
      }
    }
  }
}
