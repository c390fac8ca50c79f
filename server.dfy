/**
 * The server's store: the two collections held in fields, updated in place
 * by one method per state-changing handler. Each method is proved to leave
 * exactly the tables (and return exactly the reply) of the corresponding
 * controller function, so every property proved there holds of the store.
 */
module Server {
  import opened Http
  import opened UserModel
  import opened AppointmentModel
  import opened Crypto
  import opened Database
  import Auth = AuthController
  import Appt = AppointmentController
  import AdminCtl = AdminController
  import UserCtl = UserController

  class Store {
    var accounts: map<Id, Account>
    var appointments: map<Id, Appointment>
    var nextId: nat
    const lib: Library

    ghost function State(): Db
      reads this
    {
      Db(accounts, appointments, nextId)
    }

    ghost predicate Valid()
      reads this
    {
      Database.Valid(State())
    }

    /** connectDB: the store attaches to the collections as the database
        holds them, whatever earlier runs left there. */
    constructor (db: Db, lib: Library)
      requires Database.Valid(db)
      ensures Valid() && State() == db && this.lib == lib
    {
      accounts := db.accounts;
      appointments := db.appointments;
      nextId := db.nextId;
      this.lib := lib;
    }

    /** A fresh id, taken from the counter. */
    method NewId() returns (id: Id)
      requires Valid()
      modifies this
      ensures Valid()
      ensures id == old(nextId) && nextId == old(nextId) + 1
      ensures id !in accounts && id !in appointments
      ensures accounts == old(accounts) && appointments == old(appointments)
    {
      id := nextId;
      nextId := nextId + 1;
    }

    /** POST /api/auth/register */
    method RegisterUser(req: Auth.RegisterRequest) returns (r: Result<Auth.RegisterResponse>)
      requires Valid()
      modifies this
      ensures Valid()
      ensures Step(r, State()) == Auth.RegisterUser(old(State()), lib, req)
    {
      if Auth.EmailRegistered(accounts, req.email) {
        return Fail(Error(StatusBadRequest, Auth.EmailTaken));
      }
      var created := CreateAccount(Auth.RegistrationFields(req), lib.hash);
      if created.None? {
        return Fail(Error(StatusServerError, Auth.UserValidationFailed));
      }
      var a := created.value;
      var id := NewId();
      accounts := accounts[id := a];
      r := Ok(Auth.RegisterResponse(id, a.name, a.email, a.role, a.isApproved, a.specialty, a.location,
                                    Auth.GenerateToken(lib, id, a.role), Auth.RegistrationMessage(a.role)));
    }

    /** POST /api/auth/login: a read-only lookup. */
    method AuthUser(email: string, password: Option<string>) returns (r: Result<Auth.LoginResponse>)
      requires Valid()
      ensures r == Auth.AuthUser(accounts, lib, email, password)
    {
      if !Auth.EmailRegistered(accounts, email) {
        return Fail(Error(StatusUnauthorized, Auth.InvalidCredentials));
      }
      var id :| id in accounts && accounts[id].email == email;
      var a := accounts[id];
      if password.None? {
        r := Fail(Error(StatusServerError, Auth.IllegalArguments));
      } else if !MatchPassword(lib, password.value, a) {
        r := Fail(Error(StatusUnauthorized, Auth.InvalidCredentials));
      } else if a.role == Doctor && !a.isApproved {
        r := Fail(Error(StatusUnauthorized, Auth.PendingApproval));
      } else {
        r := Ok(Auth.LoginResponse(id, a.name, a.email, a.role, Auth.GenerateToken(lib, id, a.role)));
      }
    }

    /** POST /api/appointments */
    method BookAppointment(caller: Id, req: Appt.BookingRequest) returns (r: Result<Appt.BookingReceipt>)
      requires Valid()
      modifies this
      ensures Valid()
      ensures Step(r, State()) == Appt.BookAppointment(old(State()), caller, req)
    {
      if req.doctorId !in accounts {
        return Fail(Error(StatusNotFound, Appt.DoctorNotFound));
      }
      if !Appt.Bookable(accounts[req.doctorId]) {
        return Fail(Error(StatusBadRequest, Appt.DoctorNotBookable));
      }
      if Appt.SlotTaken(appointments, req.doctorId, req.date, req.time) {
        return Fail(Error(StatusBadRequest, Appt.SlotTakenMessage));
      }
      var created := CreateAppointment(Appt.BookingFields(caller, req));
      if created.None? {
        return Fail(Error(StatusServerError, Appt.AppointmentValidationFailed));
      }
      var id := NewId();
      appointments := appointments[id := created.value];
      r := Ok(Appt.BookingReceipt(Appt.BookedMessage, id));
    }

    /** PUT /api/appointments/:id/status */
    method UpdateAppointmentStatus(caller: Id, appointmentId: Id, u: Appt.StatusUpdate)
      returns (r: Result<Appt.AppointmentReply>)
      requires Valid()
      modifies this
      ensures Valid()
      ensures Step(r, State()) == Appt.UpdateAppointmentStatus(old(State()), caller, appointmentId, u)
    {
      if appointmentId !in appointments {
        return Fail(Error(StatusNotFound, Appt.AppointmentNotFound));
      }
      var a := appointments[appointmentId];
      if a.doctor != caller {
        return Fail(Error(StatusUnauthorized, Appt.UpdateForbidden));
      }
      if u.status != "" {
        var s := ParseStatus(u.status);
        if s.None? {
          return Fail(Error(StatusServerError, Appt.AppointmentValidationFailed));
        }
        a := a.(status := s.value);
      }
      if u.doctorNotes.Some? {
        a := a.(doctorNotes := u.doctorNotes.value);
      }
      if u.visitSummary.Some? {
        a := a.(visitSummary := u.visitSummary.value);
      }
      appointments := appointments[appointmentId := a];
      r := Ok(Appt.AppointmentReply(Appt.UpdatedMessage, a));
    }

    /** PUT /api/appointments/:id/cancel */
    method CancelAppointment(caller: Id, appointmentId: Id) returns (r: Result<Appt.AppointmentReply>)
      requires Valid()
      modifies this
      ensures Valid()
      ensures Step(r, State()) == Appt.CancelAppointment(old(State()), caller, appointmentId)
    {
      if appointmentId !in appointments {
        return Fail(Error(StatusNotFound, Appt.AppointmentNotFound));
      }
      if appointments[appointmentId].customer != caller {
        return Fail(Error(StatusUnauthorized, Appt.CancelForbidden));
      }
      var a := appointments[appointmentId].(status := Cancelled);
      appointments := appointments[appointmentId := a];
      r := Ok(Appt.AppointmentReply(Appt.CancelledMessage, a));
    }

    /** PUT /api/admin/doctors/:id/approve */
    method ApproveDoctor(id: Id) returns (r: Result<AdminCtl.AdminReply>)
      requires Valid()
      modifies this
      ensures Valid()
      ensures Step(r, State()) == AdminCtl.ApproveDoctor(old(State()), id)
    {
      if id !in accounts {
        return Fail(Error(StatusNotFound, AdminCtl.DoctorNotFound));
      }
      if accounts[id].role != Doctor {
        return Fail(Error(StatusBadRequest, AdminCtl.NotADoctor));
      }
      accounts := accounts[id := accounts[id].(isApproved := true)];
      r := Ok(AdminCtl.AdminReply(AdminCtl.ApprovedMessage, id));
    }

    /** DELETE /api/admin/doctors/:id */
    method RejectDoctor(id: Id) returns (r: Result<AdminCtl.AdminReply>)
      requires Valid()
      modifies this
      ensures Valid()
      ensures Step(r, State()) == AdminCtl.RejectDoctor(old(State()), id)
    {
      if id !in accounts {
        return Fail(Error(StatusNotFound, AdminCtl.DoctorNotFound));
      }
      if accounts[id].role != Doctor {
        return Fail(Error(StatusBadRequest, AdminCtl.NotADoctor));
      }
      accounts := accounts - {id};
      r := Ok(AdminCtl.AdminReply(AdminCtl.RejectedMessage, id));
    }

    /** updateUserProfile: the fields assigned one at a time, then the save. */
    method UpdateUserProfile(caller: Id, u: UserCtl.ProfileUpdate) returns (r: Result<AccountView>)
      requires Valid()
      modifies this
      ensures Valid()
      ensures Step(r, State()) == UserCtl.UpdateUserProfile(old(State()), lib, caller, u)
    {
      ghost var expected := UserCtl.UpdateUserProfile(State(), lib, caller, u);
      if caller !in accounts {
        return Fail(Error(StatusNotFound, UserCtl.UserNotFound));
      }
      var a := accounts[caller];
      ghost var updated := UserCtl.ApplyProfileUpdate(a, u, lib.hash);
      if u.name != "" {
        a := a.(name := u.name);
      }
      if u.email != "" {
        a := a.(email := u.email);
      }
      if u.password != "" {
        a := a.(password := lib.hash(u.password));
      }
      if a.role == Doctor {
        if u.specialty != "" {
          a := a.(specialty := Some(u.specialty));
        }
        if u.location != "" {
          a := a.(location := Some(u.location));
        }
      }
      assert a == updated;
      if UserCtl.EmailHeldByOther(accounts, caller, a.email) {
        return Fail(Error(StatusServerError, UserCtl.DuplicateEmail));
      }
      accounts := accounts[caller := a];
      r := Ok(View(caller, a));
      assert Step(r, State()) == expected;
    }
  }
}
