/**
 * The appointment ledger (appointmentController.js): booking with its
 * slot-conflict rule, the caller's own appointments, the doctor's status
 * update and the customer's cancel.
 */
module AppointmentController {
  import opened Http
  import opened UserModel
  import opened AppointmentModel
  import opened Database

  const DoctorNotFound := "Doctor not found."
  const DoctorNotBookable := "Selected doctor not found or not approved."
  const SlotTakenMessage := "This appointment slot is already taken."
  /** The leading words of the ValidationError Mongoose throws. */
  const AppointmentValidationFailed := "Appointment validation failed"
  const BookedMessage := "Appointment request submitted successfully. Waiting for doctor confirmation."
  const ViewForbidden := "Not authorized to view appointments."
  const AppointmentNotFound := "Appointment not found"
  const UpdateForbidden := "Not authorized to update this appointment"
  const UpdatedMessage := "Appointment updated successfully"
  const CancelForbidden := "Not authorized to cancel this appointment"
  const CancelledMessage := "Appointment cancelled successfully"

  // ---------------------------------------------------------------- slots

  /** An appointment that holds the slot (doctor, date, time). */
  predicate HoldsSlot(a: Appointment, doctor: Id, date: Date, time: string)
  {
    Active(a.status) && a.doctor == doctor && a.date == date && a.time == time
  }

  /** The conflict query of bookAppointment, whoever the customer is. */
  predicate SlotTaken(appointments: map<Id, Appointment>, doctor: Id, date: Date, time: string)
  {
    exists id :: id in appointments && HoldsSlot(appointments[id], doctor, date, time)
  }

  /** The ledger's invariant: at most one pending or scheduled appointment
      per doctor, date and time. */
  ghost predicate SlotUnique(appointments: map<Id, Appointment>)
  {
    forall i, j ::
      i in appointments && j in appointments &&
      HoldsSlot(appointments[i], appointments[j].doctor, appointments[j].date, appointments[j].time) &&
      Active(appointments[j].status)
      ==> i == j
  }

  /** The appointments that hold a slot at all. */
  function ActiveOnly(appointments: map<Id, Appointment>): map<Id, Appointment>
  {
    map id | id in appointments && Active(appointments[id].status) :: appointments[id]
  }

  /** Completed, cancelled and rescheduled appointments never block a slot:
      the conflict query sees only the active part of the table. */
  lemma InactiveNeverBlocks(appointments: map<Id, Appointment>, doctor: Id, date: Date, time: string)
    ensures SlotTaken(appointments, doctor, date, time) <==> SlotTaken(ActiveOnly(appointments), doctor, date, time)
  {
    if SlotTaken(appointments, doctor, date, time) {
      var id :| id in appointments && HoldsSlot(appointments[id], doctor, date, time);
      assert id in ActiveOnly(appointments);
    }
  }

  /** Inserting an appointment into a free slot keeps the invariant. */
  lemma InsertKeepsSlotUnique(appointments: map<Id, Appointment>, id: Id, a: Appointment)
    requires id !in appointments
    requires !SlotTaken(appointments, a.doctor, a.date, a.time)
    ensures SlotUnique(appointments) ==> SlotUnique(appointments[id := a])
  {
    if SlotUnique(appointments) {
      assert forall k :: k in appointments ==> !HoldsSlot(appointments[k], a.doctor, a.date, a.time);
    }
  }

  /** Giving one appointment a status that frees its slot keeps the
      invariant; its other fields may change too, as long as the slot stays. */
  lemma FreeingKeepsSlotUnique(appointments: map<Id, Appointment>, id: Id, a: Appointment)
    requires SlotUnique(appointments)
    requires id in appointments
    requires !Active(a.status) || (Active(appointments[id].status) && a.doctor == appointments[id].doctor
                                   && a.date == appointments[id].date && a.time == appointments[id].time)
    ensures SlotUnique(appointments[id := a])
  {
  }

  // -------------------------------------------------------------- booking

  /** The body of POST /api/appointments; None is `documents` left out. */
  datatype BookingRequest = BookingRequest(doctorId: Id, date: Date, time: string, documents: Option<seq<string>>)

  datatype BookingReceipt = BookingReceipt(message: string, appointmentId: Id)

  predicate Bookable(a: Account)
  {
    a.role == Doctor && a.isApproved
  }

  /** The document bookAppointment hands to Appointment.create. */
  function BookingFields(caller: Id, req: BookingRequest): NewAppointment
  {
    NewAppointment(caller, req.doctorId, req.date, req.time, Some(Pending), Some(req.documents.GetOr([])))
  }

  /** bookAppointment: 404 for an unknown doctor id, then 400 for an account
      that is no approved doctor, then 400 for a taken slot; otherwise exactly
      one new pending appointment of the caller, and 201 with its id. */
  function BookAppointment(db: Db, caller: Id, req: BookingRequest): (r: Step<BookingReceipt>)
    requires Valid(db)
    ensures Valid(r.db)
    ensures r.db.accounts == db.accounts
    ensures r.result.Fail? ==> r.db == db
    ensures req.doctorId !in db.accounts ==> r.result == Fail(Error(StatusNotFound, DoctorNotFound))
    ensures req.doctorId in db.accounts && !Bookable(db.accounts[req.doctorId])
            ==> r.result == Fail(Error(StatusBadRequest, DoctorNotBookable))
    ensures req.doctorId in db.accounts && Bookable(db.accounts[req.doctorId])
            && SlotTaken(db.appointments, req.doctorId, req.date, req.time)
            ==> r.result == Fail(Error(StatusBadRequest, SlotTakenMessage))
    ensures req.doctorId in db.accounts && Bookable(db.accounts[req.doctorId])
            && !SlotTaken(db.appointments, req.doctorId, req.date, req.time)
            && (req.date == "" || req.time == "")
            ==> ServerFailure(r.result, AppointmentValidationFailed)
    ensures r.result.Ok? <==>
              && req.doctorId in db.accounts && Bookable(db.accounts[req.doctorId])
              && !SlotTaken(db.appointments, req.doctorId, req.date, req.time)
              && req.date != "" && req.time != ""
    ensures r.result.Ok? ==>
              var id := r.result.value.appointmentId;
              && r.result.value.message == BookedMessage
              && id !in db.appointments
              && r.db.appointments == db.appointments[id := Appointment(caller, req.doctorId, req.date, req.time,
                                                                        Pending, req.documents.GetOr([]), "", "")]
    ensures SlotUnique(db.appointments) ==> SlotUnique(r.db.appointments)
  {
    if req.doctorId !in db.accounts then
      Step(Fail(Error(StatusNotFound, DoctorNotFound)), db)
    else if !Bookable(db.accounts[req.doctorId]) then
      Step(Fail(Error(StatusBadRequest, DoctorNotBookable)), db)
    else if SlotTaken(db.appointments, req.doctorId, req.date, req.time) then
      Step(Fail(Error(StatusBadRequest, SlotTakenMessage)), db)
    else
      match CreateAppointment(BookingFields(caller, req))
      case None => Step(Fail(Error(StatusServerError, AppointmentValidationFailed)), db)
      case Some(a) =>
        var id := FreshId(db);
        InsertKeepsSlotUnique(db.appointments, id, a);
        Step(Ok(BookingReceipt(BookedMessage, id)),
             db.(appointments := db.appointments[id := a], nextId := db.nextId + 1))
  }

  /** A second booking of a slot that is still pending fails, whoever books. */
  lemma SecondBookingConflicts(db: Db, c1: Id, c2: Id, req: BookingRequest, docs2: Option<seq<string>>)
    requires Valid(db)
    requires BookAppointment(db, c1, req).result.Ok?
    ensures var db1 := BookAppointment(db, c1, req).db;
            BookAppointment(db1, c2, req.(documents := docs2)) == Step(Fail(Error(StatusBadRequest, SlotTakenMessage)), db1)
  {
    var r := BookAppointment(db, c1, req);
    var id := r.result.value.appointmentId;
    assert HoldsSlot(r.db.appointments[id], req.doctorId, req.date, req.time);
  }

  /** The slot-taken reply is given exactly when the doctor is bookable and
      an active appointment already holds the doctor, date and time. */
  lemma SlotTakenReplyExactly(db: Db, caller: Id, req: BookingRequest)
    requires Valid(db)
    ensures BookAppointment(db, caller, req).result == Fail(Error(StatusBadRequest, SlotTakenMessage))
            <==> req.doctorId in db.accounts && Bookable(db.accounts[req.doctorId])
                 && SlotTaken(db.appointments, req.doctorId, req.date, req.time)
  {
  }

  // ------------------------------------------------------ my appointments

  /** The populated counterpart: for a customer the doctor's name, specialty
      and location, for a doctor the customer's name and email. */
  datatype Party =
    | DoctorInfo(name: string, specialty: Option<string>, location: Option<string>)
    | CustomerInfo(name: string, email: string)

  /** An appointment as getMyAppointments returns it; `counterpart` is None
      when the referenced account no longer exists (populate yields null). */
  datatype MyAppointment = MyAppointment(appointment: Appointment, counterpart: Option<Party>)

  /** The id the caller is matched against: the customer for a customer, the
      doctor otherwise. */
  function OwnerFor(a: Appointment, role: Role): Id
  {
    if role == Customer then a.customer else a.doctor
  }

  function Populate(accounts: map<Id, Account>, a: Appointment, role: Role): Option<Party>
  {
    if role == Customer then
      if a.doctor in accounts then
        var d := accounts[a.doctor];
        Some(DoctorInfo(d.name, d.specialty, d.location))
      else None
    else
      if a.customer in accounts then
        var c := accounts[a.customer];
        Some(CustomerInfo(c.name, c.email))
      else None
  }

  /** getMyAppointments: exactly the appointments whose customer (for a
      customer) or doctor (for a doctor) is the caller; 403 for any other
      role. */
  function GetMyAppointments(accounts: map<Id, Account>, appointments: map<Id, Appointment>, user: AccountView)
    : (r: Result<map<Id, MyAppointment>>)
    ensures r.Fail? <==> user.role == Admin
    ensures r.Fail? ==> r.error == Error(StatusForbidden, ViewForbidden)
    ensures r.Ok? && user.role == Customer ==>
              forall id :: id in r.value <==> id in appointments && appointments[id].customer == user.id
    ensures r.Ok? && user.role == Doctor ==>
              forall id :: id in r.value <==> id in appointments && appointments[id].doctor == user.id
    ensures r.Ok? ==> forall id :: id in r.value ==>
              r.value[id] == MyAppointment(appointments[id], Populate(accounts, appointments[id], user.role))
  {
    match user.role
    case Admin => Fail(Error(StatusForbidden, ViewForbidden))
    case _ =>
      Ok(map id | id in appointments && OwnerFor(appointments[id], user.role) == user.id ::
           MyAppointment(appointments[id], Populate(accounts, appointments[id], user.role)))
  }

  /** The customer and the doctor of an appointment both see it, with the
      same status, notes and summary. */
  lemma BothPartiesSeeIt(accounts: map<Id, Account>, appointments: map<Id, Appointment>, id: Id,
                         customer: AccountView, doctor: AccountView)
    requires id in appointments
    requires customer.role == Customer && customer.id == appointments[id].customer
    requires doctor.role == Doctor && doctor.id == appointments[id].doctor
    ensures var c := GetMyAppointments(accounts, appointments, customer);
            var d := GetMyAppointments(accounts, appointments, doctor);
            && c.Ok? && d.Ok? && id in c.value && id in d.value
            && c.value[id].appointment == d.value[id].appointment == appointments[id]
  {
  }

  // -------------------------------------------------------- status update

  /** The body of PUT /api/appointments/:id/status. `status` is replaced only
      by a truthy value ('' is left out); notes and summary are replaced
      whenever they are defined, '' included. */
  datatype StatusUpdate = StatusUpdate(status: string, doctorNotes: Option<string>, visitSummary: Option<string>)

  /** The assignments of updateAppointmentStatus followed by save(); None is
      a status outside the enum, which save() refuses. */
  function ApplyStatusUpdate(a: Appointment, u: StatusUpdate): (r: Option<Appointment>)
    ensures r.None? <==> u.status != "" && ParseStatus(u.status).None?
    ensures r.Some? ==> && r.value.customer == a.customer && r.value.doctor == a.doctor
                        && r.value.date == a.date && r.value.time == a.time
                        && r.value.documents == a.documents
    ensures r.Some? && u.status == "" ==> r.value.status == a.status
    ensures r.Some? && u.status != "" ==> StatusName(r.value.status) == u.status
    ensures r.Some? && u.doctorNotes.Some? ==> r.value.doctorNotes == u.doctorNotes.value
    ensures r.Some? && u.doctorNotes.None? ==> r.value.doctorNotes == a.doctorNotes
    ensures r.Some? && u.visitSummary.Some? ==> r.value.visitSummary == u.visitSummary.value
    ensures r.Some? && u.visitSummary.None? ==> r.value.visitSummary == a.visitSummary
  {
    var status := if u.status == "" then Some(a.status) else ParseStatus(u.status);
    match status
    case None => None
    case Some(s) =>
      Some(a.(status := s, doctorNotes := u.doctorNotes.GetOr(a.doctorNotes),
              visitSummary := u.visitSummary.GetOr(a.visitSummary)))
  }

  datatype AppointmentReply = AppointmentReply(message: string, appointment: Appointment)

  /** updateAppointmentStatus: 404 for an unknown id, 401 when the caller is
      not the appointment's doctor, otherwise the update is applied to that
      one appointment. */
  function UpdateAppointmentStatus(db: Db, caller: Id, appointmentId: Id, u: StatusUpdate): (r: Step<AppointmentReply>)
    requires Valid(db)
    ensures Valid(r.db)
    ensures r.result.Fail? ==> r.db == db
    ensures appointmentId !in db.appointments ==> r.result == Fail(Error(StatusNotFound, AppointmentNotFound))
    ensures appointmentId in db.appointments && db.appointments[appointmentId].doctor != caller
            ==> r.result == Fail(Error(StatusUnauthorized, UpdateForbidden))
    ensures appointmentId in db.appointments && db.appointments[appointmentId].doctor == caller
            && ApplyStatusUpdate(db.appointments[appointmentId], u).None?
            ==> ServerFailure(r.result, AppointmentValidationFailed)
    ensures r.result.Ok? <==>
              && appointmentId in db.appointments && db.appointments[appointmentId].doctor == caller
              && ApplyStatusUpdate(db.appointments[appointmentId], u).Some?
    ensures r.result.Ok? ==>
              && r.result.value.message == UpdatedMessage
              && Some(r.result.value.appointment) == ApplyStatusUpdate(db.appointments[appointmentId], u)
              && r.db == db.(appointments := db.appointments[appointmentId := r.result.value.appointment])
  {
    if appointmentId !in db.appointments then
      Step(Fail(Error(StatusNotFound, AppointmentNotFound)), db)
    else
      var a := db.appointments[appointmentId];
      if a.doctor != caller then
        Step(Fail(Error(StatusUnauthorized, UpdateForbidden)), db)
      else
        match ApplyStatusUpdate(a, u)
        case None => Step(Fail(Error(StatusServerError, AppointmentValidationFailed)), db)
        case Some(a') =>
          Step(Ok(AppointmentReply(UpdatedMessage, a')), db.(appointments := db.appointments[appointmentId := a']))
  }

  /** The update would make an inactive appointment of the caller's active
      again: the one step of the ledger that can re-open a freed slot. */
  predicate Reactivates(appointments: map<Id, Appointment>, caller: Id, appointmentId: Id, u: StatusUpdate)
  {
    && (u.status == "pending" || u.status == "scheduled")
    && appointmentId in appointments && appointments[appointmentId].doctor == caller
    && !Active(appointments[appointmentId].status)
  }

  /** Every status update that does not re-activate an inactive appointment
      keeps the invariant: confirming a pending appointment, completing,
      cancelling or rescheduling it, or only writing notes. */
  lemma StatusUpdateKeepsSlotUnique(db: Db, caller: Id, appointmentId: Id, u: StatusUpdate)
    requires Valid(db) && SlotUnique(db.appointments)
    requires !Reactivates(db.appointments, caller, appointmentId, u)
    ensures SlotUnique(UpdateAppointmentStatus(db, caller, appointmentId, u).db.appointments)
  {
    var r := UpdateAppointmentStatus(db, caller, appointmentId, u);
    if r.result.Ok? {
      FreeingKeepsSlotUnique(db.appointments, appointmentId, r.result.value.appointment);
    }
  }

  /** The status update can re-open a freed slot that has been booked again:
      a doctor setting a cancelled appointment back to pending leaves two
      pending appointments for one slot. */
  lemma StatusUpdateCanDoubleBook()
    ensures exists db: Db, caller: Id, appointmentId: Id, u: StatusUpdate ::
              && Valid(db) && SlotUnique(db.appointments)
              && UpdateAppointmentStatus(db, caller, appointmentId, u).result.Ok?
              && !SlotUnique(UpdateAppointmentStatus(db, caller, appointmentId, u).db.appointments)
  {
    var cancelled := Appointment(1, 0, "2025-07-30", "10:00 AM", Cancelled, [], "", "");
    var pending := cancelled.(customer := 2, status := Pending);
    var db := Db(map[], map[3 := cancelled, 4 := pending], 5);
    var u := StatusUpdate("pending", None, None);
    assert Valid(db);
    assert HoldsSlot(db.appointments[4], 0, "2025-07-30", "10:00 AM");
    assert SlotUnique(db.appointments);
    var r := UpdateAppointmentStatus(db, 0, 3, u);
    assert r.db.appointments[3].status == Pending;
    assert HoldsSlot(r.db.appointments[3], r.db.appointments[4].doctor, r.db.appointments[4].date,
                     r.db.appointments[4].time);
    assert !SlotUnique(r.db.appointments);
  }

  // --------------------------------------------------------------- cancel

  /** cancelAppointment: 404 for an unknown id, 401 when the caller is not
      the appointment's customer, otherwise the status becomes cancelled
      from any prior status and nothing else changes. */
  function CancelAppointment(db: Db, caller: Id, appointmentId: Id): (r: Step<AppointmentReply>)
    requires Valid(db)
    ensures Valid(r.db)
    ensures r.result.Fail? ==> r.db == db
    ensures appointmentId !in db.appointments ==> r.result == Fail(Error(StatusNotFound, AppointmentNotFound))
    ensures appointmentId in db.appointments && db.appointments[appointmentId].customer != caller
            ==> r.result == Fail(Error(StatusUnauthorized, CancelForbidden))
    ensures r.result.Ok? <==> appointmentId in db.appointments && db.appointments[appointmentId].customer == caller
    ensures r.result.Ok? ==>
              var a := db.appointments[appointmentId].(status := Cancelled);
              && r.result.value == AppointmentReply(CancelledMessage, a)
              && r.db == db.(appointments := db.appointments[appointmentId := a])
    ensures SlotUnique(db.appointments) ==> SlotUnique(r.db.appointments)
  {
    if appointmentId !in db.appointments then
      Step(Fail(Error(StatusNotFound, AppointmentNotFound)), db)
    else
      var a := db.appointments[appointmentId];
      if a.customer != caller then
        Step(Fail(Error(StatusUnauthorized, CancelForbidden)), db)
      else
        var a' := a.(status := Cancelled);
        Step(Ok(AppointmentReply(CancelledMessage, a')), db.(appointments := db.appointments[appointmentId := a']))
  }

  /** Cancelling twice is cancelling once. */
  lemma CancelIdempotent(db: Db, caller: Id, appointmentId: Id)
    requires Valid(db)
    ensures var r := CancelAppointment(db, caller, appointmentId);
            CancelAppointment(r.db, caller, appointmentId) == r
  {
    var r := CancelAppointment(db, caller, appointmentId);
    if r.result.Ok? {
      assert r.db.appointments[appointmentId := r.db.appointments[appointmentId]] == r.db.appointments;
    }
  }
}
