/**
 * The appointment record of the ledger (the appointments collection): the
 * status enum, the required fields and the defaults the schema fills in.
 */
module AppointmentModel {
  import opened Http
  import opened UserModel

  datatype Status = Pending | Scheduled | Completed | Cancelled | Rescheduled

  function StatusName(s: Status): string
  {
    match s
    case Pending => "pending"
    case Scheduled => "scheduled"
    case Completed => "completed"
    case Cancelled => "cancelled"
    case Rescheduled => "rescheduled"
  }

  /** The schema's enum check on a status string. */
  function ParseStatus(s: string): (r: Option<Status>)
    ensures r.Some? ==> StatusName(r.value) == s
    ensures r.None? <==> s !in {"pending", "scheduled", "completed", "cancelled", "rescheduled"}
  {
    if s == "pending" then Some(Pending)
    else if s == "scheduled" then Some(Scheduled)
    else if s == "completed" then Some(Completed)
    else if s == "cancelled" then Some(Cancelled)
    else if s == "rescheduled" then Some(Rescheduled)
    else None
  }

  lemma ParseStatusName(s: Status)
    ensures ParseStatus(StatusName(s)) == Some(s)
  {
  }

  /** The statuses that hold a slot; the other three free it. */
  predicate Active(s: Status)
  {
    s == Pending || s == Scheduled
  }

  /** The calendar date, compared by equality only; '' is a missing date. */
  type Date = string

  /** A stored appointment; `time` is a free label such as "10:00 AM". */
  datatype Appointment = Appointment(
    customer: Id,
    doctor: Id,
    date: Date,
    time: string,
    status: Status,
    documents: seq<string>,
    doctorNotes: string,
    visitSummary: string)

  /** The required date and time are set (customer and doctor always are). */
  predicate ValidAppointment(a: Appointment)
  {
    a.date != "" && a.time != ""
  }

  /** The document handed to Appointment.create; None is a field left
      undefined. */
  datatype NewAppointment = NewAppointment(
    customer: Id,
    doctor: Id,
    date: Date,
    time: string,
    status: Option<Status>,
    documents: Option<seq<string>>)

  /** Appointment.create: validation of the required fields, then the
      defaults (status pending, no documents, empty notes and summary). None
      is a validation failure. */
  function CreateAppointment(f: NewAppointment): (r: Option<Appointment>)
    ensures r.Some? <==> f.date != "" && f.time != ""
    ensures r.Some? ==> ValidAppointment(r.value)
    ensures r.Some? ==> r.value.customer == f.customer && r.value.doctor == f.doctor
    ensures r.Some? ==> r.value.date == f.date && r.value.time == f.time
    ensures r.Some? && f.status.None? ==> r.value.status == Pending
    ensures r.Some? && f.status.Some? ==> r.value.status == f.status.value
    ensures r.Some? && f.documents.None? ==> r.value.documents == []
    ensures r.Some? && f.documents.Some? ==> r.value.documents == f.documents.value
    ensures r.Some? ==> r.value.doctorNotes == "" && r.value.visitSummary == ""
  {
    if f.date != "" && f.time != "" then
      Some(Appointment(f.customer, f.doctor, f.date, f.time, f.status.GetOr(Pending),
                       f.documents.GetOr([]), "", ""))
    else
      None
  }
}
