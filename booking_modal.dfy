/**
 * The booking dialog (BookAppointmentModal.js): the check on the entered
 * date and time, the payload handed to onBook, and the kept document name.
 */
module BookingModal {
  import opened Http
  import UserModel
  import AppointmentModel
  import Database
  import Appt = AppointmentController
  /** The error the dialog shows when it refuses to submit. */
  const InvalidSelection := "Please select a valid date (YYYY-MM-DD) and time."

  /** The time slots the dialog's menu offers. */
  const TimeSlots := ["09:00 AM", "10:00 AM", "11:00 AM", "02:00 PM", "03:00 PM"]

  /** \d: an ASCII digit. */
  predicate IsDigit(c: char)
  {
    '0' <= c <= '9'
  }

  /** /^\d{4}-\d{2}-\d{2}$/.test(s), position by position. */
  predicate IsDateShape(s: string)
  {
    && |s| == 10
    && IsDigit(s[0]) && IsDigit(s[1]) && IsDigit(s[2]) && IsDigit(s[3])
    && s[4] == '-'
    && IsDigit(s[5]) && IsDigit(s[6])
    && s[7] == '-'
    && IsDigit(s[8]) && IsDigit(s[9])
  }

  predicate AllDigits(s: string)
  {
    forall i :: 0 <= i < |s| ==> IsDigit(s[i])
  }

  /** The regular expression read as a concatenation: four digits, a dash,
      two digits, a dash, two digits, and nothing else. */
  lemma DateShapeIsConcatenation(s: string)
    ensures IsDateShape(s) <==>
              |s| == 10 && AllDigits(s[..4]) && s[4] == '-' && AllDigits(s[5..7]) && s[7] == '-' && AllDigits(s[8..])
  {
    if |s| == 10 && AllDigits(s[..4]) && AllDigits(s[5..7]) && AllDigits(s[8..]) {
      assert s[..4][0] == s[0] && s[..4][1] == s[1] && s[..4][2] == s[2] && s[..4][3] == s[3];
      assert s[5..7][0] == s[5] && s[5..7][1] == s[6];
      assert s[8..][0] == s[8] && s[8..][1] == s[9];
    }
    if IsDateShape(s) {
      assert forall i :: 0 <= i < 4 ==> s[..4][i] == s[i];
      assert forall i :: 0 <= i < 2 ==> s[5..7][i] == s[5 + i];
      assert forall i :: 0 <= i < 2 ==> s[8..][i] == s[8 + i];
    }
  }

  function DigitValue(c: char): int
    requires IsDigit(c)
  {
    c as int - '0' as int
  }

  /** Days of a month of the Gregorian calendar. */
  function DaysInMonth(year: int, month: int): int
  {
    if month == 2 then
      (if (year % 4 == 0 && year % 100 != 0) || year % 400 == 0 then 29 else 28)
    else if month == 4 || month == 6 || month == 9 || month == 11 then 30
    else 31
  }

  /** A date of the right shape that names a day of the calendar: the
      strings the server's Date cast reads as that day. */
  predicate IsCalendarDate(s: string)
  {
    && IsDateShape(s)
    && var year := 1000 * DigitValue(s[0]) + 100 * DigitValue(s[1]) + 10 * DigitValue(s[2]) + DigitValue(s[3]);
       var month := 10 * DigitValue(s[5]) + DigitValue(s[6]);
       var day := 10 * DigitValue(s[8]) + DigitValue(s[9]);
       1 <= month <= 12 && 1 <= day <= DaysInMonth(year, month)
  }

  /** handleSubmit's guard: a date and a time are given and the date has the
      shape. */
  predicate Accepts(date: string, time: string)
  {
    date != "" && time != "" && IsDateShape(date)
  }

  /** The shape is all the dialog checks: a month 13 and a day 45 pass. */
  lemma CalendarIsNotChecked()
    ensures Accepts("2025-13-45", "10:00 AM") && !IsCalendarDate("2025-13-45")
    ensures Accepts("2025-02-29", "10:00 AM") && !IsCalendarDate("2025-02-29") && IsCalendarDate("2024-02-29")
    ensures !Accepts("2025-7-30", "10:00 AM") && !Accepts("2025-07-30", "")
  {
    assert !IsDateShape("2025-7-30") by {
      assert |"2025-7-30"| == 9;
    }
  }

  /** Every slot of the menu is a time the guard accepts. */
  lemma MenuSlotsAccepted(date: string, i: nat)
    requires IsDateShape(date) && i < |TimeSlots|
    ensures Accepts(date, TimeSlots[i])
  {
  }

  /** The object handed to onBook. */
  datatype BookingPayload = BookingPayload(doctorId: string, date: string, time: string, documents: seq<string>)

  /** The payload: the doctor's id, the entered strings, and the document
      name as a one-element list when there is one ('' counts as none). */
  function BuildBookingPayload(doctorId: string, date: string, time: string, document: string): (p: BookingPayload)
    ensures p.doctorId == doctorId && p.date == date && p.time == time
    ensures document != "" ==> p.documents == [document]
    ensures document == "" ==> p.documents == []
  {
    BookingPayload(doctorId, date, time, if document != "" then [document] else [])
  }

  /** The server's reading of the payload, once its doctor id text names the
      account `doctor`; the documents are always sent. */
  function AsBookingRequest(p: BookingPayload, doctor: UserModel.Id): Appt.BookingRequest
  {
    Appt.BookingRequest(doctor, p.date, p.time, Some(p.documents))
  }

  /** A submission the dialog accepts, with a date of the calendar, passes
      the server's required fields: for an approved doctor and a free slot
      the booking succeeds, and the stored appointment is pending with
      exactly the entered date and time and the documents the dialog sent.
      (A date the dialog accepts but the calendar lacks, such as
      "2025-13-45", fails the server's Date cast.) */
  lemma AcceptedBookingIsStored(db: Database.Db, caller: UserModel.Id, doctor: UserModel.Id, doctorId: string,
                                date: string, time: string, document: string)
    requires Database.Valid(db) && Accepts(date, time) && IsCalendarDate(date)
    requires doctor in db.accounts && Appt.Bookable(db.accounts[doctor])
    requires !Appt.SlotTaken(db.appointments, doctor, date, time)
    ensures var p := BuildBookingPayload(doctorId, date, time, document);
            var r := Appt.BookAppointment(db, caller, AsBookingRequest(p, doctor));
            && r.result.Ok?
            && r.db.appointments[r.result.value.appointmentId]
               == AppointmentModel.Appointment(caller, doctor, date, time, AppointmentModel.Pending,
                                               if document != "" then [document] else [], "", "")
  {
  }

  class BookingDialog {
    var date: string
    var time: string
    /** The kept file name; '' is null. */
    var document: string
    var error: string

    constructor ()
      ensures date == "" && time == "" && document == "" && error == ""
    {
      date, time, document, error := "", "", "", "";
    }

    /** handleFileChange: keeps the name of the first selected file, and
        nothing when none is selected. */
    method HandleFileChange(files: seq<string>)
      modifies this
      ensures |files| > 0 ==> document == files[0]
      ensures |files| == 0 ==> document == old(document)
      ensures date == old(date) && time == old(time) && error == old(error)
    {
      if |files| > 0 {
        document := files[0];
      }
    }

    /** handleSubmit: either refuses with the error, calling nothing, or
        clears the error, hands the payload to onBook and closes. */
    method HandleSubmit(doctorId: string) returns (booked: bool, payload: BookingPayload, closed: bool)
      modifies this
      ensures booked <==> Accepts(date, time)
      ensures booked ==> payload == BuildBookingPayload(doctorId, date, time, document) && error == "" && closed
      ensures !booked ==> error == InvalidSelection && !closed
      ensures date == old(date) && time == old(time) && document == old(document)
    {
      if date == "" || time == "" || !IsDateShape(date) {
        error := InvalidSelection;
        return false, BookingPayload("", "", "", []), false;
      }
      error := "";
      payload := BookingPayload(doctorId, date, time, if document != "" then [document] else []);
      booked, closed := true, true;
    }
  }
}
