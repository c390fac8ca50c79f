/**
 * The admin approval workflow (adminController.js): the list of doctors
 * awaiting approval, approving a doctor and rejecting (deleting) one.
 */
module AdminController {
  import opened Http
  import opened UserModel
  import opened Database

  const DoctorNotFound := "Doctor not found"
  const NotADoctor := "User is not a doctor profile"
  const ApprovedMessage := "Doctor approved successfully"
  const RejectedMessage := "Doctor rejected and removed successfully"

  /** getPendingDoctorApprovals: the doctors not yet approved, without
      passwords. */
  function GetPendingDoctorApprovals(accounts: map<Id, Account>): (r: map<Id, AccountView>)
    ensures forall id :: id in r <==> id in accounts && accounts[id].role == Doctor && !accounts[id].isApproved
    ensures forall id :: id in r ==> r[id] == View(id, accounts[id])
  {
    map id | id in accounts && accounts[id].role == Doctor && !accounts[id].isApproved :: View(id, accounts[id])
  }

  datatype AdminReply = AdminReply(message: string, doctorId: Id)

  /** approveDoctor: 404 for an unknown id, 400 for an account that is not a
      doctor, otherwise the approval flag is set and nothing else changes. */
  function ApproveDoctor(db: Db, id: Id): (r: Step<AdminReply>)
    requires Valid(db)
    ensures Valid(r.db)
    ensures r.result.Fail? ==> r.db == db
    ensures id !in db.accounts ==> r.result == Fail(Error(StatusNotFound, DoctorNotFound))
    ensures id in db.accounts && db.accounts[id].role != Doctor ==> r.result == Fail(Error(StatusBadRequest, NotADoctor))
    ensures r.result.Ok? <==> id in db.accounts && db.accounts[id].role == Doctor
    ensures r.result.Ok? ==>
              && r.result.value == AdminReply(ApprovedMessage, id)
              && r.db == db.(accounts := db.accounts[id := db.accounts[id].(isApproved := true)])
  {
    if id !in db.accounts then
      Step(Fail(Error(StatusNotFound, DoctorNotFound)), db)
    else if db.accounts[id].role != Doctor then
      Step(Fail(Error(StatusBadRequest, NotADoctor)), db)
    else
      Step(Ok(AdminReply(ApprovedMessage, id)),
           db.(accounts := db.accounts[id := db.accounts[id].(isApproved := true)]))
  }

  /** Approving twice is approving once. */
  lemma ApproveIdempotent(db: Db, id: Id)
    requires Valid(db)
    ensures var r := ApproveDoctor(db, id);
            ApproveDoctor(r.db, id) == r
  {
    var r := ApproveDoctor(db, id);
    if r.result.Ok? {
      assert r.db.accounts[id := r.db.accounts[id].(isApproved := true)] == r.db.accounts;
    }
  }

  /** rejectDoctor: the same 404 and 400 as approve, otherwise the account
      is deleted, approved or not; appointments referring to it stay. */
  function RejectDoctor(db: Db, id: Id): (r: Step<AdminReply>)
    requires Valid(db)
    ensures Valid(r.db)
    ensures r.db.appointments == db.appointments
    ensures r.result.Fail? ==> r.db == db
    ensures id !in db.accounts ==> r.result == Fail(Error(StatusNotFound, DoctorNotFound))
    ensures id in db.accounts && db.accounts[id].role != Doctor ==> r.result == Fail(Error(StatusBadRequest, NotADoctor))
    ensures r.result.Ok? <==> id in db.accounts && db.accounts[id].role == Doctor
    ensures r.result.Ok? ==>
              && r.result.value == AdminReply(RejectedMessage, id)
              && r.db == db.(accounts := db.accounts - {id})
  {
    if id !in db.accounts then
      Step(Fail(Error(StatusNotFound, DoctorNotFound)), db)
    else if db.accounts[id].role != Doctor then
      Step(Fail(Error(StatusBadRequest, NotADoctor)), db)
    else
      Step(Ok(AdminReply(RejectedMessage, id)), db.(accounts := db.accounts - {id}))
  }

  /** Rejecting the same id again finds nothing. */
  lemma RejectTwiceIsNotFound(db: Db, id: Id)
    requires Valid(db)
    requires RejectDoctor(db, id).result.Ok?
    ensures var db1 := RejectDoctor(db, id).db;
            RejectDoctor(db1, id) == Step(Fail(Error(StatusNotFound, DoctorNotFound)), db1)
  {
  }
}
