/**
 * The public doctor directory (doctorController.js): the approved doctors,
 * and one approved doctor by id.
 */
module DoctorController {
  import opened Http
  import opened UserModel

  const DoctorNotFound := "Doctor not found or not approved"

  /** getApprovedDoctors: the approved doctors, without passwords. */
  function GetApprovedDoctors(accounts: map<Id, Account>): (r: map<Id, AccountView>)
    ensures forall id :: id in r <==> id in accounts && accounts[id].role == Doctor && accounts[id].isApproved
    ensures forall id :: id in r ==> r[id] == View(id, accounts[id])
  {
    map id | id in accounts && accounts[id].role == Doctor && accounts[id].isApproved :: View(id, accounts[id])
  }

  /** getDoctorById: the account only when the id is an approved doctor's;
      404 in every other case. */
  function GetDoctorById(accounts: map<Id, Account>, id: Id): (r: Result<AccountView>)
    ensures r.Ok? <==> id in accounts && accounts[id].role == Doctor && accounts[id].isApproved
    ensures r.Ok? ==> r.value == View(id, accounts[id])
    ensures r.Fail? ==> r.error == Error(StatusNotFound, DoctorNotFound)
  {
    if id in accounts && accounts[id].role == Doctor && accounts[id].isApproved then
      Ok(View(id, accounts[id]))
    else
      Fail(Error(StatusNotFound, DoctorNotFound))
  }

  /** The single lookup agrees with the list. */
  lemma ByIdAgreesWithList(accounts: map<Id, Account>, id: Id)
    ensures GetDoctorById(accounts, id).Ok? <==> id in GetApprovedDoctors(accounts)
    ensures GetDoctorById(accounts, id).Ok? ==> GetDoctorById(accounts, id).value == GetApprovedDoctors(accounts)[id]
  {
  }
}
