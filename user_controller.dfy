/**
 * The caller's own profile (userController.js): reading it, and updating it
 * field by field.
 */
module UserController {
  import opened Http
  import opened UserModel
  import opened Crypto
  import opened Database

  const UserNotFound := "User not found"
  /** The leading words of the error MongoDB raises when the unique index on
      email refuses the save; the handler does not catch it. */
  const DuplicateEmail := "E11000 duplicate key error"

  /** getUserProfile: the caller's fields without the password, or 404. */
  function GetUserProfile(accounts: map<Id, Account>, caller: Id): (r: Result<AccountView>)
    ensures r.Ok? <==> caller in accounts
    ensures r.Ok? ==> r.value == View(caller, accounts[caller])
    ensures r.Fail? ==> r.error == Error(StatusNotFound, UserNotFound)
  {
    if caller in accounts then Ok(View(caller, accounts[caller])) else Fail(Error(StatusNotFound, UserNotFound))
  }

  /** The body of PUT /api/users/profile; '' is a field left out. */
  datatype ProfileUpdate = ProfileUpdate(name: string, email: string, password: string, specialty: string, location: string)

  /** The field assignments of updateUserProfile. */
  function ApplyProfileUpdate(a: Account, u: ProfileUpdate, hash: string -> string): (r: Account)
    ensures r.name == OrElse(u.name, a.name) && r.email == OrElse(u.email, a.email)
    ensures u.password != "" ==> r.password == hash(u.password)
    ensures u.password == "" ==> r.password == a.password
    ensures a.role == Doctor && u.specialty != "" ==> r.specialty == Some(u.specialty)
    ensures a.role == Doctor && u.location != "" ==> r.location == Some(u.location)
    ensures a.role != Doctor || u.specialty == "" ==> r.specialty == a.specialty
    ensures a.role != Doctor || u.location == "" ==> r.location == a.location
    ensures r.role == a.role && r.isApproved == a.isApproved
    ensures ValidAccount(a) ==> ValidAccount(r)
  {
    var a1 := a.(name := OrElse(u.name, a.name), email := OrElse(u.email, a.email));
    var a2 := if u.password != "" then a1.(password := hash(u.password)) else a1;
    if a2.role == Doctor then
      a2.(specialty := if u.specialty != "" then Some(u.specialty) else a2.specialty,
          location := if u.location != "" then Some(u.location) else a2.location)
    else
      a2
  }

  /** Another account already holds this email. */
  predicate EmailHeldByOther(accounts: map<Id, Account>, caller: Id, email: string)
  {
    exists id :: id in accounts && id != caller && accounts[id].email == email
  }

  /** updateUserProfile: 404 when the caller's account is gone, a refused
      save when the new email belongs to someone else, otherwise the caller's
      account is updated and returned without its password. */
  function UpdateUserProfile(db: Db, lib: Library, caller: Id, u: ProfileUpdate): (r: Step<AccountView>)
    requires Valid(db)
    ensures Valid(r.db)
    ensures r.db.appointments == db.appointments
    ensures r.result.Fail? ==> r.db == db
    ensures caller !in db.accounts ==> r.result == Fail(Error(StatusNotFound, UserNotFound))
    ensures caller in db.accounts && EmailHeldByOther(db.accounts, caller, OrElse(u.email, db.accounts[caller].email))
            ==> ServerFailure(r.result, DuplicateEmail)
    ensures r.result.Ok? <==>
              caller in db.accounts && !EmailHeldByOther(db.accounts, caller, OrElse(u.email, db.accounts[caller].email))
    ensures r.result.Ok? ==>
              var a := ApplyProfileUpdate(db.accounts[caller], u, lib.hash);
              && r.db == db.(accounts := db.accounts[caller := a])
              && r.result.value == View(caller, a)
  {
    if caller !in db.accounts then
      Step(Fail(Error(StatusNotFound, UserNotFound)), db)
    else
      var a := ApplyProfileUpdate(db.accounts[caller], u, lib.hash);
      if EmailHeldByOther(db.accounts, caller, a.email) then
        Step(Fail(Error(StatusServerError, DuplicateEmail)), db)
      else
        Step(Ok(View(caller, a)), db.(accounts := db.accounts[caller := a]))
  }

  /** After an update, reading the profile gives what the update returned. */
  lemma ProfileAfterUpdate(db: Db, lib: Library, caller: Id, u: ProfileUpdate)
    requires Valid(db)
    requires UpdateUserProfile(db, lib, caller, u).result.Ok?
    ensures var r := UpdateUserProfile(db, lib, caller, u);
            GetUserProfile(r.db.accounts, caller) == r.result
  {
  }
}
