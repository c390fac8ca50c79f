/**
 * Registration and login (authController.js): email uniqueness on
 * registration, the approval flag set from the role, the order of the
 * password and approval checks on login, and token issue.
 */
module AuthController {
  import opened Http
  import opened UserModel
  import opened Crypto
  import opened Database

  const EmailTaken := "User with this email already exists"
  /** The leading words of the ValidationError Mongoose throws. */
  const UserValidationFailed := "User validation failed"
  const InvalidCredentials := "Invalid email or password"
  /** The leading words of the error bcryptjs throws when compare is given
      something other than a string, such as a password left out. */
  const IllegalArguments := "Illegal arguments"
  const PendingApproval := "Your doctor account is pending approval. Please wait for an admin to approve."
  const DoctorRegistered := "Doctor registration submitted for approval. Please wait for an admin to approve your account."
  const Registered := "Registration successful."

  /** generateToken: a signed token carrying the id and the role. */
  function GenerateToken(lib: Library, id: Id, role: Role): (token: string)
    ensures VerifiesOwnTokens(lib) ==> lib.verify(token) == Some(Claims(id, role))
    ensures TokensAreWords(lib) ==> token != "" && ' ' !in token
  {
    lib.sign(Claims(id, role))
  }

  /** The body of POST /api/auth/register; '' is a field left out. */
  datatype RegisterRequest = RegisterRequest(
    name: string,
    email: string,
    password: string,
    role: string,
    specialty: string,
    location: string)

  datatype RegisterResponse = RegisterResponse(
    id: Id,
    name: string,
    email: string,
    role: Role,
    isApproved: bool,
    specialty: Option<string>,
    location: Option<string>,
    token: string,
    message: string)

  /** The document registerUser hands to User.create. */
  function RegistrationFields(req: RegisterRequest): (f: NewAccount)
    ensures f.isApproved == Some(req.role != "doctor")
    ensures f.role == Some(OrElse(req.role, "customer"))
    ensures f.specialty.Some? <==> req.role == "doctor"
    ensures f.location.Some? <==> req.role == "doctor"
  {
    var doctor := req.role == "doctor";
    NewAccount(req.name, req.email, req.password, Some(OrElse(req.role, "customer")),
               if doctor then Some(req.specialty) else None,
               if doctor then Some(req.location) else None,
               Some(!doctor))
  }

  /** The account registration stores for a well-formed request: approved
      exactly when it is not a doctor, customer when no role is given, any
      role of the enum (admin included) taken as given, and doctor fields
      only on a doctor. */
  lemma RegisteredAccountShape(req: RegisterRequest, hash: string -> string)
    requires CreateAccount(RegistrationFields(req), hash).Some?
    ensures var a := CreateAccount(RegistrationFields(req), hash).value;
            && (a.isApproved <==> a.role != Doctor)
            && (req.role == "" ==> a.role == Customer)
            && (req.role != "" ==> ParseRole(req.role) == Some(a.role))
            && (a.role == Doctor <==> a.specialty.Some?)
            && (a.role == Doctor <==> a.location.Some?)
            && (a.role == Doctor ==> a.specialty == Some(req.specialty) && a.location == Some(req.location))
  {
    var f := RegistrationFields(req);
    var a := CreateAccount(f, hash).value;
    assert RoleName(a.role) == OrElse(req.role, "customer");
  }

  predicate EmailRegistered(accounts: map<Id, Account>, email: string)
  {
    exists id :: id in accounts && accounts[id].email == email
  }

  function RegistrationMessage(role: Role): string
  {
    if role == Doctor then DoctorRegistered else Registered
  }

  /** registerUser: 400 for an email in use, 500 when the schema refuses the
      document, otherwise one new account and 201 with a token, whatever the
      role. */
  function RegisterUser(db: Db, lib: Library, req: RegisterRequest): (r: Step<RegisterResponse>)
    requires Valid(db)
    ensures Valid(r.db)
    ensures r.db.appointments == db.appointments
    ensures r.result.Fail? ==> r.db == db
    ensures EmailRegistered(db.accounts, req.email) ==> r.result == Fail(Error(StatusBadRequest, EmailTaken))
    ensures !EmailRegistered(db.accounts, req.email) && !SchemaAccepts(RegistrationFields(req))
            ==> ServerFailure(r.result, UserValidationFailed)
    ensures r.result.Ok? <==> !EmailRegistered(db.accounts, req.email) && SchemaAccepts(RegistrationFields(req))
    ensures r.result.Ok? ==>
              var resp := r.result.value;
              var a := CreateAccount(RegistrationFields(req), lib.hash).value;
              && resp.id !in db.accounts
              && r.db.accounts == db.accounts[resp.id := a]
              && resp == RegisterResponse(resp.id, a.name, a.email, a.role, a.isApproved, a.specialty, a.location,
                                          GenerateToken(lib, resp.id, a.role), RegistrationMessage(a.role))
  {
    if EmailRegistered(db.accounts, req.email) then
      Step(Fail(Error(StatusBadRequest, EmailTaken)), db)
    else
      match CreateAccount(RegistrationFields(req), lib.hash)
      case None => Step(Fail(Error(StatusServerError, UserValidationFailed)), db)
      case Some(a) =>
        var id := FreshId(db);
        var db' := db.(accounts := db.accounts[id := a], nextId := db.nextId + 1);
        var resp := RegisterResponse(id, a.name, a.email, a.role, a.isApproved, a.specialty, a.location,
                                     GenerateToken(lib, id, a.role), RegistrationMessage(a.role));
        Step(Ok(resp), db')
  }

  /** findOne({ email }): the account holding an email, if any. */
  ghost function FindByEmail(accounts: map<Id, Account>, email: string): (r: Option<Id>)
    ensures r.None? <==> !EmailRegistered(accounts, email)
    ensures r.Some? ==> r.value in accounts && accounts[r.value].email == email
  {
    if EmailRegistered(accounts, email) then
      var id :| id in accounts && accounts[id].email == email;
      Some(id)
    else
      None
  }

  /** The body of a successful login: exactly these fields. */
  datatype LoginResponse = LoginResponse(id: Id, name: string, email: string, role: Role, token: string)

  /** authUser: an unknown email and a wrong password give the same 401; the
      password is checked before approval, so only an unapproved doctor with
      the right password learns that the account is pending. A body without
      a password (None) makes compare throw once the email is found: 500. */
  ghost function AuthUser(accounts: map<Id, Account>, lib: Library, email: string, password: Option<string>): (r: Result<LoginResponse>)
    requires EmailsUnique(accounts)
    ensures !EmailRegistered(accounts, email) ==> r == Fail(Error(StatusUnauthorized, InvalidCredentials))
    ensures EmailRegistered(accounts, email) && password.None? ==> ServerFailure(r, IllegalArguments)
    ensures forall id :: id in accounts && accounts[id].email == email && password.Some? ==>
              var a := accounts[id];
              && (!MatchPassword(lib, password.value, a) ==> r == Fail(Error(StatusUnauthorized, InvalidCredentials)))
              && (MatchPassword(lib, password.value, a) && a.role == Doctor && !a.isApproved
                  ==> r == Fail(Error(StatusUnauthorized, PendingApproval)))
              && (MatchPassword(lib, password.value, a) && (a.role != Doctor || a.isApproved)
                  ==> r == Ok(LoginResponse(id, a.name, a.email, a.role, GenerateToken(lib, id, a.role))))
  {
    match FindByEmail(accounts, email)
    case None => Fail(Error(StatusUnauthorized, InvalidCredentials))
    case Some(id) =>
      var a := accounts[id];
      if password.None? then
        Fail(Error(StatusServerError, IllegalArguments))
      else if MatchPassword(lib, password.value, a) then
        if a.role == Doctor && !a.isApproved then
          Fail(Error(StatusUnauthorized, PendingApproval))
        else
          Ok(LoginResponse(id, a.name, a.email, a.role, GenerateToken(lib, id, a.role)))
      else
        Fail(Error(StatusUnauthorized, InvalidCredentials))
  }

  /** Every login failure with a password given is a 401, and its message is
      one of the two; without a password the failure is a 401 exactly when
      the email is unknown, and a 500 otherwise. */
  lemma LoginFailuresAre401(accounts: map<Id, Account>, lib: Library, email: string, password: Option<string>)
    requires EmailsUnique(accounts)
    ensures var r := AuthUser(accounts, lib, email, password);
            password.Some? && r.Fail? ==> r.error.status == StatusUnauthorized
                                          && r.error.message in {InvalidCredentials, PendingApproval}
    ensures var r := AuthUser(accounts, lib, email, password);
            password.None? ==> r.Fail? && (r.error.status == StatusUnauthorized <==> !EmailRegistered(accounts, email))
  {
  }

  /** A freshly registered customer or admin can log in with the password
      they chose; a freshly registered doctor is told the account is pending. */
  lemma {:induction false} LoginAfterRegister(db: Db, lib: Library, req: RegisterRequest)
    requires Valid(db) && HashMatches(lib)
    requires RegisterUser(db, lib, req).result.Ok?
    ensures var r := RegisterUser(db, lib, req);
            var login := AuthUser(r.db.accounts, lib, req.email, Some(req.password));
            && (r.result.value.role != Doctor ==>
                  login == Ok(LoginResponse(r.result.value.id, req.name, req.email, r.result.value.role,
                                            r.result.value.token)))
            && (r.result.value.role == Doctor ==> login == Fail(Error(StatusUnauthorized, PendingApproval)))
  {
    var r := RegisterUser(db, lib, req);
    var id := r.result.value.id;
    var a := r.db.accounts[id];
    assert a == CreateAccount(RegistrationFields(req), lib.hash).value;
    assert a.email == req.email && a.password == lib.hash(req.password);
    assert MatchPassword(lib, req.password, a);
    RegisteredAccountShape(req, lib.hash);
  }
}
