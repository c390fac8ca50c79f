/**
 * The account record of the user directory (the users collection): the role
 * enum, what the schema accepts and which defaults it fills in, the
 * doctor-only fields, and the projection without the password that the
 * handlers send out.
 */
module UserModel {
  import opened Http

  /** Documents are keyed by opaque ids; the model only compares them. */
  type Id = nat

  datatype Role = Customer | Doctor | Admin

  function RoleName(r: Role): string
  {
    match r
    case Customer => "customer"
    case Doctor => "doctor"
    case Admin => "admin"
  }

  /** The schema's enum check on a role string. */
  function ParseRole(s: string): (r: Option<Role>)
    ensures r.Some? ==> RoleName(r.value) == s
    ensures r.None? <==> s !in {"customer", "doctor", "admin"}
  {
    if s == "customer" then Some(Customer)
    else if s == "doctor" then Some(Doctor)
    else if s == "admin" then Some(Admin)
    else None
  }

  lemma ParseRoleName(r: Role)
    ensures ParseRole(RoleName(r)) == Some(r)
  {
  }

  /** A stored account. `password` holds the bcrypt hash, never the plain
      text; `specialty` and `location` are None when the document has no such
      field. */
  datatype Account = Account(
    name: string,
    email: string,
    password: string,
    role: Role,
    specialty: Option<string>,
    location: Option<string>,
    isApproved: bool)

  /** A `required` string: Mongoose rejects a missing value and '' alike. */
  predicate Present(s: Option<string>)
  {
    s.Some? && s.value != ""
  }

  /** What every stored account satisfies: name and email are set, and a
      doctor has a specialty and a location. */
  predicate ValidAccount(a: Account)
  {
    && a.name != ""
    && a.email != ""
    && (a.role == Doctor ==> Present(a.specialty) && Present(a.location))
  }

  /** The unique index on email. */
  ghost predicate EmailsUnique(accounts: map<Id, Account>)
  {
    forall i, j :: i in accounts && j in accounts && accounts[i].email == accounts[j].email ==> i == j
  }

  /** An account as `select('-password')` returns it. */
  datatype AccountView = AccountView(
    id: Id,
    name: string,
    email: string,
    role: Role,
    specialty: Option<string>,
    location: Option<string>,
    isApproved: bool)

  function View(id: Id, a: Account): AccountView
  {
    AccountView(id, a.name, a.email, a.role, a.specialty, a.location, a.isApproved)
  }

  /** The document handed to User.create; None is a field left undefined. */
  datatype NewAccount = NewAccount(
    name: string,
    email: string,
    password: string,
    role: Option<string>,
    specialty: Option<string>,
    location: Option<string>,
    isApproved: Option<bool>)

  /** The role after the schema default: an undefined role is customer. */
  function ResolvedRole(f: NewAccount): Option<Role>
  {
    if f.role.None? then Some(Customer) else ParseRole(f.role.value)
  }

  /** Schema validation: name, email and password are required, the role is
      in the enum, and specialty and location are required exactly when the
      role is doctor. */
  predicate SchemaAccepts(f: NewAccount)
  {
    && f.name != ""
    && f.email != ""
    && f.password != ""
    && ResolvedRole(f).Some?
    && (ResolvedRole(f).value == Doctor ==> Present(f.specialty) && Present(f.location))
  }

  /** User.create: validation, the defaults of the schema, then the pre-save
      hook that replaces the password by its hash. None is a validation
      failure. */
  function CreateAccount(f: NewAccount, hash: string -> string): (r: Option<Account>)
    ensures r.Some? <==> SchemaAccepts(f)
    ensures r.Some? ==> ValidAccount(r.value)
    ensures r.Some? && f.role.None? ==> r.value.role == Customer
    ensures r.Some? && f.role.Some? ==> RoleName(r.value.role) == f.role.value
    ensures r.Some? && f.isApproved.None? ==> !r.value.isApproved
    ensures r.Some? && f.isApproved.Some? ==> r.value.isApproved == f.isApproved.value
    ensures r.Some? ==> r.value.password == hash(f.password)
    ensures r.Some? ==> r.value.name == f.name && r.value.email == f.email
    ensures r.Some? ==> r.value.specialty == f.specialty && r.value.location == f.location
  {
    if SchemaAccepts(f) then
      Some(Account(f.name, f.email, hash(f.password), ResolvedRole(f).value,
                   f.specialty, f.location, f.isApproved.GetOr(false)))
    else
      None
  }

  /** A doctor document without a specialty or a location is refused; so is
      one with '' in either. */
  lemma DoctorFieldsRequired(f: NewAccount, hash: string -> string)
    requires f.role == Some("doctor")
    ensures CreateAccount(f, hash).Some? ==> Present(f.specialty) && Present(f.location)
    ensures f.name != "" && f.email != "" && f.password != "" && Present(f.specialty) && Present(f.location)
            ==> CreateAccount(f, hash).Some?
  {
  }
}
