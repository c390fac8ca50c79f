/**
 * The registration form (RegisterPage.js): the payload it sends, the roles
 * it offers, and the error, success and loading state after a reply.
 */
module RegisterPage {
  import opened Http
  import UserModel
  import Auth = AuthController

  const DefaultRole := "customer"
  /** The roles the form's menu offers. */
  const SelectableRoles := ["customer", "doctor"]
  const RegisterFallback := "Registration failed"

  /** The userData object sent to the server; specialty and location are
      None when the object has no such key. */
  datatype Payload = Payload(
    name: string,
    email: string,
    password: string,
    role: string,
    specialty: Option<string>,
    location: Option<string>)

  /** handleSubmit's payload: the four fields always, specialty and location
      exactly when the role is doctor. */
  function BuildRegistrationPayload(name: string, email: string, password: string, role: string,
                                    specialty: string, location: string): (p: Payload)
    ensures p.name == name && p.email == email && p.password == password && p.role == role
    ensures p.specialty.Some? <==> role == "doctor"
    ensures p.location.Some? <==> role == "doctor"
    ensures role == "doctor" ==> p.specialty == Some(specialty) && p.location == Some(location)
  {
    if role == "doctor" then Payload(name, email, password, role, Some(specialty), Some(location))
    else Payload(name, email, password, role, None, None)
  }

  /** The request body the server reads from the payload; a key left out
      reads as ''. */
  function AsRequest(p: Payload): Auth.RegisterRequest
  {
    Auth.RegisterRequest(p.name, p.email, p.password, p.role, p.specialty.GetOr(""), p.location.GetOr(""))
  }

  /** Through the form no one registers as an admin: an account the server
      creates from a form payload is a customer (approved) or a doctor
      (pending) carrying the form's specialty and location. */
  lemma FormRegistersNoAdmin(name: string, email: string, password: string, role: string,
                             specialty: string, location: string, hash: string -> string)
    requires role in SelectableRoles
    requires UserModel.CreateAccount(Auth.RegistrationFields(
               AsRequest(BuildRegistrationPayload(name, email, password, role, specialty, location))), hash).Some?
    ensures var a := UserModel.CreateAccount(Auth.RegistrationFields(
                       AsRequest(BuildRegistrationPayload(name, email, password, role, specialty, location))), hash).value;
            && a.role != UserModel.Admin
            && (a.role == UserModel.Customer ==> a.isApproved)
            && (a.role == UserModel.Doctor ==> !a.isApproved && a.specialty == Some(specialty) && a.location == Some(location))
  {
    var req := AsRequest(BuildRegistrationPayload(name, email, password, role, specialty, location));
    Auth.RegisteredAccountShape(req, hash);
  }

  /** The server's reply: success with its message, or failure with the
      body's message ('' when there is none). */
  datatype RegisterReply = Registered(message: string) | RegisterFailed(message: string)

  class RegisterForm {
    var name: string
    var email: string
    var password: string
    var role: string
    var specialty: string
    var location: string
    var error: string
    var success: string
    var loading: bool

    constructor ()
      ensures name == "" && email == "" && password == "" && specialty == "" && location == ""
      ensures role == DefaultRole
      ensures error == "" && success == "" && !loading
    {
      name, email, password := "", "", "";
      role := DefaultRole;
      specialty, location := "", "";
      error, success := "", "";
      loading := false;
    }

    /** The menu's onChange: only the offered roles can be chosen. */
    method SelectRole(r: string)
      requires r in SelectableRoles
      modifies this
      ensures role == r
      ensures name == old(name) && email == old(email) && password == old(password)
      ensures specialty == old(specialty) && location == old(location)
      ensures error == old(error) && success == old(success) && loading == old(loading)
    {
      role := r;
    }

    /** handleSubmit: builds the payload, then records the reply it got. */
    method HandleSubmit(reply: RegisterReply) returns (sent: Payload)
      modifies this
      ensures sent == BuildRegistrationPayload(name, email, password, role, specialty, location)
      ensures name == old(name) && email == old(email) && password == old(password) && role == old(role)
      ensures specialty == old(specialty) && location == old(location)
      ensures !loading
      ensures reply.Registered? ==> success == reply.message && error == ""
      ensures reply.RegisterFailed? ==> error == OrElse(reply.message, RegisterFallback) && success == ""
    {
      error := "";
      success := "";
      loading := true;
      var userData := Payload(name, email, password, role, None, None);
      if role == "doctor" {
        userData := userData.(specialty := Some(specialty));
        userData := userData.(location := Some(location));
      }
      sent := userData;
      match reply {
        case Registered(message) => success := message;
        case RegisterFailed(message) => error := OrElse(message, RegisterFallback);
      }
      loading := false;
    }
  }
}
