/**
 * The access gate `protect(roles)` (authMiddleware.js): bearer-token
 * extraction, verification, loading the account, the role check and the
 * doctor-approval check. Inside the token branch every failure is caught
 * and reported as 401 "Not authorized, token failed", whatever status was
 * set before; without a bearer header the reply is 401 "Not authorized, no
 * token".
 */
module AuthMiddleware {
  import opened Http
  import opened UserModel
  import opened Crypto

  const NoToken := "Not authorized, no token"
  const TokenFailed := "Not authorized, token failed"
  const PendingListPath := "/doctors/pending"

  // ------------------------------------------------------------- strings

  /** `part` occurs in `s` at position `i`. */
  predicate OccursAt(s: string, part: string, i: int)
  {
    0 <= i && i + |part| <= |s| && s[i..i + |part|] == part
  }

  /** String.prototype.includes. */
  predicate Includes(s: string, part: string)
  {
    exists i :: 0 <= i <= |s| && OccursAt(s, part, i)
  }

  /** The text after the first space of `s`, if `s` has a space. */
  function AfterFirstSpace(s: string): (r: Option<string>)
    ensures r.None? <==> ' ' !in s
    ensures r.Some? ==> |r.value| < |s|
  {
    if s == [] then None
    else if s[0] == ' ' then Some(s[1..])
    else AfterFirstSpace(s[1..])
  }

  /** The text of `s` up to its first space. */
  function UpToSpace(s: string): (r: string)
    ensures ' ' !in r
    ensures |r| <= |s| && r == s[..|r|]
  {
    if s == [] || s[0] == ' ' then [] else [s[0]] + UpToSpace(s[1..])
  }

  /** `s.split(' ')[1]`: the second space-separated field, undefined when
      `s` has no space. */
  function SecondField(s: string): (r: Option<string>)
    ensures r.None? <==> ' ' !in s
    ensures r.Some? ==> ' ' !in r.value
  {
    match AfterFirstSpace(s)
    case None => None
    case Some(rest) => Some(UpToSpace(rest))
  }

  lemma {:induction false} AfterFirstSpaceOf(w: string, rest: string)
    requires ' ' !in w
    ensures AfterFirstSpace(w + " " + rest) == Some(rest)
  {
    if w == [] {
      assert w + " " + rest == [' '] + rest;
    } else {
      assert (w + " " + rest)[1..] == w[1..] + " " + rest;
      AfterFirstSpaceOf(w[1..], rest);
    }
  }

  lemma {:induction false} UpToSpaceOfWord(w: string)
    requires ' ' !in w
    ensures UpToSpace(w) == w
  {
    if w != [] {
      UpToSpaceOfWord(w[1..]);
      assert w == [w[0]] + w[1..];
    }
  }

  /** The header a client sends, `Authorization: Bearer <token>`. */
  function BearerHeader(token: string): string
  {
    "Bearer " + token
  }

  /** The gate reads back the token a client put in the header. */
  lemma TokenOfBearerHeader(token: string)
    requires ' ' !in token
    ensures StartsWith(BearerHeader(token), "Bearer")
    ensures SecondField(BearerHeader(token)) == Some(token)
  {
    AfterFirstSpaceOf("Bearer", token);
    UpToSpaceOfWord(token);
    assert BearerHeader(token) == "Bearer" + " " + token;
  }

  // ---------------------------------------------------------------- gate

  datatype GateResult = Admit(user: AccountView) | Reject(error: Error)

  /** The header is present and starts with "Bearer". */
  predicate HasBearer(header: Option<string>)
  {
    header.Some? && StartsWith(header.value, "Bearer")
  }

  /** The claims of the header's token; None when jwt.verify throws (an
      undefined or empty token always makes it throw). */
  function VerifiedClaims(header: string, lib: Library): Option<Claims>
  {
    match SecondField(header)
    case None => None
    case Some(token) => if token == "" then None else lib.verify(token)
  }

  /** The header carries a bearer token that verifies to the id of an
      existing account. */
  predicate IdentifiedAs(header: Option<string>, lib: Library, accounts: map<Id, Account>, id: Id)
  {
    && HasBearer(header)
    && VerifiedClaims(header.value, lib).Some?
    && VerifiedClaims(header.value, lib).value.id == id
    && id in accounts
  }

  predicate RoleAllowed(roles: seq<Role>, role: Role)
  {
    |roles| == 0 || role in roles
  }

  /** The approval check: an unapproved doctor passes only on a request path
      that contains "/doctors/pending". */
  predicate ApprovalPasses(a: Account, path: string)
  {
    !(a.role == Doctor && !a.isApproved && !Includes(path, PendingListPath))
  }

  /** protect(roles) on a request with the Authorization `header` and the
      router-relative `path`. */
  function Protect(roles: seq<Role>, header: Option<string>, path: string, lib: Library, accounts: map<Id, Account>)
    : (r: GateResult)
    ensures !HasBearer(header) ==> r == Reject(Error(StatusUnauthorized, NoToken))
    ensures HasBearer(header) && r.Reject? ==> r.error == Error(StatusUnauthorized, TokenFailed)
    ensures r.Admit? ==> exists id :: IdentifiedAs(header, lib, accounts, id) && r.user == View(id, accounts[id])
    ensures r.Admit? ==> RoleAllowed(roles, r.user.role)
    ensures r.Admit? && r.user.role == Doctor ==> r.user.isApproved || Includes(path, PendingListPath)
    ensures forall id :: IdentifiedAs(header, lib, accounts, id) ==>
              (r.Admit? <==> RoleAllowed(roles, accounts[id].role) && ApprovalPasses(accounts[id], path))
  {
    if !HasBearer(header) then
      Reject(Error(StatusUnauthorized, NoToken))
    else
      match VerifiedClaims(header.value, lib)
      case None => Reject(Error(StatusUnauthorized, TokenFailed))
      case Some(claims) =>
        if claims.id !in accounts then
          Reject(Error(StatusUnauthorized, TokenFailed))
        else
          var a := accounts[claims.id];
          if !RoleAllowed(roles, a.role) then
            Reject(Error(StatusUnauthorized, TokenFailed))
          else if !ApprovalPasses(a, path) then
            Reject(Error(StatusUnauthorized, TokenFailed))
          else
            Admit(View(claims.id, a))
  }

  /** Every rejection is a 401; the role and approval checks cannot be told
      apart from a bad token. */
  lemma RejectionsAre401(roles: seq<Role>, header: Option<string>, path: string, lib: Library, accounts: map<Id, Account>)
    ensures var r := Protect(roles, header, path, lib, accounts);
            r.Reject? ==> r.error.status == StatusUnauthorized && r.error.message in {NoToken, TokenFailed}
  {
  }

  /** A header of exactly "Bearer" (no token) is a failed token, not a
      missing one: the first error passed to next() is the one the client
      sees. */
  lemma BareBearerIsTokenFailure(roles: seq<Role>, path: string, lib: Library, accounts: map<Id, Account>)
    ensures Protect(roles, Some("Bearer"), path, lib, accounts) == Reject(Error(StatusUnauthorized, TokenFailed))
  {
    assert ' ' !in "Bearer";
  }

  /** An empty role list admits every role. */
  lemma EmptyRolesAdmitAnyRole(header: Option<string>, path: string, lib: Library, accounts: map<Id, Account>,
                               roles: seq<Role>)
    ensures Protect(roles, header, path, lib, accounts).Admit? ==> Protect([], header, path, lib, accounts).Admit?
  {
  }

  /** A token issued for an existing account opens the gate of a route that
      allows its role, unless it is an unapproved doctor's. */
  lemma IssuedTokenAdmits(roles: seq<Role>, path: string, lib: Library, accounts: map<Id, Account>, id: Id)
    requires VerifiesOwnTokens(lib) && TokensAreWords(lib)
    requires id in accounts && RoleAllowed(roles, accounts[id].role)
    requires accounts[id].role == Doctor ==> accounts[id].isApproved
    ensures var token := lib.sign(Claims(id, accounts[id].role));
            Protect(roles, Some(BearerHeader(token)), path, lib, accounts) == Admit(View(id, accounts[id]))
  {
    var token := lib.sign(Claims(id, accounts[id].role));
    TokenOfBearerHeader(token);
  }
}
