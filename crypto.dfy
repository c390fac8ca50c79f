/**
 * The two foreign libraries the server relies on, as uninterpreted
 * functions: bcrypt (hash, compare) and jsonwebtoken (sign, verify). The
 * server secret and the 30-day expiry are folded into sign and verify.
 */
module Crypto {
  import opened Http
  import opened UserModel

  /** The payload a session token carries. */
  datatype Claims = Claims(id: Id, role: Role)

  datatype Library = Library(
    hash: string -> string,
    compare: (string, string) -> bool,
    sign: Claims -> string,
    verify: string -> Option<Claims>)

  /** matchPassword: bcrypt.compare of the entered text with the stored hash. */
  function MatchPassword(lib: Library, entered: string, a: Account): (r: bool)
    ensures HashMatches(lib) && a.password == lib.hash(entered) ==> r
  {
    lib.compare(entered, a.password)
  }

  /** What jsonwebtoken promises: a token it signed verifies to its claims
      (before it expires). */
  ghost predicate VerifiesOwnTokens(lib: Library)
  {
    forall c :: lib.verify(lib.sign(c)) == Some(c)
  }

  /** A signed token is never empty and holds no space (it is three base64url
      parts joined by dots). */
  ghost predicate TokensAreWords(lib: Library)
  {
    forall c :: lib.sign(c) != "" && ' ' !in lib.sign(c)
  }

  /** What bcrypt promises: a password matches its own hash. */
  ghost predicate HashMatches(lib: Library)
  {
    forall p :: lib.compare(p, lib.hash(p))
  }
}
