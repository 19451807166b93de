/**
 * The session token (a JSON Web Token in a cookie named `token`) and the gate
 * that every project handler opens with. Signing and verification belong to
 * the jsonwebtoken library; they are held abstract as the two arrows of a
 * `Codec`, under a secret that is fixed for the life of the process.
 */
module Session {
  import opened Wrappers

  type UserId = string
  type Token = string

  /**
   * `sign` is jwt.sign of the payload `{ userId }`; `verify` is jwt.verify
   * followed by reading `userId`. `None` from `verify` stands for jwt.verify
   * throwing (bad signature, malformed token, wrong secret).
   */
  datatype Codec = Codec(sign: UserId -> Token, verify: Token -> Option<UserId>)

  /**
   * What the library promises and the model relies on: a signed token
   * verifies to the identifier it was signed for, and it is never the empty
   * string (a JWT always has three dot-separated parts).
   */
  ghost predicate Sound(c: Codec) {
    forall u :: c.verify(c.sign(u)) == Some(u) && c.sign(u) != ""
  }

  /** `if (!token)` in JavaScript rejects both an absent cookie and an empty one. */
  predicate Present(cookie: Option<Token>) {
    cookie.Some? && cookie.value != ""
  }

  /** Outcome of the gate: no token (401), a token jwt.verify refuses (500), or the caller. */
  datatype Identity = Missing | Rejected | Authenticated(userId: UserId)

  /** Reading the `token` cookie and verifying it; the gate does not look the user up. */
  function Authenticate(cookie: Option<Token>, c: Codec): (id: Identity)
    ensures id.Missing? <==> !Present(cookie)
    ensures id.Rejected? <==> Present(cookie) && c.verify(cookie.value).None?
    ensures id.Authenticated? <==> Present(cookie) && c.verify(cookie.value).Some?
    ensures id.Authenticated? ==> c.verify(cookie.value) == Some(id.userId)
  {
    if !Present(cookie) then Missing
    else
      match c.verify(cookie.value)
      case None => Rejected
      case Some(u) => Authenticated(u)
  }

  /** A token issued for `u` passes the gate of every handler as exactly `u`. */
  lemma IssuedTokenAuthenticates(c: Codec, u: UserId)
    requires Sound(c)
    ensures Authenticate(Some(c.sign(u)), c) == Authenticated(u)
  {

  }
}
