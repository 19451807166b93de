/**
 * POST /api/auth/login: look the user up by email, compare the password with
 * the stored hash, and on success set the `token` cookie to a fresh session
 * token. The user table is only read. bcrypt.compare is the arrow `matches`.
 */
module Login {
  import opened Wrappers
  import opened Session

  type Email = string

  /** A stored user, as far as login reads it. */
  datatype User = User(id: UserId, passwordHash: string)

  datatype Body = ErrorBody(error: string) | MessageBody(message: string)

  /** The JSON answer and the cookie the answer sets, if any. */
  datatype Response = Response(status: nat, body: Body, cookie: Option<Token>)

  const UserNotFound := Response(400, ErrorBody("User not found"), None)
  const InvalidPassword := Response(400, ErrorBody("Invalid password"), None)

  function SignIn(
    users: map<Email, User>, email: Email, password: string,
    matches: (string, string) -> bool, codec: Codec): (r: Response)
    ensures r.status == 200 || r.status == 400
    ensures r.status == 200 <==> email in users && matches(password, users[email].passwordHash)
    ensures r.cookie.Some? <==> r.status == 200
    ensures email !in users ==> r == UserNotFound
    ensures email in users && !matches(password, users[email].passwordHash) ==> r == InvalidPassword
    ensures r.status == 200 ==>
              r.body == MessageBody("Login successful") && r.cookie == Some(codec.sign(users[email].id))
  {
    if email !in users then UserNotFound
    else
      var user := users[email];
      if !matches(password, user.passwordHash) then InvalidPassword
      else Response(200, MessageBody("Login successful"), Some(codec.sign(user.id)))
  }

  /**
   * The lookup comes first: for an unknown email the answer does not depend
   * on the password check at all, whatever bcrypt.compare would say.
   */
  lemma UnknownEmailSkipsPasswordCheck(
    users: map<Email, User>, email: Email, p1: string, p2: string,
    m1: (string, string) -> bool, m2: (string, string) -> bool, codec: Codec)
    requires email !in users
    ensures SignIn(users, email, p1, m1, codec) == SignIn(users, email, p2, m2, codec) == UserNotFound
  {
  }

  /**
   * Login reads only the row for `email`: two user tables that agree on it
   * give the same answer.
   */
  lemma SignInReadsOneRow(
    users1: map<Email, User>, users2: map<Email, User>, email: Email, password: string,
    matches: (string, string) -> bool, codec: Codec)
    requires email in users1 <==> email in users2
    requires email in users1 ==> users1[email] == users2[email]
    ensures SignIn(users1, email, password, matches, codec) == SignIn(users2, email, password, matches, codec)
  {
  }

  /**
   * The cookie set by a successful login passes the gate of every project
   * handler as exactly the logged-in user.
   */
  lemma SessionCarriesUser(
    users: map<Email, User>, email: Email, password: string,
    matches: (string, string) -> bool, codec: Codec)
    requires Sound(codec)
    requires SignIn(users, email, password, matches, codec).status == 200
    ensures email in users
    ensures Authenticate(SignIn(users, email, password, matches, codec).cookie, codec)
              == Authenticated(users[email].id)
  {

  }
}
