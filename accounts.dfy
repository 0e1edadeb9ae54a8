/** The account endpoints of the current back end: `POST /api/signup` adds a
    user to the user table, `POST /api/login` checks an email and password
    against it. Both answer with a bearer token for the user's email.

    Password hashing, password verification and token creation belong to an
    authentication module outside this model; they are the functions of an
    `Auth` value. */
module Accounts {
  import opened Wrappers
  import opened Web

  /** A row of the user table. */
  datatype User = User(id: nat, email: string, username: string, hashedPassword: string)

  /** `get_password_hash`, `verify_password(plain, hashed)`, and the access
      token created for a subject. */
  datatype Auth = Auth(hash: string -> string, verify: (string, string) -> bool, token: string -> string)

  const EmailTaken := "Email already registered"
  const UsernameTaken := "Username already taken"
  const BadCredentials := "Incorrect email or password"

  /** `{"access_token": ..., "token_type": "bearer"}` for the given subject. */
  function TokenReply(auth: Auth, subject: string): Reply
  {
    Json([("access_token", auth.token(subject)), ("token_type", "bearer")])
  }

  /** `db.query(User).filter(User.email == email).first()`. */
  function FindByEmail(users: seq<User>, email: string): (r: Option<User>)
    ensures r.Some? <==> exists i :: 0 <= i < |users| && users[i].email == email
    ensures r.Some? ==> exists i :: 0 <= i < |users| && users[i] == r.value && r.value.email == email
                                    && forall j :: 0 <= j < i ==> users[j].email != email
    decreases |users|
  {
    if |users| == 0 then None
    else if users[0].email == email then Some(users[0])
    else
      var r := FindByEmail(users[1..], email);
      assert forall i :: 0 < i < |users| ==> users[i] == users[1..][i - 1];
      if r.Some? then
        ghost var i :| 0 <= i < |users[1..]| && users[1..][i] == r.value && r.value.email == email
                        && forall j :: 0 <= j < i ==> users[1..][j].email != email;
        assert users[i + 1] == r.value && forall j :: 0 <= j < i + 1 ==> users[j].email != email;
        r
      else r
  }

  /** `db.query(User).filter(User.username == username).first()`. */
  function FindByUsername(users: seq<User>, username: string): (r: Option<User>)
    ensures r.Some? <==> exists i :: 0 <= i < |users| && users[i].username == username
    ensures r.Some? ==> r.value in users && r.value.username == username
    decreases |users|
  {
    if |users| == 0 then None
    else if users[0].username == username then Some(users[0])
    else
      var r := FindByUsername(users[1..], username);
      assert forall i :: 0 < i < |users| ==> users[i] == users[1..][i - 1];
      r
  }

  /** No two users share an email. */
  predicate EmailsDistinct(users: seq<User>)
  {
    forall i, j :: 0 <= i < j < |users| ==> users[i].email != users[j].email
  }

  /** The table keeps emails, usernames and ids unique, and every id is
      below the next one to be assigned. */
  predicate Unique(users: seq<User>, nextId: nat)
  {
    && EmailsDistinct(users)
    && (forall i, j :: 0 <= i < j < |users| ==> users[i].username != users[j].username && users[i].id != users[j].id)
    && (forall i :: 0 <= i < |users| ==> users[i].id < nextId)
  }

  /** `login`: the token for the user with that email when the password
      verifies against the stored hash; one and the same 401 otherwise. */
  function Login(users: seq<User>, auth: Auth, email: string, password: string): (r: Reply)
    ensures r == Raised(HttpException(401, BadCredentials)) || r == TokenReply(auth, email)
    ensures r.Json? ==> exists i :: 0 <= i < |users| && users[i].email == email && auth.verify(password, users[i].hashedPassword)
    ensures EmailsDistinct(users) ==>
      (r.Json? <==> exists i :: 0 <= i < |users| && users[i].email == email && auth.verify(password, users[i].hashedPassword))
  {
    match FindByEmail(users, email)
    case None => Raised(HttpException(401, BadCredentials))
    case Some(user) =>
      if !auth.verify(password, user.hashedPassword) then Raised(HttpException(401, BadCredentials))
      else TokenReply(auth, user.email)
  }

  /** The user table, with the id the database assigns to the next row. */
  class UserTable {
    var users: seq<User>
    var nextId: nat

    ghost predicate Valid()
      reads this
    {
      Unique(users, nextId)
    }

    constructor ()
      ensures Valid() && users == [] && nextId == 1
    {
      users, nextId := [], 1;
    }

    /** `signup`: the email is checked before the username; a new user gets
        the next id and the hash of the password. */
    method Signup(auth: Auth, email: string, username: string, password: string) returns (reply: Reply)
      requires Valid()
      modifies this
      ensures Valid()
      ensures FindByEmail(old(users), email).Some? ==>
        reply == Raised(HttpException(400, EmailTaken)) && users == old(users) && nextId == old(nextId)
      ensures FindByEmail(old(users), email).None? && FindByUsername(old(users), username).Some? ==>
        reply == Raised(HttpException(400, UsernameTaken)) && users == old(users) && nextId == old(nextId)
      ensures FindByEmail(old(users), email).None? && FindByUsername(old(users), username).None? ==>
        && users == old(users) + [User(old(nextId), email, username, auth.hash(password))]
        && nextId == old(nextId) + 1
        && reply == TokenReply(auth, email)
    {
      if FindByEmail(users, email).Some? {
        return Raised(HttpException(400, EmailTaken));
      }
      if FindByUsername(users, username).Some? {
        return Raised(HttpException(400, UsernameTaken));
      }
      var user := User(nextId, email, username, auth.hash(password));
      users := users + [user];
      nextId := nextId + 1;
      reply := TokenReply(auth, user.email);
    }
  }

  /** An unknown email and a wrong password for a known one get the very same
      401, so the reply does not tell which of the two was wrong. */
  lemma LoginFailuresAlike(users: seq<User>, auth: Auth, unknown: string, anyPassword: string,
                           known: string, wrongPassword: string)
    requires EmailsDistinct(users)
    requires forall i :: 0 <= i < |users| ==> users[i].email != unknown
    requires exists i :: 0 <= i < |users| && users[i].email == known && !auth.verify(wrongPassword, users[i].hashedPassword)
    ensures Login(users, auth, unknown, anyPassword) == Login(users, auth, known, wrongPassword)
    ensures Login(users, auth, unknown, anyPassword) == Raised(HttpException(401, BadCredentials))
  {
  }

  /** A signup is found by its email afterwards, whatever came before, as
      long as the email was not registered yet. */
  lemma {:induction false} FoundAfterSignup(users: seq<User>, user: User)
    requires FindByEmail(users, user.email).None?
    ensures FindByEmail(users + [user], user.email) == Some(user)
    decreases |users|
  {
    if |users| > 0 {
      assert (users + [user])[1..] == users[1..] + [user];
      FoundAfterSignup(users[1..], user);
    }
  }

  /** Signing up and then logging in with the same email and password gives
      a token for that email, when verification accepts a password against
      its own hash. */
  lemma LoginAfterSignup(users: seq<User>, nextId: nat, auth: Auth, email: string, username: string, password: string)
    requires FindByEmail(users, email).None? && FindByUsername(users, username).None?
    requires auth.verify(password, auth.hash(password))
    ensures Login(users + [User(nextId, email, username, auth.hash(password))], auth, email, password) == TokenReply(auth, email)
  {
    FoundAfterSignup(users, User(nextId, email, username, auth.hash(password)));
  }

  /** A signup leaves every earlier user's login as it was, for every email
      but the new one. */
  lemma OtherLoginsUnchanged(users: seq<User>, user: User, auth: Auth, email: string, password: string)
    requires email != user.email
    ensures Login(users + [user], auth, email, password) == Login(users, auth, email, password)
  {
    OtherEmailsUnchanged(users, user, email);
  }

  lemma {:induction false} OtherEmailsUnchanged(users: seq<User>, user: User, email: string)
    requires email != user.email
    ensures FindByEmail(users + [user], email) == FindByEmail(users, email)
    decreases |users|
  {
    if |users| > 0 {
      assert (users + [user])[1..] == users[1..] + [user];
      OtherEmailsUnchanged(users[1..], user, email);
    }
  }
}
