/**
 * `routes/auth_routes.py`: the signup validation sequence and its status
 * codes, and the login lookup by username then e-mail.  The user
 * collection is a sequence of records searched in order; `bcrypt` is
 * modelled as comparing the stored password with the given one, and the
 * token as the identity it carries, `str(user.id)`.
 */
module AuthRoutes {
  import opened Wrappers
  import opened Text

  datatype SignupRequest = SignupRequest(username: Field, email: Field, password: Field)

  datatype LoginRequest = LoginRequest(username: Field, password: Field)

  /** A stored user; `password` stands for the password the hash was made from. */
  datatype UserRecord = UserRecord(id: int, username: string, email: string, password: string)

  /** A response: status code, error text, and the identity of the issued token. */
  datatype Reply = Reply(code: int, error: Option<string>, identity: Option<string>)

  /** `User.find_by_username`: the first user with that exact username. */
  function FindByUsername(users: seq<UserRecord>, username: string): (r: Option<UserRecord>)
    ensures r.Some? ==> r.value in users && r.value.username == username
    ensures r.None? <==> forall i :: 0 <= i < |users| ==> users[i].username != username
  {
    if users == [] then None
    else if users[0].username == username then Some(users[0])
    else
      var rest := FindByUsername(users[1..], username);
      assert forall i :: 1 <= i < |users| ==> users[i] == users[1..][i - 1];
      rest
  }

  /** `User.find_by_email`: the first user with that exact e-mail. */
  function FindByEmail(users: seq<UserRecord>, email: string): (r: Option<UserRecord>)
    ensures r.Some? ==> r.value in users && r.value.email == email
    ensures r.None? <==> forall i :: 0 <= i < |users| ==> users[i].email != email
  {
    if users == [] then None
    else if users[0].email == email then Some(users[0])
    else
      var rest := FindByEmail(users[1..], email);
      assert forall i :: 1 <= i < |users| ==> users[i] == users[1..][i - 1];
      rest
  }

  function Error(code: int, message: string): Reply {
    Reply(code, Some(message), None)
  }

  /**
   * `signup`.  `nextId` is the value the user-id sequence hands out.  A
   * `null` where a string is expected raises, which the handler turns into
   * a 500 at the point where the value is first used; the exception text
   * the handler appends to the 500 message is not modelled.
   */
  function Signup(users: seq<UserRecord>, req: SignupRequest, nextId: int): (r: (Reply, seq<UserRecord>))
    ensures r.0.code != 201 ==> r.1 == users
    ensures r.0.code == 201 ==> r.0.identity == Some(IntToDec(nextId))
  {
    if req.username.Absent? || req.email.Absent? || req.password.Absent? then
      (Error(400, "Missing required fields"), users)
    else if req.username.Null? || req.email.Null? then
      (Error(500, "Registration failed"), users)
    else
      var username := Strip(req.username.s);
      var email := Lower(Strip(req.email.s));
      if |username| < 3 then (Error(400, "Username must be at least 3 characters"), users)
      else if req.password.Null? then (Error(500, "Registration failed"), users)
      else if |req.password.s| < 6 then (Error(400, "Password must be at least 6 characters"), users)
      else if '@' !in email then (Error(400, "Invalid email format"), users)
      else if FindByUsername(users, username).Some? then (Error(409, "Username already exists"), users)
      else if FindByEmail(users, email).Some? then (Error(409, "Email already registered"), users)
      else (Reply(201, None, Some(IntToDec(nextId))), users + [UserRecord(nextId, username, email, req.password.s)])
  }

  /** The validation order of `signup`, one rejection at a time. */
  lemma SignupValidationOrder(users: seq<UserRecord>, u: string, e: string, p: string, nextId: int)
    ensures var r := Signup(users, SignupRequest(Value(u), Value(e), Value(p)), nextId).0;
      && (|Strip(u)| < 3 ==> r.code == 400 && r.error == Some("Username must be at least 3 characters"))
      && (|Strip(u)| >= 3 && |p| < 6 ==> r.code == 400 && r.error == Some("Password must be at least 6 characters"))
      && (|Strip(u)| >= 3 && |p| >= 6 && '@' !in Lower(Strip(e)) ==> r.code == 400 && r.error == Some("Invalid email format"))
      && (|Strip(u)| >= 3 && |p| >= 6 && '@' in Lower(Strip(e)) ==>
            (r.code == 409 <==> FindByUsername(users, Strip(u)).Some? || FindByEmail(users, Lower(Strip(e))).Some?))
      && (|Strip(u)| >= 3 && |p| >= 6 && '@' in Lower(Strip(e)) && FindByUsername(users, Strip(u)).Some? ==>
            r.error == Some("Username already exists"))
  {
  }

  /** A missing field is reported before anything else is looked at. */
  lemma SignupMissingField(users: seq<UserRecord>, req: SignupRequest, nextId: int)
    requires req.username.Absent? || req.email.Absent? || req.password.Absent?
    ensures Signup(users, req, nextId).0 == Error(400, "Missing required fields")
  {
  }

  /** A successful signup appends one user: stripped username, stripped lower-case e-mail, the new id. */
  lemma SignupStoresNormalised(users: seq<UserRecord>, u: string, e: string, p: string, nextId: int)
    requires Signup(users, SignupRequest(Value(u), Value(e), Value(p)), nextId).0.code == 201
    ensures Signup(users, SignupRequest(Value(u), Value(e), Value(p)), nextId).1
            == users + [UserRecord(nextId, Strip(u), Lower(Strip(e)), p)]
    ensures |Strip(u)| >= 3 && |p| >= 6 && '@' in Lower(Strip(e))
    ensures forall i :: 0 <= i < |users| ==> users[i].username != Strip(u) && users[i].email != Lower(Strip(e))
  {
  }

  /** `login`: username first, then the same text as an e-mail; one answer for unknown users and wrong passwords. */
  function Login(users: seq<UserRecord>, req: LoginRequest): (r: Reply)
    ensures (req.username.Absent? || req.password.Absent?) ==> r.code == 400
    ensures r.code == 200 ==> req.username.Value? && req.password.Value?
                              && exists i :: 0 <= i < |users| && r.identity == Some(IntToDec(users[i].id))
                                             && users[i].password == req.password.s
                                             && (users[i].username == Strip(req.username.s)
                                                 || users[i].email == Strip(req.username.s))
  {
    if req.username.Absent? || req.password.Absent? then Error(400, "Missing username or password")
    else if req.username.Null? then Error(500, "Login failed")
    else
      var name := Strip(req.username.s);
      var user := match FindByUsername(users, name) case Some(u) => Some(u) case None => FindByEmail(users, name);
      if user.None? then Error(401, "Invalid credentials")
      else if req.password.Null? then Error(500, "Login failed")
      else if user.value.password != req.password.s then Error(401, "Invalid credentials")
      else Reply(200, None, Some(IntToDec(user.value.id)))
  }

  /** An unknown user and a wrong password get the same reply. */
  lemma LoginHidesWhichFailed(users: seq<UserRecord>, name: string, password: string)
    requires FindByUsername(users, Strip(name)).None? && FindByEmail(users, Strip(name)).None?
    ensures Login(users, LoginRequest(Value(name), Value(password))) == Error(401, "Invalid credentials")
  {
  }

  /** A user found by name with a different password gets the same reply as an unknown user. */
  lemma LoginWrongPassword(users: seq<UserRecord>, name: string, password: string)
    requires FindByUsername(users, Strip(name)).Some?
    requires FindByUsername(users, Strip(name)).value.password != password
    ensures Login(users, LoginRequest(Value(name), Value(password))) == Error(401, "Invalid credentials")
  {
  }

  /** A username match wins over an e-mail match: the e-mail is consulted only when no username fits. */
  lemma LoginPrefersUsername(users: seq<UserRecord>, name: string, password: string)
    requires Login(users, LoginRequest(Value(name), Value(password))).code == 200
    ensures var u := FindByUsername(users, Strip(name));
      u.Some? ==> Login(users, LoginRequest(Value(name), Value(password))).identity == Some(IntToDec(u.value.id))
  {
  }

  /** The login name is stripped but not lower-cased: an e-mail typed in another case is not found. */
  lemma LoginEmailCaseMatters()
    ensures Login([UserRecord(1, "alice", "alice@example.com", "secret1")],
                  LoginRequest(Value("Alice@Example.com"), Value("secret1"))).code == 401
  {
    var users := [UserRecord(1, "alice", "alice@example.com", "secret1")];
    StripTrimmed("Alice@Example.com", IsSpace);
    assert users[0].username != "Alice@Example.com";
    assert users[0].email != "Alice@Example.com" by {
      assert users[0].email[0] != "Alice@Example.com"[0];
    }
  }

  /** Whoever has just signed up can log in with the same username and password and gets the same identity. */
  lemma SignupThenLogin(users: seq<UserRecord>, u: string, e: string, p: string, nextId: int)
    requires Signup(users, SignupRequest(Value(u), Value(e), Value(p)), nextId).0.code == 201
    ensures var after := Signup(users, SignupRequest(Value(u), Value(e), Value(p)), nextId).1;
      Login(after, LoginRequest(Value(u), Value(p)))
        == Reply(200, None, Signup(users, SignupRequest(Value(u), Value(e), Value(p)), nextId).0.identity)
  {
    SignupStoresNormalised(users, u, e, p, nextId);
    var after := users + [UserRecord(nextId, Strip(u), Lower(Strip(e)), p)];
    FindFirstAfterAppend(users, UserRecord(nextId, Strip(u), Lower(Strip(e)), p));
  }

  /** Searching past users who do not match finds the appended one. */
  lemma {:induction false} FindFirstAfterAppend(users: seq<UserRecord>, x: UserRecord)
    requires forall i :: 0 <= i < |users| ==> users[i].username != x.username
    ensures FindByUsername(users + [x], x.username) == Some(x)
  {
    if users != [] {
      assert (users + [x])[1..] == users[1..] + [x];
      FindFirstAfterAppend(users[1..], x);
    } else {
      assert users + [x] == [x];
    }
  }
}
