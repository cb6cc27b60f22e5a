/** The handlers of `routes/api/auth.js`: the current user without the
    password, and login. `compare` is bcrypt's comparison of a raw password
    with a stored hash. */
module AuthRoutes {
  import opened Wrappers
  import opened Seqs
  import opened Model
  import opened UsersRoutes

  /** `expiresIn` of a login token, in seconds. */
  const LoginTokenLifetime: nat := 360000

  datatype LoginRequest = LoginRequest(email: Option<string>, password: Option<string>)

  /** The user without the password field. */
  function WithoutPassword(u: User): Account {
    Account(u.id, u.name, u.email, u.avatar)
  }

  /** GET /api/auth: the caller's user record with the password left out, or
      `null` when there is none. */
  function CurrentAccount(caller: Id, s: Store): (r: Response)
    ensures r.status == 200 && r.body.AccountBody?
    ensures r.body.account.Some? <==> caller in UserIds(s.users)
    ensures r.body.account.Some? ==>
      exists u :: u in s.users && u.id == caller && r.body.account.value == WithoutPassword(u)
  {
    var i := FindUser(s.users, caller);
    if i < 0 then Response(200, AccountBody(None))
    else
      assert s.users[i] in s.users;
      Response(200, AccountBody(Some(WithoutPassword(s.users[i]))))
  }

  /** The validators of the login route: a valid email, and a password that
      is present (an empty one passes). */
  function LoginChecks(req: LoginRequest, isEmail: EmailCheck): (r: seq<Check>)
    ensures ErrorsOf(r) == ErrorUnless(isEmail(FieldValue(req.email)), FieldError("Provide a valid email.", Some("email")))
                           + ErrorUnless(req.password.Some?, FieldError("Password is required", Some("password")))
  {
    var c0 := Check(isEmail(FieldValue(req.email)), FieldError("Provide a valid email.", Some("email")));
    var c1 := Check(req.password.Some?, FieldError("Password is required", Some("password")));
    ErrorsOfCons(c0, [c1]);
    ErrorsOfSingle(c1);
    [c0] + [c1]
  }

  const UnknownUser := Response(400, ErrorsBody([FieldError("Invalid Credentials - User", None)]))
  const WrongPassword := Response(400, ErrorsBody([FieldError("Invalid Credentials - PW", None)]))

  /** POST /api/auth. The store is only read. */
  function Login(req: LoginRequest, s: Store, isEmail: EmailCheck, compare: (string, string) -> bool): (r: Response)
    ensures !(isEmail(FieldValue(req.email)) && req.password.Some?) ==>
      r == Response(400, ErrorsBody(ErrorsOf(LoginChecks(req, isEmail))))
    ensures isEmail(FieldValue(req.email)) && req.password.Some? && FieldValue(req.email) !in Emails(s.users) ==>
      r == UnknownUser
    ensures isEmail(FieldValue(req.email)) && req.password.Some? ==>
      var i := FindUserByEmail(s.users, FieldValue(req.email));
      i >= 0 && !compare(req.password.value, s.users[i].password) ==> r == WrongPassword
    ensures r.body.TokenBody? <==>
      && isEmail(FieldValue(req.email)) && req.password.Some?
      && var i := FindUserByEmail(s.users, FieldValue(req.email));
      i >= 0 && compare(req.password.value, s.users[i].password)
    ensures r.body.TokenBody? ==>
      var i := FindUserByEmail(s.users, FieldValue(req.email));
      r == Response(200, TokenBody(Token(Claims(UserRef(s.users[i].id)), LoginTokenLifetime)))
    ensures !r.body.TokenBody? ==> r.status == 400
  {
    var errors := ErrorsOf(LoginChecks(req, isEmail));
    if |errors| > 0 then Response(400, ErrorsBody(errors))
    else
      assert LoginChecks(req, isEmail)[0].passed && LoginChecks(req, isEmail)[1].passed;
      var i := FindUserByEmail(s.users, FieldValue(req.email));
      if i < 0 then UnknownUser
      else if !compare(req.password.value, s.users[i].password) then WrongPassword
      else Response(200, TokenBody(Token(Claims(UserRef(s.users[i].id)), LoginTokenLifetime)))
  }

  /** With a password that matches, logging in as a freshly registered user
      yields a token for that user's id. */
  lemma LoginAfterRegister(name: string, email: string, password: string, s: Store, isEmail: EmailCheck,
                           gravatar: string -> string, hash: (string, string) -> string,
                           compare: (string, string) -> bool, salt: string, newId: Id)
    requires Register(RegisterRequest(Some(name), Some(email), Some(password)), s, isEmail, gravatar, hash, salt, newId)
      .response.status == 200
    requires compare(password, hash(password, salt))
    ensures var t := Register(RegisterRequest(Some(name), Some(email), Some(password)), s, isEmail, gravatar, hash, salt, newId).store;
      Login(LoginRequest(Some(email), Some(password)), t, isEmail, compare)
        == Response(200, TokenBody(Token(Claims(UserRef(newId)), LoginTokenLifetime)))
  {
    var t := Register(RegisterRequest(Some(name), Some(email), Some(password)), s, isEmail, gravatar, hash, salt, newId).store;
    var n := |s.users|;
    assert Emails(t.users)[n] == email;
    var i := FindUserByEmail(t.users, email);
    assert email !in Emails(s.users);
    assert i == n;
  }
}
