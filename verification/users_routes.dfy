/** The handlers of `routes/api/users.js`. The libraries they call are
    parameters: `isEmail` (express-validator), `gravatar` (the avatar URL of
    an email), `hash` (bcrypt with a salt) and `salt` (the value `genSalt(12)`
    produced); `newId` is the id the database gives the new document. */
module UsersRoutes {
  import opened Wrappers
  import opened Seqs
  import opened Model

  /** An email predicate; like express-validator's `isEmail`, it rejects the
      empty string, which is what an absent field is checked as. */
  type EmailCheck = f: string -> bool | !f("") witness (e: string) => false

  /** `expiresIn` of a registration token, in seconds. */
  const RegisterTokenLifetime: nat := 1000000

  datatype RegisterRequest = RegisterRequest(name: Option<string>, email: Option<string>, password: Option<string>)

  /** The validators of the registration route: one error each for an empty
      name, an email `isEmail` rejects and a password under six characters,
      in that order. */
  function RegisterChecks(req: RegisterRequest, isEmail: EmailCheck): (r: seq<Check>)
    ensures ErrorsOf(r) == ErrorUnless(FieldValue(req.name) != "", FieldError("Name is required.", Some("name")))
                           + ErrorUnless(isEmail(FieldValue(req.email)), FieldError("Provide a valid email.", Some("email")))
                           + ErrorUnless(|FieldValue(req.password)| >= 6, FieldError("Password length has to be at least 6.", Some("password")))
  {
    var c0 := Check(FieldValue(req.name) != "", FieldError("Name is required.", Some("name")));
    var c1 := Check(isEmail(FieldValue(req.email)), FieldError("Provide a valid email.", Some("email")));
    var c2 := Check(|FieldValue(req.password)| >= 6, FieldError("Password length has to be at least 6.", Some("password")));
    ErrorsOfCons(c0, [c1] + [c2]);
    ErrorsOfCons(c1, [c2]);
    ErrorsOfSingle(c2);
    [c0] + ([c1] + [c2])
  }

  /** The request passes validation. */
  predicate Acceptable(req: RegisterRequest, isEmail: EmailCheck) {
    FieldValue(req.name) != "" && isEmail(FieldValue(req.email)) && |FieldValue(req.password)| >= 6
  }

  /** POST /api/users: validate; refuse an email already registered (with
      an empty errors array); otherwise store the user with the hashed
      password and answer with a token for the new id. */
  function Register(req: RegisterRequest, s: Store, isEmail: EmailCheck, gravatar: string -> string,
                    hash: (string, string) -> string, salt: string, newId: Id): (r: Reply)
    ensures !Acceptable(req, isEmail) ==>
      r == Reply(Response(400, ErrorsBody(ErrorsOf(RegisterChecks(req, isEmail)))), s)
    ensures Acceptable(req, isEmail) && FieldValue(req.email) in Emails(s.users) ==>
      r == Reply(Response(400, ErrorsBody([])), s)
    ensures r.response.status == 200 <==> Acceptable(req, isEmail) && FieldValue(req.email) !in Emails(s.users)
    ensures r.response.status == 200 ==>
      && req.name.Some? && req.email.Some? && req.password.Some?
      && r.store.profiles == s.profiles
      && r.store.users == s.users + [User(newId, req.name.value, req.email.value,
                                          gravatar(req.email.value), hash(req.password.value, salt))]
      && r.response.body == TokenBody(Token(Claims(UserRef(newId)), RegisterTokenLifetime))
    ensures r.response.status != 200 ==> r.store == s && r.response.status == 400
  {
    var errors := ErrorsOf(RegisterChecks(req, isEmail));
    if |errors| > 0 then Reply(Response(400, ErrorsBody(errors)), s)
    else
      assert RegisterChecks(req, isEmail)[0].passed && RegisterChecks(req, isEmail)[1].passed;
      assert RegisterChecks(req, isEmail)[2].passed;
      var email := FieldValue(req.email);
      if FindUserByEmail(s.users, email) >= 0 then Reply(Response(400, ErrorsBody([])), s)
      else
        var name := FieldValue(req.name);
        var password := FieldValue(req.password);
        var user := User(newId, name, email, gravatar(email), hash(password, salt));
        Reply(Response(200, TokenBody(Token(Claims(UserRef(newId)), RegisterTokenLifetime))),
              s.(users := s.users + [user]))
  }

  /** Registration keeps emails and ids unique, given an id the store has not
      used: a second registration with the same email is refused. */
  lemma RegisterKeepsValid(req: RegisterRequest, s: Store, isEmail: EmailCheck, gravatar: string -> string,
                           hash: (string, string) -> string, salt: string, newId: Id)
    requires Valid(s)
    requires newId !in UserIds(s.users)
    ensures Valid(Register(req, s, isEmail, gravatar, hash, salt, newId).store)
  {
    var t := Register(req, s, isEmail, gravatar, hash, salt, newId).store;
    if t != s {
      var n := |s.users|;
      forall i, j | 0 <= i < j < |t.users|
        ensures t.users[i].id != t.users[j].id && t.users[i].email != t.users[j].email
      {
        if j == n {
          assert UserIds(s.users)[i] == t.users[i].id;
          assert Emails(s.users)[i] == t.users[i].email;
        }
      }
    }
  }

  /** DELETE /api/users: removes the first user with the caller's id and
      nothing else (the profile stays). */
  function DeleteUser(caller: Id, s: Store): (r: Reply)
    ensures r.store.profiles == s.profiles
    ensures caller !in UserIds(s.users) ==> r == Reply(Response(200, TextBody("User Not Found")), s)
    ensures caller in UserIds(s.users) ==>
      var u := FindUser(s.users, caller);
      && r.response == Response(200, MsgBody(s.users[u].name + " User Deleted"))
      && |r.store.users| == |s.users| - 1
      && (forall j :: 0 <= j < u ==> r.store.users[j] == s.users[j])
      && (forall j :: u <= j < |r.store.users| ==> r.store.users[j] == s.users[j + 1])
  {
    var u := FindUser(s.users, caller);
    if u < 0 then Reply(Response(200, TextBody("User Not Found")), s)
    else Reply(Response(200, MsgBody(s.users[u].name + " User Deleted")), s.(users := RemoveAt(s.users, u)))
  }

  /** User deletion keeps the store's invariants and leaves no user with the
      caller's id. */
  lemma DeleteUserKeepsValid(caller: Id, s: Store)
    requires Valid(s)
    ensures Valid(DeleteUser(caller, s).store)
    ensures caller !in UserIds(DeleteUser(caller, s).store.users)
  {
    var u := FindUser(s.users, caller);
    if u >= 0 {
      RemovedUsersStayUnique(s.users, u);
      var t := DeleteUser(caller, s).store.users;
      forall j | 0 <= j < |t|
        ensures UserIds(t)[j] != caller
      {
        if j >= u {
          assert t[j] == s.users[j + 1];
        }
      }
    }
  }

  /** GET /api/users: every user in natural order with only name, email and
      id; the stored password is not part of the reply. */
  function ListUsers(s: Store): (r: Response)
    ensures r.status == 200 && r.body.UsersBody?
    ensures |r.body.users| == |s.users|
    ensures forall i :: 0 <= i < |s.users| ==>
      r.body.users[i] == UserSummary(s.users[i].id, s.users[i].name, s.users[i].email)
  {
    Response(200, UsersBody(seq(|s.users|, i requires 0 <= i < |s.users| =>
      UserSummary(s.users[i].id, s.users[i].name, s.users[i].email))))
  }

  /** A registered user is listed last, after everyone listed before. */
  lemma RegisteredUserIsListed(req: RegisterRequest, s: Store, isEmail: EmailCheck, gravatar: string -> string,
                               hash: (string, string) -> string, salt: string, newId: Id)
    requires Register(req, s, isEmail, gravatar, hash, salt, newId).response.status == 200
    ensures ListUsers(Register(req, s, isEmail, gravatar, hash, salt, newId).store).body.users
      == ListUsers(s).body.users + [UserSummary(newId, req.name.value, req.email.value)]
  {
    var t := Register(req, s, isEmail, gravatar, hash, salt, newId).store;
    assert t.users[|s.users|].id == newId;
  }
}
