/** The server's persistent state (the `User` and `Profile` collections) and
    the shapes of the HTTP responses its route handlers send. */
module Model {
  import opened Wrappers
  import opened Seqs

  /** The string form of a MongoDB ObjectId. */
  type Id = string

  /** A `User` document; `password` holds what was stored at registration. */
  datatype User = User(id: Id, name: string, email: string, avatar: string, password: string)

  /** The body fields the experience handler copies into a new entry. */
  datatype ExperienceFields = ExperienceFields(
    title: Option<string>,
    company: Option<string>,
    location: Option<string>,
    from: Option<string>,
    to: Option<string>,
    current: Option<bool>,
    description: Option<string>)

  /** The body fields the education handler copies into a new entry. */
  datatype EducationFields = EducationFields(
    school: Option<string>,
    degree: Option<string>,
    major: Option<string>,
    from: Option<string>,
    to: Option<string>,
    current: Option<bool>,
    description: Option<string>)

  /** A sub-document of an experience or education list, with the id the
      database gave it when it was added. */
  datatype Entry<F> = Entry(id: Id, fields: F)

  /** A `Profile` document. A scalar field is `None` when the document does
      not hold it; `social` maps platform names to links. */
  datatype Profile = Profile(
    user: Id,
    company: Option<string>,
    website: Option<string>,
    location: Option<string>,
    status: Option<string>,
    skills: Option<seq<string>>,
    bio: Option<string>,
    githubusername: Option<string>,
    social: map<string, string>,
    experience: seq<Entry<ExperienceFields>>,
    education: seq<Entry<EducationFields>>)

  /** Both collections, each in the database's natural order: `findOne`
      returns the first match, `find` the whole sequence, and saving a new
      document appends it. */
  datatype Store = Store(users: seq<User>, profiles: seq<Profile>)

  function UserIds(users: seq<User>): (r: seq<Id>)
    ensures |r| == |users|
    ensures forall i :: 0 <= i < |users| ==> r[i] == users[i].id
  {
    seq(|users|, i requires 0 <= i < |users| => users[i].id)
  }

  function Emails(users: seq<User>): (r: seq<string>)
    ensures |r| == |users|
    ensures forall i :: 0 <= i < |users| ==> r[i] == users[i].email
  {
    seq(|users|, i requires 0 <= i < |users| => users[i].email)
  }

  function Owners(profiles: seq<Profile>): (r: seq<Id>)
    ensures |r| == |profiles|
    ensures forall i :: 0 <= i < |profiles| ==> r[i] == profiles[i].user
  {
    seq(|profiles|, i requires 0 <= i < |profiles| => profiles[i].user)
  }

  /** `list.map(item => item.id)`. */
  function EntryIds<F>(xs: seq<Entry<F>>): (r: seq<Id>)
    ensures |r| == |xs|
    ensures forall i :: 0 <= i < |xs| ==> r[i] == xs[i].id
  {
    seq(|xs|, i requires 0 <= i < |xs| => xs[i].id)
  }

  /** `User.findById(id)`: the position of the first user with that id, or -1. */
  function FindUser(users: seq<User>, id: Id): int {
    IndexOf(UserIds(users), id)
  }

  /** `User.findOne({ email })`. */
  function FindUserByEmail(users: seq<User>, email: string): int {
    IndexOf(Emails(users), email)
  }

  /** `Profile.findOne({ user })`. */
  function FindProfile(profiles: seq<Profile>, user: Id): int {
    IndexOf(Owners(profiles), user)
  }

  /** No user owns two profiles. */
  predicate UniqueOwners(profiles: seq<Profile>) {
    forall i, j :: 0 <= i < j < |profiles| ==> profiles[i].user != profiles[j].user
  }

  /** No two users share an id. */
  predicate UniqueUserIds(users: seq<User>) {
    forall i, j :: 0 <= i < j < |users| ==> users[i].id != users[j].id
  }

  /** No two users share an email. */
  predicate UniqueEmails(users: seq<User>) {
    forall i, j :: 0 <= i < j < |users| ==> users[i].email != users[j].email
  }

  /** The invariants the handlers maintain. */
  predicate Valid(s: Store) {
    UniqueOwners(s.profiles) && UniqueUserIds(s.users) && UniqueEmails(s.users)
  }

  /** Taking one user out keeps ids and emails unique. */
  lemma RemovedUsersStayUnique(users: seq<User>, u: nat)
    requires u < |users| && UniqueUserIds(users) && UniqueEmails(users)
    ensures UniqueUserIds(RemoveAt(users, u)) && UniqueEmails(RemoveAt(users, u))
  {
    var t := RemoveAt(users, u);
    forall i, j | 0 <= i < j < |t|
      ensures t[i].id != t[j].id && t[i].email != t[j].email
    {
      var i' := if i < u then i else i + 1;
      var j' := if j < u then j else j + 1;
      assert t[i] == users[i'] && t[j] == users[j'] && i' < j';
    }
  }

  /** Taking one profile out keeps owners unique. */
  lemma RemovedProfilesStayUnique(profiles: seq<Profile>, i: nat)
    requires i < |profiles| && UniqueOwners(profiles)
    ensures UniqueOwners(RemoveAt(profiles, i))
  {
    var t := RemoveAt(profiles, i);
    forall a, b | 0 <= a < b < |t|
      ensures t[a].user != t[b].user
    {
      var a' := if a < i then a else a + 1;
      var b' := if b < i then b else b + 1;
      assert t[a] == profiles[a'] && t[b] == profiles[b'] && a' < b';
    }
  }

  /** The `user` object a token carries and the auth middleware copies to
      `req.user`. */
  datatype UserRef = UserRef(id: Id)

  /** A token payload: `{ user: { id } }`. */
  datatype Claims = Claims(user: UserRef)

  /** A signed token, recorded as what `jwt.sign` was given: the payload and
      the `expiresIn` option, in seconds. */
  datatype Token = Token(payload: Claims, expiresIn: nat)

  /** An entry of an `errors` array: validator errors carry the field name,
      hand-written ones do not. */
  datatype FieldError = FieldError(msg: string, param: Option<string>)

  /** One express-validator check: whether it passed, and its error if not. */
  datatype Check = Check(passed: bool, error: FieldError)

  /** `validationResult(req).array()`: the errors of the failed checks, in the
      order the checks are declared. */
  function ErrorsOf(checks: seq<Check>): (r: seq<FieldError>)
    ensures |r| <= |checks|
    ensures |r| == 0 <==> forall i :: 0 <= i < |checks| ==> checks[i].passed
    ensures forall e :: e in r ==> exists i :: 0 <= i < |checks| && !checks[i].passed && checks[i].error == e
    ensures forall i :: 0 <= i < |checks| && !checks[i].passed ==> checks[i].error in r
  {
    if |checks| == 0 then []
    else
      var rest := ErrorsOf(checks[1..]);
      assert forall i :: 1 <= i < |checks| && !checks[i].passed ==> checks[i].error in rest by {
        forall i | 1 <= i < |checks| && !checks[i].passed
          ensures checks[i].error in rest
        {
          assert checks[1..][i - 1] == checks[i];
        }
      }
      assert forall e :: e in rest ==> exists i :: 1 <= i < |checks| && !checks[i].passed && checks[i].error == e by {
        forall e | e in rest
          ensures exists i :: 1 <= i < |checks| && !checks[i].passed && checks[i].error == e
        {
          var k :| 0 <= k < |checks[1..]| && !checks[1..][k].passed && checks[1..][k].error == e;
          assert checks[k + 1] == checks[1..][k];
        }
      }
      if checks[0].passed then rest else [checks[0].error] + rest
  }

  /** The errors of two lists of checks run one after the other are the
      errors of the first list followed by those of the second; with
      `ErrorsOfSingle` this fixes the order and the number of the errors. */
  lemma {:induction false} ErrorsOfConcat(xs: seq<Check>, ys: seq<Check>)
    ensures ErrorsOf(xs + ys) == ErrorsOf(xs) + ErrorsOf(ys)
    decreases |xs|
  {
    if |xs| == 0 {
      assert xs + ys == ys;
    } else {
      assert (xs + ys)[1..] == xs[1..] + ys;
      ErrorsOfConcat(xs[1..], ys);
    }
  }

  /** What one check contributes to the errors: its error when it fails. */
  function ErrorUnless(passed: bool, e: FieldError): seq<FieldError> {
    if passed then [] else [e]
  }

  /** A check put in front of others puts its contribution in front of
      theirs. */
  lemma ErrorsOfCons(c: Check, rest: seq<Check>)
    ensures ErrorsOf([c] + rest) == ErrorUnless(c.passed, c.error) + ErrorsOf(rest)
  {
    assert ([c] + rest)[1..] == rest;
  }

  /** One check reports its error exactly when it fails. */
  lemma ErrorsOfSingle(c: Check)
    ensures ErrorsOf([c]) == ErrorUnless(c.passed, c.error)
  {
  }

  /** JavaScript truthiness of a body field that holds a string or nothing.
      express-validator's `not().isEmpty()` passes for exactly these values
      (it reads an absent field as `""`). */
  predicate Truthy(v: Option<string>) {
    v.Some? && v.value != ""
  }

  /** The string express-validator checks for a body field. */
  function FieldValue(v: Option<string>): string {
    v.GetOr("")
  }

  /** A user as `select('-password')` returns it. */
  datatype Account = Account(id: Id, name: string, email: string, avatar: string)

  /** A user as `select('name email _id')` returns it. */
  datatype UserSummary = UserSummary(id: Id, name: string, email: string)

  /** The bodies the handlers send. The profile-bearing shapes differ from
      route to route and are kept apart. */
  datatype Body =
    | MsgBody(msg: string)                          // { msg }
    | ErrorsBody(errors: seq<FieldError>)           // { errors }
    | TextBody(text: string)                        // a plain string
    | ProfileBody(profile: Profile)                 // the bare profile
    | MsgProfileBody(msg: string, profile: Profile) // { msg, profile }
    | WrappedProfileBody(profile: Profile)          // { profile }
    | ProfilesBody(profiles: seq<Profile>)          // [profile, ...]
    | TokenBody(token: Token)                       // { token }
    | AccountBody(account: Option<Account>)         // the user or null
    | UsersBody(users: seq<UserSummary>)            // [user, ...]

  datatype Response = Response(status: nat, body: Body)

  /** What a handler sends and the store it leaves behind. */
  datatype Reply = Reply(response: Response, store: Store)

  /** `res.status(500).send('Server Error')`. */
  const ServerErrorText := Response(500, TextBody("Server Error"))
}
