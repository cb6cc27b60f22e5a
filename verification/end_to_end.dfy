/** The server's responses as the client receives them, and properties of
    the two sides together: the form round trip through the create-or-update
    route, what the client keeps from each response, and the token flow from
    login to the auth middleware. */
module EndToEnd {
  import opened Wrappers
  import opened Text
  import opened Model
  import opened Js
  import opened ProfileRoutes
  import opened UsersRoutes
  import opened AuthRoutes
  import opened AuthGate
  import opened ProfileReducer
  import opened ProfileActions
  import opened ProfileForm
  import opened Wire

  /** A stored field the create-or-update route could have written: absent,
      or a non-empty string. */
  predicate Written(v: Option<string>) {
    v.None? || v.value != ""
  }

  /** A profile as the create-or-update route leaves it: a status, and a
      skills list as splitting on commas and trimming produces it, so every
      piece is trimmed and comma-free, though a piece may be empty (`" "`
      is stored as `[""]`, `"a,"` as `["a", ""]`). */
  predicate Resubmittable(p: Profile) {
    && Written(p.company) && Written(p.website) && Written(p.location)
    && Written(p.bio) && Written(p.githubusername)
    && p.status.Some? && p.status.value != ""
    && p.skills.Some? && |p.skills.value| > 0
    && (forall i :: 0 <= i < |p.skills.value| ==>
          ',' !in p.skills.value[i] && IsTrimmed(p.skills.value[i]))
    && p.social.Keys <= Platforms
    && (forall l :: l in p.social ==> p.social[l] != "")
  }

  /** The value of a form field prefilled from a stored scalar field. */
  function AsFormValue(v: Option<string>): Json {
    JStr(v.GetOr(""))
  }

  /** The stored scalar field behind a form key. */
  function ScalarField(p: Profile, k: string): Option<string> {
    if k == "company" then p.company
    else if k == "website" then p.website
    else if k == "location" then p.location
    else if k == "bio" then p.bio
    else if k == "githubusername" then p.githubusername
    else if k == "status" then p.status
    else None
  }

  /** The social object of a profile as the form's second loop sees it. */
  lemma EncodedSocial(p: Profile)
    ensures SocialOf(EncodeProfile(p)) == map l | l in p.social :: JStr(p.social[l])
  {
    var j := EncodeProfile(p);
    assert "social" in j.fields;
  }

  /** A scalar form field is prefilled with the stored value, or `""`. */
  lemma PrefillScalar(p: Profile, k: string)
    requires p.social.Keys <= Platforms
    requires k in {"company", "website", "location", "bio", "githubusername", "status"}
    ensures Prefill(EncodeProfile(p))[k] == AsFormValue(ScalarField(p, k))
  {
    var j := EncodeProfile(p);
    EncodedSocial(p);
    assert k !in SocialOf(j);
    assert k in ProfileKeys;
    assert k in FieldsOf(j) <==> ScalarField(p, k).Some?;
  }

  /** A platform key is copied from the stored social links, or `""`. */
  lemma CopiedLink(p: Profile, l: string)
    requires l in Platforms
    ensures Copied(EncodeProfile(p), l) == JStr(if l in p.social then p.social[l] else "")
  {
    var j := EncodeProfile(p);
    EncodedSocial(p);
    assert l !in ProfileKeys;
    assert l !in FieldsOf(j);
  }

  /** A social form field is prefilled with the stored link, or `""`. */
  lemma PrefillLink(p: Profile, l: string)
    requires l in Platforms
    ensures Prefill(EncodeProfile(p))[l] == JStr(if l in p.social then p.social[l] else "")
  {
    CopiedLink(p, l);
    var j := EncodeProfile(p);
    var r := Prefill(j);
    assert l in FormKeys && l != "skills";
    assert r[l] == Copied(j, l);
  }

  /** The skills field is prefilled with the stored list joined by `", "`. */
  lemma PrefillSkills(p: Profile)
    requires p.social.Keys <= Platforms && p.skills.Some?
    ensures Prefill(EncodeProfile(p))["skills"] == JStr(Join(p.skills.value, ", "))
  {
    var j := EncodeProfile(p);
    EncodedSocial(p);
    assert "skills" !in SocialOf(j);
    assert Copied(j, "skills") == StrArray(p.skills.value);
    JoinJsStrings(StrArray(p.skills.value).items, p.skills.value, ", ");
  }

  /** The form built from a stored profile shows each scalar field (or `""`),
      each social link (or `""`) and the skills joined with `", "`. */
  lemma PrefillOfStoredProfile(p: Profile)
    requires Resubmittable(p)
    ensures var form := Prefill(EncodeProfile(p));
      && form["company"] == AsFormValue(p.company) && form["website"] == AsFormValue(p.website)
      && form["location"] == AsFormValue(p.location) && form["bio"] == AsFormValue(p.bio)
      && form["githubusername"] == AsFormValue(p.githubusername) && form["status"] == AsFormValue(p.status)
      && form["skills"] == JStr(Join(p.skills.value, ", "))
      && (forall l :: l in Platforms ==> form[l] == JStr(if l in p.social then p.social[l] else ""))
  {
    PrefillScalar(p, "company");
    PrefillScalar(p, "website");
    PrefillScalar(p, "location");
    PrefillScalar(p, "bio");
    PrefillScalar(p, "githubusername");
    PrefillScalar(p, "status");
    PrefillSkills(p);
    forall l | l in Platforms
      ensures Prefill(EncodeProfile(p))[l] == JStr(if l in p.social then p.social[l] else "")
    {
      PrefillLink(p, l);
    }
  }

  /** A stored social link, or `""`. */
  function LinkOf(p: Profile, l: string): string {
    if l in p.social then p.social[l] else ""
  }

  /** The request an untouched edit form sends for a stored profile. */
  function EditRequest(p: Profile): ProfileRequest
    requires p.skills.Some?
  {
    ProfileRequest(
      Some(p.company.GetOr("")), Some(p.website.GetOr("")), Some(p.location.GetOr("")),
      Some(p.status.GetOr("")), Some(Join(p.skills.value, ", ")), Some(p.bio.GetOr("")),
      Some(p.githubusername.GetOr("")), Some(LinkOf(p, "youtube")), Some(LinkOf(p, "linkedin")),
      Some(LinkOf(p, "facebook")), Some(LinkOf(p, "twitter")), Some(LinkOf(p, "instagram")))
  }

  /** Submitting the form prefilled from a stored profile sends its edit
      request. */
  lemma SubmittedForm(p: Profile)
    requires Resubmittable(p)
    ensures FormToRequest(Prefill(EncodeProfile(p))) == EditRequest(p)
  {
    PrefillOfStoredProfile(p);
  }

  /** The skills of a stored profile survive the form: joined with `", "`
      on the client, split on commas and trimmed on the server. */
  lemma SkillsRoundTrip(p: Profile)
    requires Resubmittable(p)
    ensures var req := FormToRequest(Prefill(EncodeProfile(p)));
      req.skills == Some(Join(p.skills.value, ", ")) && ParseSkills(req.skills.value) == p.skills.value
  {
    SubmittedForm(p);
    SplitTrimInvertsJoin(p.skills.value);
  }

  /** The `", "` join of a non-empty list is empty exactly when the list is
      the single empty string. */
  lemma JoinBlank(xs: seq<string>)
    requires |xs| > 0
    ensures Join(xs, ", ") == "" <==> xs == [""]
  {
    if |xs| > 1 {
      assert |Join(xs, ", ")| >= 2;
    }
  }

  /** A scalar field sent back as its stored value or `""`, built into the
      fields object and applied with `$set`, is the stored value again. */
  lemma ScalarRebuilds(stored: Option<string>, built: Option<string>, after: Option<string>)
    requires Written(stored)
    requires CopiedIfTruthy(Some(stored.GetOr("")), built) && SetsOrKeeps(built, stored, after)
    ensures after == stored
  {
  }

  /** The social object built from the edit request is the stored one. */
  lemma SocialRebuilds(p: Profile)
    requires Resubmittable(p)
    ensures BuildSocial(EditRequest(p)) == p.social
  {
    var req := EditRequest(p);
    forall l | l in Platforms
      ensures PlatformLink(req, l) == Some(LinkOf(p, l))
    {
    }
  }

  /** Building the fields from the edit request and applying them to the
      stored profile gives the stored profile back. */
  lemma EditRequestRebuilds(caller: Id, p: Profile)
    requires Resubmittable(p) && p.user == caller
    ensures ApplySet(p, BuildFields(caller, EditRequest(p))) == p
  {
    var req := EditRequest(p);
    var f := BuildFields(caller, req);
    var q := ApplySet(p, f);
    ScalarRebuilds(p.company, f.company, q.company);
    ScalarRebuilds(p.website, f.website, q.website);
    ScalarRebuilds(p.location, f.location, q.location);
    ScalarRebuilds(p.bio, f.bio, q.bio);
    ScalarRebuilds(p.githubusername, f.githubusername, q.githubusername);
    ScalarRebuilds(p.status, f.status, q.status);
    SplitTrimInvertsJoin(p.skills.value);
    assert q.skills == p.skills;
    SocialRebuilds(p);
  }

  /** A submission whose skills field is the empty string is rejected with
      "Skills is required" alone when the status is present, and writes
      nothing. */
  lemma BlankSkillsRejected(caller: Id, req: ProfileRequest, s: Store)
    requires req.skills == Some("") && Model.Truthy(req.status)
    ensures Upsert(caller, req, s) == Reply(Response(400, ErrorsBody([FieldError("Skills is required", Some("skills"))])), s)
  {
    assert ErrorsOf(ProfileChecks(req)) == [FieldError("Skills is required", Some("skills"))];
  }

  /** The edit request of a stored profile whose skills join to a non-empty
      string passes validation and writes that profile back unchanged. */
  lemma EditRequestWrittenBack(caller: Id, s: Store)
    requires caller in Owners(s.profiles)
    requires var p := s.profiles[FindProfile(s.profiles, caller)];
      Resubmittable(p) && Join(p.skills.value, ", ") != ""
    ensures var r := Upsert(caller, EditRequest(s.profiles[FindProfile(s.profiles, caller)]), s);
      r.store == s && r.response.status != 400
  {
    var i := FindProfile(s.profiles, caller);
    var p := s.profiles[i];
    UpsertUpdates(caller, EditRequest(p), s);
    EditRequestRebuilds(caller, p);
    assert s.profiles[i := p] == s.profiles;
  }

  /** Submitting the edit form without touching it leaves the store exactly
      as it was. Stored skills `[""]` come back as the empty string, so that
      submission is rejected with "Skills is required"; any other stored
      profile is written back unchanged. */
  lemma ResubmitChangesNothing(caller: Id, s: Store)
    requires caller in Owners(s.profiles)
    requires Resubmittable(s.profiles[FindProfile(s.profiles, caller)])
    ensures var p := s.profiles[FindProfile(s.profiles, caller)];
      var r := Upsert(caller, FormToRequest(Prefill(EncodeProfile(p))), s);
      && r.store == s
      && (r.response.status == 400 <==> p.skills.value == [""])
      && (r.response.status == 400 ==>
            r.response.body == ErrorsBody([FieldError("Skills is required", Some("skills"))]))
  {
    var p := s.profiles[FindProfile(s.profiles, caller)];
    SubmittedForm(p);
    JoinBlank(p.skills.value);
    if p.skills.value == [""] {
      BlankSkillsRejected(caller, EditRequest(p), s);
    } else {
      EditRequestWrittenBack(caller, s);
    }
  }

  /** The create-or-update reply wraps the profile as `{ msg, profile }`, so
      the form prefilled from it, as the client stores it, is blank. */
  lemma SavedReplyPrefillsBlank(msg: string, p: Profile, sign: Token -> string)
    ensures Prefill(EncodeBody(MsgProfileBody(msg, p), sign)) == InitialForm
  {
    var j := JObj(map["msg" := JStr(msg), "profile" := EncodeProfile(p)]);
    assert EncodeBody(MsgProfileBody(msg, p), sign) == j;
    assert FieldsOf(j).Keys == {"msg", "profile"};
    assert SocialOf(j) == map[];
    PrefillWithoutFormKeys(j);
  }

  /** After a successful save the client holds the reply, not the profile:
      mounting the form on the slice the save leaves, before anything loads
      the profile again, fills nothing in. */
  lemma EditAfterSaveShowsBlankForm(caller: Id, req: ProfileRequest, s: Store, st: State,
                                    form: Form, edit: bool, sign: Token -> string)
    requires Upsert(caller, req, s).response.status == 200
    ensures var o := ToOutcome(Upsert(caller, req, s).response, sign);
      var after := Run(st, CreateProfile(JObj(form), edit, o));
      OnMount(after.profile, after.loading).setForm == Some(InitialForm)
  {
    var resp := Upsert(caller, req, s).response;
    assert resp.body.MsgProfileBody?;
    var o := ToOutcome(resp, sign);
    assert o == Ok(EncodeBody(resp.body, sign));
    CreateProfileStoresBody(st, JObj(form), edit, o.data);
    SavedReplyPrefillsBlank(resp.body.msg, resp.body.profile, sign);
    var after := Run(st, CreateProfile(JObj(form), edit, o));
    assert after.profile == EncodeBody(resp.body, sign) && !after.loading;
    assert Js.Truthy(after.profile);
  }

  /** A rejected profile submission shows one danger alert per validator
      message, in order, then records a "Bad Request" error. */
  lemma RejectedSubmissionAlerts(caller: Id, req: ProfileRequest, s: Store, form: Form, edit: bool, sign: Token -> string)
    requires !(Model.Truthy(req.status) && Model.Truthy(req.skills))
    ensures var r := CreateProfile(JObj(form), edit, ToOutcome(Upsert(caller, req, s).response, sign));
      var errs := ErrorsOf(ProfileChecks(req));
      && r[1..|r| - 1] == DangerAlerts(Some(seq(|errs|, i requires 0 <= i < |errs| => errs[i].msg)))
      && r[|r| - 1] == Dispatch(Action(ProfileError, ErrorPayload(400, "Bad Request")))
  {
    var errs := ErrorsOf(ProfileChecks(req));
    assert ErrorMessages(ErrorsBody(errs)) == Some(seq(|errs|, i requires 0 <= i < |errs| => errs[i].msg));
  }

  /** Confirmed account deletion through the auth middleware. With an
      accepted token the handler always answers 200, so the thunk reaches
      DELETE_ACCOUNT, which the client's store refuses: the profile slice is
      left cleared, never back at its initial state, and the success alert
      is not raised. Without an accepted token the middleware answers 401,
      nothing is deleted, and the slice records that failure. */
  lemma AccountDeletionClearsClient(headers: map<string, string>, verify: string -> Option<Claims>,
                                    s: Store, st: State, sign: Token -> string)
    ensures var reply := Protect(headers, verify, s, ProfileRoutes.DeleteAccount);
      var o := ToOutcome(reply.response, sign);
      var r := DeleteAccountThunk(true, o);
      && (AuthMid(headers, verify).nextCalls == 1 ==>
            !Completes(r) && Run(st, r) == st.(profile := JNull, repos := JArr([]), loading := false))
      && (AuthMid(headers, verify).nextCalls == 0 ==>
            reply.store == s && o.Err? && o.status == 401 && Run(st, r) == Failed(st, o))
  {
    var reply := Protect(headers, verify, s, ProfileRoutes.DeleteAccount);
    var o := ToOutcome(reply.response, sign);
    if AuthMid(headers, verify).nextCalls == 1 {
      assert reply == ProfileRoutes.DeleteAccount(AuthMid(headers, verify).reqUser.value.id, s);
      DeleteAccountStopsCleared(st, o.data);
    } else {
      assert o.Err?;
      RunRequestThenDispatch(st, Send(Delete, "/api/profile", JNull), Failure(o).action);
    }
  }

  /** After account deletion nobody can find the caller's profile or account. */
  lemma DeletedAccountIsGone(caller: Id, s: Store)
    requires Valid(s)
    ensures var t := ProfileRoutes.DeleteAccount(caller, s).store;
      && GetByUser(caller, t) == Response(400, MsgBody("Profile not found"))
      && GetMe(caller, t) == Response(400, MsgBody("There is no profile for this user"))
      && CurrentAccount(caller, t) == Response(200, AccountBody(None))
  {
    DeleteAccountCascades(caller, s);
  }

  /** A login token opens protected routes as the user who logged in,
      provided verification accepts what signing produced. */
  lemma LoginTokenPassesGate(req: LoginRequest, s: Store, isEmail: EmailCheck, compare: (string, string) -> bool,
                             sign: Token -> string, verify: string -> Option<Claims>)
    requires Login(req, s, isEmail, compare).body.TokenBody?
    requires var t := Login(req, s, isEmail, compare).body.token;
      sign(t) != "" && verify(sign(t)) == Some(t.payload)
    ensures var t := Login(req, s, isEmail, compare).body.token;
      var g := AuthMid(map[TokenHeader := sign(t)], verify);
      g.nextCalls == 1 && g.reqUser == Some(UserRef(s.users[FindUserByEmail(s.users, FieldValue(req.email))].id))
  {
  }

  /** A protected route called with a login token runs its handler as the
      user who logged in, on whatever the store holds by then. */
  lemma LoginOpensProtectedRoute(req: LoginRequest, s: Store, isEmail: EmailCheck, compare: (string, string) -> bool,
                                 sign: Token -> string, verify: string -> Option<Claims>,
                                 later: Store, handler: (Id, Store) -> Reply)
    requires Login(req, s, isEmail, compare).body.TokenBody?
    requires var t := Login(req, s, isEmail, compare).body.token;
      sign(t) != "" && verify(sign(t)) == Some(t.payload)
    ensures var t := Login(req, s, isEmail, compare).body.token;
      Protect(map[TokenHeader := sign(t)], verify, later, handler)
        == handler(s.users[FindUserByEmail(s.users, FieldValue(req.email))].id, later)
  {
    LoginTokenPassesGate(req, s, isEmail, compare, sign, verify);
  }
}
