/** The handlers of `routes/api/profile.js`, each a pure function from the
    request and the store to the response and the new store. `caller` is the
    id the auth middleware put in `req.user.id`. */
module ProfileRoutes {
  import opened Wrappers
  import opened Seqs
  import opened Text
  import opened Model

  /** The body fields the create-or-update handler destructures. */
  datatype ProfileRequest = ProfileRequest(
    company: Option<string>,
    website: Option<string>,
    location: Option<string>,
    status: Option<string>,
    skills: Option<string>,
    bio: Option<string>,
    githubusername: Option<string>,
    youtube: Option<string>,
    linkedin: Option<string>,
    facebook: Option<string>,
    twitter: Option<string>,
    instagram: Option<string>)

  /** The `profileFields` object; a `None` field is a key the object does not
      have, which `$set` therefore leaves alone. */
  datatype ProfileFields = ProfileFields(
    user: Id,
    company: Option<string>,
    website: Option<string>,
    location: Option<string>,
    bio: Option<string>,
    status: Option<string>,
    githubusername: Option<string>,
    skills: Option<seq<string>>,
    social: map<string, string>)

  /** The social platforms the handler looks at. */
  const Platforms: set<string> := {"youtube", "twitter", "facebook", "linkedin", "instagram"}

  /** The request's link for a platform. */
  function PlatformLink(req: ProfileRequest, platform: string): Option<string> {
    if platform == "youtube" then req.youtube
    else if platform == "twitter" then req.twitter
    else if platform == "facebook" then req.facebook
    else if platform == "linkedin" then req.linkedin
    else if platform == "instagram" then req.instagram
    else None
  }

  /** The validators of the create-or-update route: the request is rejected
      with a status error, then a skills error, for each one that is empty. */
  function ProfileChecks(req: ProfileRequest): (r: seq<Check>)
    ensures ErrorsOf(r) == ErrorUnless(Truthy(req.status), FieldError("Status is required", Some("status")))
                           + ErrorUnless(Truthy(req.skills), FieldError("Skills is required", Some("skills")))
  {
    var c0 := Check(Truthy(req.status), FieldError("Status is required", Some("status")));
    var c1 := Check(Truthy(req.skills), FieldError("Skills is required", Some("skills")));
    ErrorsOfCons(c0, [c1]);
    ErrorsOfSingle(c1);
    [c0] + [c1]
  }

  /** `skills.split(',').map(skill => skill.trim())`: one trimmed piece per
      comma-separated part, empty pieces kept. */
  function ParseSkills(skills: string): (r: seq<string>)
    ensures |r| == Count(skills, ',') + 1
    ensures forall i :: 0 <= i < |r| ==> IsTrimmed(r[i])
    ensures forall i :: 0 <= i < |r| ==> r[i] == Trim(Split(skills, ',')[i])
  {
    TrimAll(Split(skills, ','))
  }

  /** `if (x) profileFields.x = x`: the field is set exactly when the request
      value is truthy, and then to that value. */
  predicate CopiedIfTruthy(src: Option<string>, dst: Option<string>) {
    (dst.Some? <==> Truthy(src)) && (dst.Some? ==> dst == src)
  }

  function KeepTruthy(v: Option<string>): (r: Option<string>)
    ensures CopiedIfTruthy(v, r)
  {
    if Truthy(v) then v else None
  }

  /** `profileFields.social`: always present, holding exactly the truthy
      platform links. */
  function BuildSocial(req: ProfileRequest): (r: map<string, string>)
    ensures forall p :: p in r <==> p in Platforms && Truthy(PlatformLink(req, p))
    ensures forall p :: p in r ==> Some(r[p]) == PlatformLink(req, p)
  {
    map p | p in Platforms && Truthy(PlatformLink(req, p)) :: PlatformLink(req, p).value
  }

  /** The `profileFields` object built from a request. */
  function BuildFields(caller: Id, req: ProfileRequest): (f: ProfileFields)
    ensures f.user == caller
    ensures CopiedIfTruthy(req.company, f.company) && CopiedIfTruthy(req.website, f.website)
    ensures CopiedIfTruthy(req.location, f.location) && CopiedIfTruthy(req.bio, f.bio)
    ensures CopiedIfTruthy(req.status, f.status)
    ensures CopiedIfTruthy(req.githubusername, f.githubusername)
    ensures f.skills.Some? <==> Truthy(req.skills)
    ensures f.skills.Some? ==> f.skills.value == ParseSkills(req.skills.value)
    ensures f.social == BuildSocial(req)
  {
    ProfileFields(
      caller,
      KeepTruthy(req.company), KeepTruthy(req.website), KeepTruthy(req.location),
      KeepTruthy(req.bio), KeepTruthy(req.status), KeepTruthy(req.githubusername),
      if Truthy(req.skills) then Some(ParseSkills(req.skills.value)) else None,
      BuildSocial(req))
  }

  /** `new Profile(profileFields)`: the document holds exactly the keys of the
      fields object, and both lists start empty. */
  function Create(f: ProfileFields): (p: Profile)
    ensures p.user == f.user && p.social == f.social && p.skills == f.skills
    ensures p.company == f.company && p.website == f.website && p.location == f.location
    ensures p.bio == f.bio && p.status == f.status && p.githubusername == f.githubusername
    ensures p.experience == [] && p.education == []
  {
    Profile(f.user, f.company, f.website, f.location, f.status, f.skills, f.bio,
            f.githubusername, f.social, [], [])
  }

  /** `$set` of one key: a key the fields object has replaces the stored
      value, an absent key keeps it. */
  predicate SetsOrKeeps<T(==)>(given: Option<T>, before: Option<T>, after: Option<T>) {
    after == if given.Some? then given else before
  }

  function SetField<T(==)>(given: Option<T>, before: Option<T>): (r: Option<T>)
    ensures SetsOrKeeps(given, before, r)
  {
    if given.Some? then given else before
  }

  /** `findOneAndUpdate({ user }, { $set: profileFields }, { new: true })`:
      scalar keys the fields object lacks keep their stored values, `social`
      is replaced as a whole, and the two lists are not touched. */
  function ApplySet(p: Profile, f: ProfileFields): (q: Profile)
    ensures q.user == f.user && q.social == f.social
    ensures SetsOrKeeps(f.company, p.company, q.company) && SetsOrKeeps(f.website, p.website, q.website)
    ensures SetsOrKeeps(f.location, p.location, q.location) && SetsOrKeeps(f.bio, p.bio, q.bio)
    ensures SetsOrKeeps(f.status, p.status, q.status) && SetsOrKeeps(f.skills, p.skills, q.skills)
    ensures SetsOrKeeps(f.githubusername, p.githubusername, q.githubusername)
    ensures q.experience == p.experience && q.education == p.education
  {
    Profile(
      f.user,
      SetField(f.company, p.company), SetField(f.website, p.website),
      SetField(f.location, p.location), SetField(f.status, p.status),
      SetField(f.skills, p.skills), SetField(f.bio, p.bio),
      SetField(f.githubusername, p.githubusername),
      f.social, p.experience, p.education)
  }

  /** POST /api/profile: validate, build the fields, then update the caller's
      profile if there is one and create it otherwise. When the caller's user
      record is gone the write still happens but reading `user.name` for the
      message throws, giving 500. */
  function Upsert(caller: Id, req: ProfileRequest, s: Store): (r: Reply)
    ensures r.response.status == 400 <==> !(Truthy(req.status) && Truthy(req.skills))
    ensures r.response.status == 400 ==>
      r.store == s && r.response.body == ErrorsBody(ErrorsOf(ProfileChecks(req)))
    ensures r.store.users == s.users
    ensures r.response.status != 400 ==>
      (r.response.status == 200 <==> FindUser(s.users, caller) >= 0)
    ensures r.response.status != 400 ==> caller in Owners(r.store.profiles)
    ensures r.response.status != 400 ==>
      |r.store.profiles| == |s.profiles| + (if caller in Owners(s.profiles) then 0 else 1)
    ensures r.response.status == 200 ==>
      var u := FindUser(s.users, caller);
      var i := FindProfile(r.store.profiles, caller);
      && 0 <= u && 0 <= i
      && r.response.body == MsgProfileBody(
           s.users[u].name + (if caller in Owners(s.profiles) then " Profile Updated" else " Profile Created"),
           r.store.profiles[i])
    ensures r.response.status != 200 && r.response.status != 400 ==>
      r.response == Response(500, MsgBody("Server Error"))
  {
    var errors := ErrorsOf(ProfileChecks(req));
    if |errors| > 0 then
      Reply(Response(400, ErrorsBody(errors)), s)
    else
      assert ProfileChecks(req)[0].passed && ProfileChecks(req)[1].passed;
      var f := BuildFields(caller, req);
      var u := FindUser(s.users, caller);
      var i := FindProfile(s.profiles, caller);
      if i >= 0 then
        var p := ApplySet(s.profiles[i], f);
        var profiles := s.profiles[i := p];
        assert Owners(profiles)[i] == caller;
        assert forall j :: 0 <= j < |s.profiles| ==> Owners(profiles)[j] == Owners(s.profiles)[j];
        assert FindProfile(profiles, caller) == i;
        Reply(
          if u >= 0 then Response(200, MsgProfileBody(s.users[u].name + " Profile Updated", p))
          else Response(500, MsgBody("Server Error")),
          s.(profiles := profiles))
      else
        var p := Create(f);
        var profiles := s.profiles + [p];
        assert Owners(profiles)[|s.profiles|] == caller;
        assert forall j :: 0 <= j < |s.profiles| ==> Owners(profiles)[j] == Owners(s.profiles)[j];
        assert FindProfile(profiles, caller) == |s.profiles|;
        Reply(
          if u >= 0 then Response(200, MsgProfileBody(s.users[u].name + " Profile Created", p))
          else Response(500, MsgBody("Server Error")),
          s.(profiles := profiles))
  }

  /** With no profile for the caller, an accepted request appends exactly one,
      owned by the caller, built from the request. */
  lemma UpsertCreates(caller: Id, req: ProfileRequest, s: Store)
    requires Truthy(req.status) && Truthy(req.skills)
    requires caller !in Owners(s.profiles)
    ensures Upsert(caller, req, s).store.profiles == s.profiles + [Create(BuildFields(caller, req))]
  {
  }

  /** With a profile for the caller, an accepted request rewrites that one
      document in place and no other. */
  lemma UpsertUpdates(caller: Id, req: ProfileRequest, s: Store)
    requires Truthy(req.status) && Truthy(req.skills)
    requires caller in Owners(s.profiles)
    ensures var i := FindProfile(s.profiles, caller);
      Upsert(caller, req, s).store.profiles == s.profiles[i := ApplySet(s.profiles[i], BuildFields(caller, req))]
  {
  }

  /** Create-or-update never gives a user a second profile. */
  lemma UpsertKeepsOwnersUnique(caller: Id, req: ProfileRequest, s: Store)
    requires UniqueOwners(s.profiles)
    ensures UniqueOwners(Upsert(caller, req, s).store.profiles)
  {
    var r := Upsert(caller, req, s);
    if Truthy(req.status) && Truthy(req.skills) {
      var i := FindProfile(s.profiles, caller);
      if i >= 0 {
        assert forall j :: 0 <= j < |s.profiles| ==> r.store.profiles[j].user == s.profiles[j].user;
      } else {
        var ps := r.store.profiles;
        forall a, b | 0 <= a < b < |ps|
          ensures ps[a].user != ps[b].user
        {
          if b == |s.profiles| {
            assert Owners(s.profiles)[a] == ps[a].user;
          }
        }
      }
    }
  }

  /** GET /api/profile/me. */
  function GetMe(caller: Id, s: Store): (r: Response)
    ensures r.status == 200 <==> caller in Owners(s.profiles)
    ensures r.status == 200 ==> r.body.ProfileBody? && r.body.profile in s.profiles && r.body.profile.user == caller
    ensures r.status != 200 ==> r == Response(400, MsgBody("There is no profile for this user"))
  {
    var i := FindProfile(s.profiles, caller);
    if i < 0 then Response(400, MsgBody("There is no profile for this user"))
    else Response(200, ProfileBody(s.profiles[i]))
  }

  /** GET /api/profile: every profile, in natural order. */
  function GetAll(s: Store): (r: Response)
    ensures r.status == 200 && r.body.ProfilesBody?
    ensures |r.body.profiles| == |s.profiles|
    ensures forall i :: 0 <= i < |s.profiles| ==> r.body.profiles[i] == s.profiles[i]
  {
    Response(200, ProfilesBody(s.profiles))
  }

  /** In a store where nobody owns two profiles, every listed profile is
      what the per-user route answers for its owner. */
  lemma ListedProfilesAreLookups(s: Store)
    requires UniqueOwners(s.profiles)
    ensures forall p :: p in GetAll(s).body.profiles ==> GetByUser(p.user, s) == Response(200, ProfileBody(p))
  {
    forall p | p in GetAll(s).body.profiles
      ensures GetByUser(p.user, s) == Response(200, ProfileBody(p))
    {
      var j :| 0 <= j < |s.profiles| && s.profiles[j] == p;
      assert Owners(s.profiles)[j] == p.user;
      var k := FindProfile(s.profiles, p.user);
      assert Owners(s.profiles)[k] == p.user;
    }
  }

  /** GET /api/profile/user/:user_id. */
  function GetByUser(userId: Id, s: Store): (r: Response)
    ensures r.status == 200 <==> userId in Owners(s.profiles)
    ensures r.status == 200 ==> r.body.ProfileBody? && r.body.profile in s.profiles && r.body.profile.user == userId
    ensures r.status != 200 ==> r == Response(400, MsgBody("Profile not found"))
  {
    var i := FindProfile(s.profiles, userId);
    if i < 0 then Response(400, MsgBody("Profile not found"))
    else Response(200, ProfileBody(s.profiles[i]))
  }

  /** DELETE /api/profile: removes the caller's profile and then the caller's
      user record. The message depends only on whether the user record
      existed. */
  function DeleteAccount(caller: Id, s: Store): (r: Reply)
    ensures var u := FindUser(s.users, caller);
      r.response == if u >= 0 then Response(200, MsgBody(s.users[u].name + " Profile Deleted"))
                    else Response(200, TextBody("Profile Not Found"))
    ensures |r.store.profiles| == |s.profiles| - (if caller in Owners(s.profiles) then 1 else 0)
    ensures |r.store.users| == |s.users| - (if caller in UserIds(s.users) then 1 else 0)
  {
    var i := FindProfile(s.profiles, caller);
    var u := FindUser(s.users, caller);
    var profiles := if i >= 0 then RemoveAt(s.profiles, i) else s.profiles;
    var users := if u >= 0 then RemoveAt(s.users, u) else s.users;
    Reply(
      if u >= 0 then Response(200, MsgBody(s.users[u].name + " Profile Deleted"))
      else Response(200, TextBody("Profile Not Found")),
      Store(users, profiles))
  }

  /** Removing the caller's first profile from profiles with unique owners
      leaves none for the caller and keeps every other profile. */
  lemma RemoveOwnedProfile(profiles: seq<Profile>, caller: Id)
    requires UniqueOwners(profiles)
    requires caller in Owners(profiles)
    ensures var t := RemoveAt(profiles, FindProfile(profiles, caller));
      caller !in Owners(t) && forall p :: p in profiles && p.user != caller ==> p in t
  {
    var i := FindProfile(profiles, caller);
    var t := RemoveAt(profiles, i);
    forall j | 0 <= j < |t|
      ensures Owners(t)[j] != caller
    {
      if j >= i {
        assert t[j] == profiles[j + 1];
      }
    }
    forall p | p in profiles && p.user != caller
      ensures p in t
    {
      RemoveAtKeepsOthers(profiles, i, p);
    }
  }

  /** Removing the user with the caller's id from users with unique ids
      leaves none with that id and keeps every other user. */
  lemma RemoveUserRecord(users: seq<User>, caller: Id)
    requires UniqueUserIds(users)
    requires caller in UserIds(users)
    ensures var t := RemoveAt(users, FindUser(users, caller));
      caller !in UserIds(t) && forall x :: x in users && x.id != caller ==> x in t
  {
    var u := FindUser(users, caller);
    var t := RemoveAt(users, u);
    forall j | 0 <= j < |t|
      ensures UserIds(t)[j] != caller
    {
      if j >= u {
        assert t[j] == users[j + 1];
      }
    }
    forall x | x in users && x.id != caller
      ensures x in t
    {
      RemoveAtKeepsOthers(users, u, x);
    }
  }

  /** In a store satisfying the invariants, account deletion leaves neither
      a profile nor a user record for the caller, and keeps everyone else's. */
  lemma DeleteAccountCascades(caller: Id, s: Store)
    requires Valid(s)
    ensures var t := DeleteAccount(caller, s).store;
      caller !in Owners(t.profiles) && caller !in UserIds(t.users)
    ensures var t := DeleteAccount(caller, s).store;
      (forall p :: p in s.profiles && p.user != caller ==> p in t.profiles)
      && (forall x :: x in s.users && x.id != caller ==> x in t.users)
  {
    if caller in Owners(s.profiles) {
      RemoveOwnedProfile(s.profiles, caller);
    }
    if caller in UserIds(s.users) {
      RemoveUserRecord(s.users, caller);
    }
  }

  /** Account deletion keeps the store's invariants. */
  lemma DeleteAccountKeepsValid(caller: Id, s: Store)
    requires Valid(s)
    ensures Valid(DeleteAccount(caller, s).store)
  {
    var i := FindProfile(s.profiles, caller);
    var u := FindUser(s.users, caller);
    var t := DeleteAccount(caller, s).store;
    if i >= 0 {
      assert t.profiles == RemoveAt(s.profiles, i);
      RemovedProfilesStayUnique(s.profiles, i);
    }
    if u >= 0 {
      assert t.users == RemoveAt(s.users, u);
      RemovedUsersStayUnique(s.users, u);
    }
  }

  /** `list.unshift(entry)`: the new entry at index 0, the old ones shifted
      by one in order. */
  function AddEntry<F>(xs: seq<Entry<F>>, id: Id, fields: F): (r: seq<Entry<F>>)
    ensures |r| == |xs| + 1
    ensures r[0] == Entry(id, fields)
    ensures forall j :: 0 <= j < |xs| ==> r[j + 1] == xs[j]
  {
    [Entry(id, fields)] + xs
  }

  /** `indexOf` on the ids and then `splice(index, 1)`: `None` when no entry
      has the id; otherwise the first entry with it is gone and the others
      keep their order. */
  function RemoveEntry<F>(xs: seq<Entry<F>>, id: Id): (r: Option<seq<Entry<F>>>)
    ensures r.None? <==> id !in EntryIds(xs)
    ensures r.Some? ==>
      var k := IndexOf(EntryIds(xs), id);
      && 0 <= k < |xs| && xs[k].id == id
      && (forall j :: 0 <= j < k ==> xs[j].id != id)
      && r.value == xs[..k] + xs[k + 1..]
  {
    var k := IndexOf(EntryIds(xs), id);
    if k < 0 then None
    else
      assert forall j :: 0 <= j < k ==> EntryIds(xs)[j] == xs[j].id;
      Some(RemoveAt(xs, k))
  }

  /** Removing by the id of an entry just added takes that entry off again. */
  lemma RemoveUndoesAdd<F>(xs: seq<Entry<F>>, id: Id, fields: F)
    ensures RemoveEntry(AddEntry(xs, id, fields), id) == Some(xs)
  {
    var ys := AddEntry(xs, id, fields);
    var k := IndexOf(EntryIds(ys), id);
    assert EntryIds(ys)[0] == id;
    assert k == 0;
    assert RemoveAt(ys, 0) == xs;
  }

  /** The validators of the experience route: one error for each falsy field
      of title, company and start date, in that order. */
  function ExperienceChecks(f: ExperienceFields): (r: seq<Check>)
    ensures ErrorsOf(r) == ErrorUnless(Truthy(f.title), FieldError("Title is required", Some("title")))
                           + ErrorUnless(Truthy(f.company), FieldError("Company is required", Some("company")))
                           + ErrorUnless(Truthy(f.from), FieldError("Starting Date is required", Some("from")))
  {
    var c0 := Check(Truthy(f.title), FieldError("Title is required", Some("title")));
    var c1 := Check(Truthy(f.company), FieldError("Company is required", Some("company")));
    var c2 := Check(Truthy(f.from), FieldError("Starting Date is required", Some("from")));
    ErrorsOfCons(c0, [c1] + [c2]);
    ErrorsOfCons(c1, [c2]);
    ErrorsOfSingle(c2);
    [c0] + ([c1] + [c2])
  }

  /** The validators of the education route: one error for each falsy field
      of school, degree, major and start date, in that order. */
  function EducationChecks(f: EducationFields): (r: seq<Check>)
    ensures ErrorsOf(r) == ErrorUnless(Truthy(f.school), FieldError("School is required", Some("school")))
                           + ErrorUnless(Truthy(f.degree), FieldError("Degree is required", Some("degree")))
                           + ErrorUnless(Truthy(f.major), FieldError("Major is required", Some("major")))
                           + ErrorUnless(Truthy(f.from), FieldError("Starting Date is required", Some("from")))
  {
    var e0 := ErrorUnless(Truthy(f.school), FieldError("School is required", Some("school")));
    var e1 := ErrorUnless(Truthy(f.degree), FieldError("Degree is required", Some("degree")));
    var e2 := ErrorUnless(Truthy(f.major), FieldError("Major is required", Some("major")));
    var e3 := ErrorUnless(Truthy(f.from), FieldError("Starting Date is required", Some("from")));
    assert e0 + (e1 + (e2 + e3)) == e0 + e1 + e2 + e3;
    var c0 := Check(Truthy(f.school), FieldError("School is required", Some("school")));
    var c1 := Check(Truthy(f.degree), FieldError("Degree is required", Some("degree")));
    var c2 := Check(Truthy(f.major), FieldError("Major is required", Some("major")));
    var c3 := Check(Truthy(f.from), FieldError("Starting Date is required", Some("from")));
    ErrorsOfCons(c0, [c1] + ([c2] + [c3]));
    ErrorsOfCons(c1, [c2] + [c3]);
    ErrorsOfCons(c2, [c3]);
    ErrorsOfSingle(c3);
    [c0] + ([c1] + ([c2] + [c3]))
  }

  /** PUT /api/profile/experience; `newId` is the id the database gives the
      entry. Without a profile, `profile.experience` throws and the handler
      answers 500. The reply wraps the profile: `{ profile }`. */
  function AddExperience(caller: Id, f: ExperienceFields, newId: Id, s: Store): (r: Reply)
    ensures r.response.status == 400 <==> !(Truthy(f.title) && Truthy(f.company) && Truthy(f.from))
    ensures r.response.status == 400 ==> r.response.body == ErrorsBody(ErrorsOf(ExperienceChecks(f)))
    ensures r.response.status != 200 ==> r.store == s
    ensures r.response.status != 400 && caller !in Owners(s.profiles) ==> r.response == ServerErrorText
    ensures Truthy(f.title) && Truthy(f.company) && Truthy(f.from) && caller in Owners(s.profiles) ==>
      r.response.status == 200
    ensures r.response.status == 200 ==>
      var i := FindProfile(s.profiles, caller);
      var p := s.profiles[i].(experience := AddEntry(s.profiles[i].experience, newId, f));
      0 <= i && r.response.body == WrappedProfileBody(p) && r.store == s.(profiles := s.profiles[i := p])
  {
    var errors := ErrorsOf(ExperienceChecks(f));
    if |errors| > 0 then Reply(Response(400, ErrorsBody(errors)), s)
    else
      assert ExperienceChecks(f)[0].passed && ExperienceChecks(f)[1].passed && ExperienceChecks(f)[2].passed;
      var i := FindProfile(s.profiles, caller);
      if i < 0 then Reply(ServerErrorText, s)
      else
        var p := s.profiles[i].(experience := AddEntry(s.profiles[i].experience, newId, f));
        Reply(Response(200, WrappedProfileBody(p)), s.(profiles := s.profiles[i := p]))
  }

  /** DELETE /api/profile/experience/:exp_id. Without a profile the lookup
      throws and the catch answers 400 'Bad Request'. The reply is the bare
      profile. */
  function RemoveExperience(caller: Id, expId: Id, s: Store): (r: Reply)
    ensures caller !in Owners(s.profiles) ==> r == Reply(Response(400, TextBody("Bad Request")), s)
    ensures caller in Owners(s.profiles) && expId !in EntryIds(s.profiles[FindProfile(s.profiles, caller)].experience) ==>
      r == Reply(Response(400, MsgBody("Experience Not Found")), s)
    ensures caller in Owners(s.profiles) && expId in EntryIds(s.profiles[FindProfile(s.profiles, caller)].experience) ==>
      r.response.status == 200
    ensures r.response.status == 200 ==>
      var i := FindProfile(s.profiles, caller);
      var p := s.profiles[i];
      0 <= i && RemoveEntry(p.experience, expId).Some?
      && var q := p.(experience := RemoveEntry(p.experience, expId).value);
      r.response.body == ProfileBody(q) && r.store == s.(profiles := s.profiles[i := q])
    ensures r.response.status == 200 || r.store == s
  {
    var i := FindProfile(s.profiles, caller);
    if i < 0 then Reply(Response(400, TextBody("Bad Request")), s)
    else
      var p := s.profiles[i];
      match RemoveEntry(p.experience, expId)
      case None => Reply(Response(400, MsgBody("Experience Not Found")), s)
      case Some(rest) =>
        var q := p.(experience := rest);
        Reply(Response(200, ProfileBody(q)), s.(profiles := s.profiles[i := q]))
  }

  /** PUT /api/profile/education; as for experience, but the reply is the
      bare profile. */
  function AddEducation(caller: Id, f: EducationFields, newId: Id, s: Store): (r: Reply)
    ensures r.response.status == 400 <==>
      !(Truthy(f.school) && Truthy(f.degree) && Truthy(f.major) && Truthy(f.from))
    ensures r.response.status == 400 ==> r.response.body == ErrorsBody(ErrorsOf(EducationChecks(f)))
    ensures r.response.status != 200 ==> r.store == s
    ensures r.response.status != 400 && caller !in Owners(s.profiles) ==> r.response == ServerErrorText
    ensures Truthy(f.school) && Truthy(f.degree) && Truthy(f.major) && Truthy(f.from) && caller in Owners(s.profiles) ==>
      r.response.status == 200
    ensures r.response.status == 200 ==>
      var i := FindProfile(s.profiles, caller);
      var p := s.profiles[i].(education := AddEntry(s.profiles[i].education, newId, f));
      0 <= i && r.response.body == ProfileBody(p) && r.store == s.(profiles := s.profiles[i := p])
  {
    var errors := ErrorsOf(EducationChecks(f));
    if |errors| > 0 then Reply(Response(400, ErrorsBody(errors)), s)
    else
      assert EducationChecks(f)[0].passed && EducationChecks(f)[1].passed;
      assert EducationChecks(f)[2].passed && EducationChecks(f)[3].passed;
      var i := FindProfile(s.profiles, caller);
      if i < 0 then Reply(ServerErrorText, s)
      else
        var p := s.profiles[i].(education := AddEntry(s.profiles[i].education, newId, f));
        Reply(Response(200, ProfileBody(p)), s.(profiles := s.profiles[i := p]))
  }

  /** DELETE /api/profile/education/:edu_id. */
  function RemoveEducation(caller: Id, eduId: Id, s: Store): (r: Reply)
    ensures caller !in Owners(s.profiles) ==> r == Reply(Response(400, TextBody("Bad Request")), s)
    ensures caller in Owners(s.profiles) && eduId !in EntryIds(s.profiles[FindProfile(s.profiles, caller)].education) ==>
      r == Reply(Response(400, MsgBody("Education Not Found")), s)
    ensures caller in Owners(s.profiles) && eduId in EntryIds(s.profiles[FindProfile(s.profiles, caller)].education) ==>
      r.response.status == 200
    ensures r.response.status == 200 ==>
      var i := FindProfile(s.profiles, caller);
      var p := s.profiles[i];
      0 <= i && RemoveEntry(p.education, eduId).Some?
      && var q := p.(education := RemoveEntry(p.education, eduId).value);
      r.response.body == ProfileBody(q) && r.store == s.(profiles := s.profiles[i := q])
    ensures r.response.status == 200 || r.store == s
  {
    var i := FindProfile(s.profiles, caller);
    if i < 0 then Reply(Response(400, TextBody("Bad Request")), s)
    else
      var p := s.profiles[i];
      match RemoveEntry(p.education, eduId)
      case None => Reply(Response(400, MsgBody("Education Not Found")), s)
      case Some(rest) =>
        var q := p.(education := rest);
        Reply(Response(200, ProfileBody(q)), s.(profiles := s.profiles[i := q]))
  }

  /** The sub-list handlers rewrite one document in place, so no user gains
      or loses a profile. */
  lemma EntryHandlersKeepOwners(caller: Id, fe: ExperienceFields, fd: EducationFields, newId: Id, id: Id, s: Store)
    ensures Owners(AddExperience(caller, fe, newId, s).store.profiles) == Owners(s.profiles)
    ensures Owners(AddEducation(caller, fd, newId, s).store.profiles) == Owners(s.profiles)
    ensures Owners(RemoveExperience(caller, id, s).store.profiles) == Owners(s.profiles)
    ensures Owners(RemoveEducation(caller, id, s).store.profiles) == Owners(s.profiles)
  {
    var i := FindProfile(s.profiles, caller);
    if 0 <= i {
      var p := s.profiles[i];
      ReplaceKeepsOwners(s.profiles, i, p.(experience := AddEntry(p.experience, newId, fe)));
      ReplaceKeepsOwners(s.profiles, i, p.(education := AddEntry(p.education, newId, fd)));
      if RemoveEntry(p.experience, id).Some? {
        ReplaceKeepsOwners(s.profiles, i, p.(experience := RemoveEntry(p.experience, id).value));
      }
      if RemoveEntry(p.education, id).Some? {
        ReplaceKeepsOwners(s.profiles, i, p.(education := RemoveEntry(p.education, id).value));
      }
    }
  }

  /** Rewriting one profile without changing its owner keeps the owners. */
  lemma ReplaceKeepsOwners(profiles: seq<Profile>, i: nat, q: Profile)
    requires i < |profiles| && q.user == profiles[i].user
    ensures Owners(profiles[i := q]) == Owners(profiles)
  {
  }
}
