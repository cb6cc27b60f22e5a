/** The logic of the profile form (`client/src/component/profile-form/ProfileForm.js`):
    filling the form from a loaded profile, editing one field, and
    submitting. Rendering is not modelled. */
module ProfileForm {
  import opened Wrappers
  import opened Js
  import opened ProfileActions

  /** The keys of the form's `initialState`. */
  const FormKeys: set<string> := {
    "company", "website", "location", "status", "skills", "githubusername", "bio",
    "twitter", "facebook", "linkedin", "youtube", "instagram"
  }

  /** The form data: field name to value. */
  type Form = map<string, Json>

  /** `initialState`: every field the empty string. */
  const InitialForm: Form := map k | k in FormKeys :: JStr("")

  /** The own keys and values a `for...in` loop visits: an object's fields,
      and nothing for any other value. */
  function FieldsOf(j: Json): map<string, Json> {
    if j.JObj? then j.fields else map[]
  }

  /** `profile.social`, as the second loop sees it. */
  function SocialOf(profile: Json): map<string, Json> {
    if profile.JObj? && "social" in profile.fields then FieldsOf(profile.fields["social"]) else map[]
  }

  /** `for (const key in src) if (key in form) form[key] = src[key]`. */
  function Overlay(form: Form, src: map<string, Json>): (r: Form)
    ensures r.Keys == form.Keys
    ensures forall k :: k in r && k in src ==> r[k] == src[k]
    ensures forall k :: k in r && k !in src ==> r[k] == form[k]
  {
    map k | k in form :: if k in src then src[k] else form[k]
  }

  /** `if (Array.isArray(form.skills)) form.skills = form.skills.join(', ')`. */
  function JoinSkills(form: Form): (r: Form)
    ensures r.Keys == form.Keys
    ensures forall k :: k in r && k != "skills" ==> r[k] == form[k]
    ensures "skills" in form && form["skills"].JArr? ==> r["skills"] == JStr(JoinJs(form["skills"].items, ", "))
    ensures !("skills" in form && form["skills"].JArr?) ==> r == form
  {
    if "skills" in form && form["skills"].JArr? then form["skills" := JStr(JoinJs(form["skills"].items, ", "))]
    else form
  }

  /** The value of a form key after both copy loops, before the skills join. */
  function Copied(profile: Json, k: string): Json {
    if k in SocialOf(profile) then SocialOf(profile)[k]
    else if k in FieldsOf(profile) then FieldsOf(profile)[k]
    else JStr("")
  }

  /** The form data the effect builds from a loaded profile: the profile's
      own values for the form's keys, then its social links on top, then
      a skills array joined with `", "`. */
  function Prefill(profile: Json): (r: Form)
    ensures r.Keys == FormKeys
    ensures forall k :: k in r && k != "skills" ==> r[k] == Copied(profile, k)
    ensures r["skills"] == (if Copied(profile, "skills").JArr? then JStr(JoinJs(Copied(profile, "skills").items, ", "))
                            else Copied(profile, "skills"))
  {
    JoinSkills(Overlay(Overlay(InitialForm, FieldsOf(profile)), SocialOf(profile)))
  }

  /** A profile key outside the form, other than `social`, has no influence
      on the prefilled form: `_id`, `user`, `experience`, `education` and the
      like are ignored. */
  lemma PrefillIgnoresOtherKeys(fields: map<string, Json>, k: string, v: Json)
    requires k !in FormKeys && k != "social"
    ensures Prefill(JObj(fields[k := v])) == Prefill(JObj(fields))
  {
    var a := Prefill(JObj(fields[k := v]));
    var b := Prefill(JObj(fields));
    assert forall key :: key in FormKeys ==> Copied(JObj(fields[k := v]), key) == Copied(JObj(fields), key);
    assert a.Keys == b.Keys;
  }

  /** A value with none of the form's keys, at the top level or under
      `social`, prefills the blank form. */
  lemma PrefillWithoutFormKeys(profile: Json)
    requires FieldsOf(profile).Keys !! FormKeys && SocialOf(profile).Keys !! FormKeys
    ensures Prefill(profile) == InitialForm
  {
    var r := Prefill(profile);
    assert forall k :: k in FormKeys ==> Copied(profile, k) == JStr("");
    assert r.Keys == InitialForm.Keys;
    forall k | k in r
      ensures r[k] == InitialForm[k]
    {
    }
  }

  /** Where a social link and a top-level value share a key, the link wins. */
  lemma SocialWins(profile: Json, k: string)
    requires k in FormKeys && k != "skills"
    requires k in SocialOf(profile) && k in FieldsOf(profile)
    ensures Prefill(profile)[k] == SocialOf(profile)[k]
  {
  }

  /** What the effect does on a run: whether it asks for the current profile,
      and the form data it sets, if any. */
  datatype MountEffect = MountEffect(requestProfile: bool, setForm: Option<Form>)

  /** One run of the effect with the loaded profile and the loading flag. */
  function OnMount(profile: Json, loading: bool): (r: MountEffect)
    ensures r.requestProfile <==> !Truthy(profile)
    ensures r.setForm.Some? <==> Truthy(profile) && !loading
    ensures r.setForm.Some? ==> r.setForm.value == Prefill(profile)
    ensures !(r.requestProfile && r.setForm.Some?)
  {
    MountEffect(!Truthy(profile), if !loading && Truthy(profile) then Some(Prefill(profile)) else None)
  }

  /** `onChange`: the edited field takes the input's value; the others stay. */
  function OnChange(form: Form, name: string, value: string): (r: Form)
    ensures r.Keys == form.Keys + {name}
    ensures r[name] == JStr(value)
    ensures forall k :: k in form && k != name ==> r[k] == form[k]
  {
    form[name := JStr(value)]
  }

  /** Editing a field of a prefilled form keeps it a form of exactly the
      twelve keys. */
  lemma OnChangeKeepsKeys(form: Form, name: string, value: string)
    requires form.Keys == FormKeys && name in FormKeys
    ensures OnChange(form, name, value).Keys == FormKeys
  {
  }

  /** `onSubmit`: the form data go to `createProfile` with `edit` set exactly
      when a profile is loaded, so the success alert says "Profile Updated"
      for a loaded profile and "Profile Created" otherwise. */
  function OnSubmit(form: Form, profile: Json, o: Outcome): (r: seq<Effect>)
    ensures |r| >= 2 && r[0] == Send(Post, "/api/profile", JObj(form))
    ensures o.Ok? ==> |r| == 4 && r[2] == Alert(if Truthy(profile) then "Profile Updated" else "Profile Created", "success", AlertTimeout)
    ensures o.Err? ==> EndsWithProfileError(r, o)
  {
    var r := CreateProfile(JObj(form), Truthy(profile), o);
    assert o.Ok? ==> |r[1..]| == 3 && r[2] == r[1..][1];
    r
  }

  /** What a submission leaves in the profile slice: the reply body as the
      loaded profile on success, the recorded failure otherwise. */
  lemma OnSubmitRecordsOutcome(form: Form, profile: Json, st: ProfileReducer.State, o: Outcome)
    ensures Run(st, OnSubmit(form, profile, o)) == if o.Ok? then Loaded(st, o.data) else Failed(st, o)
  {
    if o.Ok? {
      CreateProfileStoresBody(st, JObj(form), Truthy(profile), o.data);
    } else {
      FormFailureRecordsError(st, OnSubmit(form, profile, o), o);
    }
  }
}
