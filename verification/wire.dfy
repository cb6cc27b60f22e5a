/** The server's responses as the client's HTTP library hands them over, and
    the request body the server sees for submitted form data. `sign` is
    `jwt.sign` with the configured secret. */
module Wire {
  import opened Wrappers
  import opened Model
  import opened Js
  import opened ProfileRoutes
  import opened ProfileActions
  import opened ProfileForm

  /** A key with a string value when the field is present, no key otherwise
      (`JSON.stringify` drops undefined fields). */
  function OptField(k: string, v: Option<string>): map<string, Json> {
    if v.Some? then map[k := JStr(v.value)] else map[]
  }

  function EncodeExperience(e: Entry<ExperienceFields>): Json {
    var f := e.fields;
    JObj(map["_id" := JStr(e.id)] + OptField("title", f.title) + OptField("company", f.company)
         + OptField("location", f.location) + OptField("from", f.from) + OptField("to", f.to)
         + (if f.current.Some? then map["current" := JBool(f.current.value)] else map[])
         + OptField("description", f.description))
  }

  function EncodeEducation(e: Entry<EducationFields>): Json {
    var f := e.fields;
    JObj(map["_id" := JStr(e.id)] + OptField("school", f.school) + OptField("degree", f.degree)
         + OptField("major", f.major) + OptField("from", f.from) + OptField("to", f.to)
         + (if f.current.Some? then map["current" := JBool(f.current.value)] else map[])
         + OptField("description", f.description))
  }

  /** The keys a profile document can carry in JSON. */
  const ProfileKeys: set<string> := {
    "user", "company", "website", "location", "status", "skills", "bio", "githubusername",
    "social", "experience", "education"
  }

  /** Whether the JSON form of `p` has key `k`. */
  predicate HasKey(p: Profile, k: string) {
    if k == "company" then p.company.Some?
    else if k == "website" then p.website.Some?
    else if k == "location" then p.location.Some?
    else if k == "status" then p.status.Some?
    else if k == "skills" then p.skills.Some?
    else if k == "bio" then p.bio.Some?
    else if k == "githubusername" then p.githubusername.Some?
    else k in ProfileKeys
  }

  /** The value of key `k` in the JSON form of `p`. */
  function KeyValue(p: Profile, k: string): Json
    requires HasKey(p, k)
  {
    if k == "user" then JStr(p.user)
    else if k == "company" then JStr(p.company.value)
    else if k == "website" then JStr(p.website.value)
    else if k == "location" then JStr(p.location.value)
    else if k == "status" then JStr(p.status.value)
    else if k == "skills" then StrArray(p.skills.value)
    else if k == "bio" then JStr(p.bio.value)
    else if k == "githubusername" then JStr(p.githubusername.value)
    else if k == "social" then JObj(map l | l in p.social :: JStr(p.social[l]))
    else if k == "experience" then JArr(seq(|p.experience|, i requires 0 <= i < |p.experience| => EncodeExperience(p.experience[i])))
    else JArr(seq(|p.education|, i requires 0 <= i < |p.education| => EncodeEducation(p.education[i])))
  }

  /** A profile document as the client parses it. */
  function EncodeProfile(p: Profile): (j: Json)
    ensures j.JObj? && j.fields.Keys <= ProfileKeys
    ensures forall k :: k in ProfileKeys ==> (k in j.fields <==> HasKey(p, k))
    ensures forall k :: k in j.fields ==> j.fields[k] == KeyValue(p, k)
  {
    JObj(map k | k in ProfileKeys && HasKey(p, k) :: KeyValue(p, k))
  }

  function EncodeError(e: FieldError): Json {
    JObj(map["msg" := JStr(e.msg)] + OptField("param", e.param))
  }

  /** A response body as the client parses it. Every body is truthy except
      the `null` of a missing account and an empty text; an `errors` array
      appears exactly in an errors body, one object with its `msg` per error;
      a `profile` key appears exactly in the `{ msg, profile }` and
      `{ profile }` replies. */
  function EncodeBody(b: Body, sign: Token -> string): (j: Json)
    ensures Js.Truthy(j) <==> !(b.AccountBody? && b.account.None?) && !(b.TextBody? && b.text == "")
    ensures (j.JObj? && "errors" in j.fields) <==> b.ErrorsBody?
    ensures b.ErrorsBody? ==>
      && j.fields["errors"].JArr? && |j.fields["errors"].items| == |b.errors|
      && forall i :: 0 <= i < |b.errors| ==>
           j.fields["errors"].items[i].JObj? && "msg" in j.fields["errors"].items[i].fields
           && j.fields["errors"].items[i].fields["msg"] == JStr(b.errors[i].msg)
    ensures (j.JObj? && "profile" in j.fields) <==> b.MsgProfileBody? || b.WrappedProfileBody?
    ensures b.MsgProfileBody? || b.WrappedProfileBody? ==> j.fields["profile"] == EncodeProfile(b.profile)
  {
    match b
    case MsgBody(m) => JObj(map["msg" := JStr(m)])
    case ErrorsBody(es) =>
      var items := seq(|es|, i requires 0 <= i < |es| => EncodeError(es[i]));
      assert forall i :: 0 <= i < |es| ==> items[i] == EncodeError(es[i]) && "msg" in items[i].fields;
      JObj(map["errors" := JArr(items)])
    case TextBody(t) => JStr(t)
    case ProfileBody(p) =>
      assert "errors" !in ProfileKeys && "profile" !in ProfileKeys;
      EncodeProfile(p)
    case MsgProfileBody(m, p) => JObj(map["msg" := JStr(m), "profile" := EncodeProfile(p)])
    case WrappedProfileBody(p) => JObj(map["profile" := EncodeProfile(p)])
    case ProfilesBody(ps) => JArr(seq(|ps|, i requires 0 <= i < |ps| => EncodeProfile(ps[i])))
    case TokenBody(t) => JObj(map["token" := JStr(sign(t))])
    case AccountBody(a) =>
      if a.None? then JNull
      else JObj(map["_id" := JStr(a.value.id), "name" := JStr(a.value.name),
                    "email" := JStr(a.value.email), "avatar" := JStr(a.value.avatar)])
    case UsersBody(us) =>
      JArr(seq(|us|, i requires 0 <= i < |us| =>
        JObj(map["_id" := JStr(us[i].id), "name" := JStr(us[i].name), "email" := JStr(us[i].email)])))
  }

  /** The reason phrase of the statuses the server sends; only those have
      one here. */
  function StatusText(status: nat): (r: string)
    ensures r != "" <==> status in {200, 400, 401, 404, 500}
  {
    if status == 200 then "OK"
    else if status == 400 then "Bad Request"
    else if status == 401 then "Unauthorized"
    else if status == 404 then "Not Found"
    else if status == 500 then "Internal Server Error"
    else ""
  }

  /** The `msg` of every entry of `err.response.data.errors`; only an errors
      body has that array. */
  function ErrorMessages(b: Body): (r: Option<seq<string>>)
    ensures r.Some? <==> b.ErrorsBody?
    ensures r.Some? ==> |r.value| == |b.errors| && forall i :: 0 <= i < |b.errors| ==> r.value[i] == b.errors[i].msg
  {
    match b
    case ErrorsBody(es) => Some(seq(|es|, i requires 0 <= i < |es| => es[i].msg))
    case _ => None
  }

  /** What axios makes of a response: a 2xx status resolves with the body,
      anything else rejects. */
  function ToOutcome(r: Response, sign: Token -> string): (o: Outcome)
    ensures o.Ok? <==> 200 <= r.status < 300
    ensures o.Ok? ==> o.data == EncodeBody(r.body, sign)
    ensures o.Err? ==> o.status == r.status && o.statusText == StatusText(r.status) && o.errors == ErrorMessages(r.body)
  {
    if 200 <= r.status < 300 then Ok(EncodeBody(r.body, sign))
    else Err(r.status, StatusText(r.status), ErrorMessages(r.body))
  }

  /** A form value as the server's request body holds it: a string, or
      nothing for anything else. */
  function FormString(form: Form, k: string): Option<string> {
    if k in form && form[k].JStr? then Some(form[k].s) else None
  }

  /** The field of a request a form key names. */
  function RequestField(req: ProfileRequest, k: string): Option<string> {
    if k == "company" then req.company
    else if k == "website" then req.website
    else if k == "location" then req.location
    else if k == "status" then req.status
    else if k == "skills" then req.skills
    else if k == "bio" then req.bio
    else if k == "githubusername" then req.githubusername
    else PlatformLink(req, k)
  }

  /** The request the server sees for submitted form data: each of the
      form's keys becomes the request field of that name, holding the form's
      string there, or nothing when the form holds no string. */
  function FormToRequest(form: Form): (r: ProfileRequest)
    ensures forall k :: k in FormKeys ==> RequestField(r, k) == FormString(form, k)
  {
    ProfileRequest(
      FormString(form, "company"), FormString(form, "website"), FormString(form, "location"),
      FormString(form, "status"), FormString(form, "skills"), FormString(form, "bio"),
      FormString(form, "githubusername"), FormString(form, "youtube"), FormString(form, "linkedin"),
      FormString(form, "facebook"), FormString(form, "twitter"), FormString(form, "instagram"))
  }

  /** Editing one field of the form changes that field of the request the
      form sends, to the typed value, and no other. */
  lemma EditedFieldIsSent(form: Form, name: string, value: string)
    requires name in FormKeys
    ensures RequestField(FormToRequest(OnChange(form, name, value)), name) == Some(value)
    ensures forall k :: k in FormKeys && k != name ==>
      RequestField(FormToRequest(OnChange(form, name, value)), k) == RequestField(FormToRequest(form), k)
  {
  }
}
