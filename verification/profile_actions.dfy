/** The thunks of `client/src/redux/actions/profile.js`. Each one is a function
    from the outcome of its HTTP request to everything it does, in order: the
    request it sends, the actions it dispatches, the alerts it raises and
    the navigation it asks for. `window.confirm` is a boolean input. */
module ProfileActions {
  import opened Wrappers
  import opened Js
  import opened ProfileReducer

  datatype Method = Get | Post | Put | Delete

  /** How the request ended, as axios reports it: the parsed body of a 2xx
      response, or a rejection with the response's status, status text and
      the `msg` of every entry of its body's `errors` array, when it has one. */
  datatype Outcome =
    | Ok(data: Json)
    | Err(status: nat, statusText: string, errors: Option<seq<string>>)

  datatype Effect =
    | Send(verb: Method, url: string, body: Json)
    | Dispatch(action: Action)
    | Alert(msg: string, alertType: string, timeout: nat)
    | Navigate(path: string)

  /** How long every alert of these thunks stays up, in milliseconds. */
  const AlertTimeout: nat := 2000

  const DashboardPath := "/dashboard"

  /** `{ msg: err.response.statusText, status: err.response.status }`. */
  function ErrorPayload(status: nat, statusText: string): Json {
    JObj(map["msg" := JStr(statusText), "status" := JNum(status)])
  }

  /** The PROFILE_ERROR dispatch of a failed request. */
  function Failure(o: Outcome): Effect
    requires o.Err?
  {
    Dispatch(Action(ProfileError, ErrorPayload(o.status, o.statusText)))
  }

  predicate IsProfileError(e: Effect) {
    e.Dispatch? && e.action.kind.ProfileError?
  }

  predicate IsNavigation(e: Effect) {
    e.Navigate?
  }

  /** The effects end with the PROFILE_ERROR of the outcome and hold no
      other PROFILE_ERROR. */
  predicate EndsWithProfileError(effects: seq<Effect>, o: Outcome)
    requires o.Err?
  {
    && |effects| > 0
    && effects[|effects| - 1] == Failure(o)
    && forall i :: 0 <= i < |effects| - 1 ==> !IsProfileError(effects[i])
  }

  /** `errors.forEach(error => dispatch(setAlert(error.msg, 'danger', 2000)))`
      when the body has an `errors` array. */
  function DangerAlerts(errors: Option<seq<string>>): (r: seq<Effect>)
    ensures errors.None? ==> r == []
    ensures errors.Some? ==> |r| == |errors.value|
    ensures errors.Some? ==> forall i :: 0 <= i < |r| ==> r[i] == Alert(errors.value[i], "danger", AlertTimeout)
  {
    match errors
    case None => []
    case Some(msgs) => seq(|msgs|, i requires 0 <= i < |msgs| => Alert(msgs[i], "danger", AlertTimeout))
  }

  /** The shape shared by the three form submissions: on success the body is
      dispatched, a success alert raised and the dashboard opened; on failure
      one danger alert per server error, then PROFILE_ERROR. */
  function FormSubmission(request: Effect, kind: ActionType, success: string, o: Outcome): (r: seq<Effect>)
    ensures |r| > 0 && r[0] == request
    ensures o.Ok? ==> r[1..] == [Dispatch(Action(kind, o.data)), Alert(success, "success", AlertTimeout),
                                 Navigate(DashboardPath)]
    ensures o.Err? ==> |r| >= 2 && r[1..|r| - 1] == DangerAlerts(o.errors)
    ensures o.Err? && !request.Navigate? && !IsProfileError(request) ==>
      EndsWithProfileError(r, o) && forall i :: 0 <= i < |r| ==> !IsNavigation(r[i])
  {
    match o
    case Ok(data) =>
      [request, Dispatch(Action(kind, data)), Alert(success, "success", AlertTimeout), Navigate(DashboardPath)]
    case Err(_, _, errors) =>
      [request] + DangerAlerts(errors) + [Failure(o)]
  }

  /** The shape of the remaining thunks: the action carrying the body, or
      PROFILE_ERROR. */
  function Fetch(request: Effect, kind: ActionType, o: Outcome): (r: seq<Effect>)
    ensures o.Ok? ==> r == [request, Dispatch(Action(kind, o.data))]
    ensures o.Err? ==> r == [request, Failure(o)]
  {
    match o
    case Ok(data) => [request, Dispatch(Action(kind, data))]
    case Err(_, _, _) => [request, Failure(o)]
  }

  /** `getCurrentProfile()`. */
  function GetCurrentProfile(o: Outcome): (r: seq<Effect>)
    ensures |r| >= 2 && r[0] == Send(Get, "/api/profile/me", JNull)
    ensures o.Ok? ==> r[1..] == [Dispatch(Action(GetProfile, o.data))]
    ensures o.Err? ==> EndsWithProfileError(r, o)
  {
    Fetch(Send(Get, "/api/profile/me", JNull), GetProfile, o)
  }

  /** `createProfile(formData, history, edit)`. */
  function CreateProfile(formData: Json, edit: bool, o: Outcome): (r: seq<Effect>)
    ensures |r| >= 2 && r[0] == Send(Post, "/api/profile", formData)
    ensures o.Ok? ==> r[1..] == [Dispatch(Action(GetProfile, o.data)),
                                 Alert(if edit then "Profile Updated" else "Profile Created", "success", AlertTimeout),
                                 Navigate(DashboardPath)]
    ensures o.Err? ==> EndsWithProfileError(r, o) && r[1..|r| - 1] == DangerAlerts(o.errors)
    ensures o.Err? ==> forall i :: 0 <= i < |r| ==> !IsNavigation(r[i])
  {
    FormSubmission(Send(Post, "/api/profile", formData), GetProfile,
                   if edit then "Profile Updated" else "Profile Created", o)
  }

  /** `addExperience(formData, history)`. */
  function AddExperience(formData: Json, o: Outcome): (r: seq<Effect>)
    ensures |r| >= 2 && r[0] == Send(Put, "/api/profile/experience", formData)
    ensures o.Ok? ==> r[1..] == [Dispatch(Action(UpdateProfile, o.data)),
                                 Alert("Experience Added", "success", AlertTimeout), Navigate(DashboardPath)]
    ensures o.Err? ==> EndsWithProfileError(r, o) && r[1..|r| - 1] == DangerAlerts(o.errors)
    ensures o.Err? ==> forall i :: 0 <= i < |r| ==> !IsNavigation(r[i])
  {
    FormSubmission(Send(Put, "/api/profile/experience", formData), UpdateProfile, "Experience Added", o)
  }

  /** `addEducation(formData, history)`. */
  function AddEducation(formData: Json, o: Outcome): (r: seq<Effect>)
    ensures |r| >= 2 && r[0] == Send(Put, "/api/profile/education", formData)
    ensures o.Ok? ==> r[1..] == [Dispatch(Action(UpdateProfile, o.data)),
                                 Alert("Education Added", "success", AlertTimeout), Navigate(DashboardPath)]
    ensures o.Err? ==> EndsWithProfileError(r, o) && r[1..|r| - 1] == DangerAlerts(o.errors)
    ensures o.Err? ==> forall i :: 0 <= i < |r| ==> !IsNavigation(r[i])
  {
    FormSubmission(Send(Put, "/api/profile/education", formData), UpdateProfile, "Education Added", o)
  }

  /** The removal of an entry: UPDATE_PROFILE with the body and a success
      alert, or PROFILE_ERROR; the server's error messages are not shown. */
  function Removal(request: Effect, success: string, o: Outcome): (r: seq<Effect>)
    ensures |r| >= 2 && r[0] == request
    ensures o.Ok? ==> r[1..] == [Dispatch(Action(UpdateProfile, o.data)), Alert(success, "success", AlertTimeout)]
    ensures o.Err? ==> r[1..] == [Failure(o)]
  {
    match o
    case Ok(data) => [request, Dispatch(Action(UpdateProfile, data)), Alert(success, "success", AlertTimeout)]
    case Err(_, _, _) => [request, Failure(o)]
  }

  /** `deleteExperience(id)`. */
  function DeleteExperience(id: string, o: Outcome): (r: seq<Effect>)
    ensures |r| >= 2 && r[0] == Send(Delete, "/api/profile/experience/" + id, JNull)
    ensures o.Ok? ==> r[1..] == [Dispatch(Action(UpdateProfile, o.data)), Alert("Experience Removed", "success", AlertTimeout)]
    ensures o.Err? ==> EndsWithProfileError(r, o) && |r| == 2
  {
    Removal(Send(Delete, "/api/profile/experience/" + id, JNull), "Experience Removed", o)
  }

  /** `deleteEducation(id)`. */
  function DeleteEducation(id: string, o: Outcome): (r: seq<Effect>)
    ensures |r| >= 2 && r[0] == Send(Delete, "/api/profile/education/" + id, JNull)
    ensures o.Ok? ==> r[1..] == [Dispatch(Action(UpdateProfile, o.data)), Alert("Education Removed", "success", AlertTimeout)]
    ensures o.Err? ==> EndsWithProfileError(r, o) && |r| == 2
  {
    Removal(Send(Delete, "/api/profile/education/" + id, JNull), "Education Removed", o)
  }

  /** `deleteAccount()`, with the answer to the confirmation prompt. */
  function DeleteAccountThunk(confirmed: bool, o: Outcome): (r: seq<Effect>)
    ensures !confirmed <==> r == []
    ensures confirmed ==> |r| >= 2 && r[0] == Send(Delete, "/api/profile", JNull)
    ensures confirmed && o.Ok? ==>
      r[1..] == [Dispatch(Action(ClearProfile, JNull)), Dispatch(Action(DeleteAccount, JNull)),
                 Alert("ACCOUNT DELETED PERMANANTLY", "success", AlertTimeout)]
    ensures confirmed && o.Err? ==> EndsWithProfileError(r, o) && |r| == 2
  {
    if !confirmed then []
    else
      var request := Send(Delete, "/api/profile", JNull);
      match o
      case Ok(_) =>
        [request, Dispatch(Action(ClearProfile, JNull)), Dispatch(Action(DeleteAccount, JNull)),
         Alert("ACCOUNT DELETED PERMANANTLY", "success", AlertTimeout)]
      case Err(_, _, _) => [request, Failure(o)]
  }

  /** `getAllProfiles()`: CLEAR_PROFILE goes out before the request, whatever
      its outcome. */
  function GetAllProfiles(o: Outcome): (r: seq<Effect>)
    ensures |r| >= 3 && r[0] == Dispatch(Action(ClearProfile, JNull)) && r[1] == Send(Get, "/api/profile", JNull)
    ensures o.Ok? ==> r[2..] == [Dispatch(Action(GetProfiles, o.data))]
    ensures o.Err? ==> EndsWithProfileError(r, o) && |r| == 3
  {
    [Dispatch(Action(ClearProfile, JNull))] + Fetch(Send(Get, "/api/profile", JNull), GetProfiles, o)
  }

  /** `getUserProfileById(userId)`. */
  function GetUserProfileById(userId: string, o: Outcome): (r: seq<Effect>)
    ensures |r| >= 2 && r[0] == Send(Get, "/api/profile/user/" + userId, JNull)
    ensures o.Ok? ==> r[1..] == [Dispatch(Action(GetProfile, o.data))]
    ensures o.Err? ==> EndsWithProfileError(r, o)
  {
    Fetch(Send(Get, "/api/profile/user/" + userId, JNull), GetProfile, o)
  }

  /** `getUserGithub(username)`: GET_REPOS with the body, or a payload-less
      NO_REPOS on any failure. */
  function GetUserGithub(username: string, o: Outcome): (r: seq<Effect>)
    ensures |r| >= 2 && r[0] == Send(Get, "/api/profile/github/" + username, JNull)
    ensures o.Ok? ==> r[1..] == [Dispatch(Action(GetRepos, o.data))]
    ensures o.Err? ==> r[1..] == [Dispatch(Action(NoRepos, JNull))]
    ensures forall i :: 0 <= i < |r| ==> !IsProfileError(r[i])
  {
    match o
    case Ok(_) => Fetch(Send(Get, "/api/profile/github/" + username, JNull), GetRepos, o)
    case Err(_, _, _) => [Send(Get, "/api/profile/github/" + username, JNull), Dispatch(Action(NoRepos, JNull))]
  }

  /** Whether the store refuses a dispatch. `combineReducers` throws when a
      slice reducer returns `undefined`, which this reducer does for
      DELETE_ACCOUNT; the state is then left as it was and the thunk stops. */
  predicate Refused(e: Effect) {
    e.Dispatch? && e.action.kind.DeleteAccount?
  }

  /** No effect of the list is a dispatch the store refuses. */
  predicate Completes(effects: seq<Effect>) {
    forall i :: 0 <= i < |effects| ==> !Refused(effects[i])
  }

  /** What an effect does to the profile slice: a dispatch goes through the
      reducer, an alert reaches it as a SET_ALERT action, and requests and
      navigation leave it alone. `None` is a refused dispatch. */
  function Step(st: State, e: Effect): (r: Option<State>)
    ensures r.None? <==> Refused(e)
  {
    match e
    case Dispatch(a) => Reduce(Some(st), a)
    case Alert(msg, alertType, _) =>
      Reduce(Some(st), Action(SetAlert, JObj(map["msg" := JStr(msg), "alertType" := JStr(alertType)])))
    case _ => Some(st)
  }

  /** The profile slice after the effects, in order, up to the first refused
      dispatch. The error that dispatch throws lands in the thunk's `catch`
      block, which reads `err.response` of an error that has none and throws
      again before doing anything, so nothing after it happens. */
  function Run(st: State, effects: seq<Effect>): (r: State)
    ensures (forall i :: 0 <= i < |effects| ==> !effects[i].Dispatch?) ==> r == st
    ensures |effects| > 0 && Refused(effects[0]) ==> r == st
    decreases |effects|
  {
    if |effects| == 0 then st
    else match Step(st, effects[0])
      case None => st
      case Some(next) => Run(next, effects[1..])
  }

  /** Running two lists of effects one after the other is running their
      concatenation, unless the first stops at a refused dispatch, in which
      case the second never runs. */
  lemma {:induction false} RunAppend(st: State, xs: seq<Effect>, ys: seq<Effect>)
    ensures Completes(xs) ==> Run(st, xs + ys) == Run(Run(st, xs), ys)
    ensures !Completes(xs) ==> Run(st, xs + ys) == Run(st, xs)
    decreases |xs|
  {
    if |xs| > 0 {
      assert (xs + ys)[0] == xs[0];
      assert (xs + ys)[1..] == xs[1..] + ys;
      match Step(st, xs[0])
      case None =>
      case Some(next) =>
        assert Completes(xs) <==> Completes(xs[1..]) by {
          assert forall i :: 1 <= i < |xs| ==> xs[1..][i - 1] == xs[i];
        }
        RunAppend(next, xs[1..], ys);
    } else {
      assert xs + ys == ys;
    }
  }

  /** Alerts, requests and navigation never change the profile slice. */
  lemma {:induction false} AlertsKeepState(st: State, effects: seq<Effect>)
    requires forall i :: 0 <= i < |effects| ==> effects[i].Alert? || effects[i].Send? || effects[i].Navigate?
    ensures Completes(effects) && Run(st, effects) == st
    decreases |effects|
  {
    if |effects| > 0 {
      AlertsKeepState(st, effects[1..]);
    }
  }

  /** The slice once the response body is loaded as the profile. */
  function Loaded(st: State, data: Json): State {
    st.(profile := data, loading := false)
  }

  /** The slice once a failed request is recorded: PROFILE_ERROR with
      `{ msg: statusText, status }`. */
  function Failed(st: State, o: Outcome): State
    requires o.Err?
  {
    st.(error := ErrorPayload(o.status, o.statusText), loading := false, profile := JNull)
  }

  /** A request followed by one dispatch runs to its end with the effect of
      that dispatch alone. */
  lemma RunRequestThenDispatch(st: State, request: Effect, a: Action)
    requires request.Send? && !a.kind.DeleteAccount?
    ensures Run(st, [request, Dispatch(a)]) == Reduce(Some(st), a).value
  {
    var next := Reduce(Some(st), a).value;
    assert [request, Dispatch(a)][1..] == [Dispatch(a)];
    assert Run(st, [request, Dispatch(a)]) == Run(st, [Dispatch(a)]);
    assert [Dispatch(a)][1..] == [];
    assert Run(st, [Dispatch(a)]) == Run(next, []);
  }

  /** `getCurrentProfile()` loads the body as the profile, or records the
      failure. */
  lemma GetCurrentProfileLoads(st: State, o: Outcome)
    ensures Completes(GetCurrentProfile(o))
    ensures Run(st, GetCurrentProfile(o)) == if o.Ok? then Loaded(st, o.data) else Failed(st, o)
  {
    var r := GetCurrentProfile(o);
    RunRequestThenDispatch(st, r[0], r[1].action);
  }

  /** `getUserProfileById(userId)` loads the body as the profile, or records
      the failure. */
  lemma GetUserProfileByIdLoads(st: State, userId: string, o: Outcome)
    ensures Completes(GetUserProfileById(userId, o))
    ensures Run(st, GetUserProfileById(userId, o)) == if o.Ok? then Loaded(st, o.data) else Failed(st, o)
  {
    var r := GetUserProfileById(userId, o);
    RunRequestThenDispatch(st, r[0], r[1].action);
  }

  /** Removing an experience or education entry loads the body as the
      profile, or records the failure. */
  lemma RemovalLoads(st: State, id: string, o: Outcome)
    ensures Run(st, DeleteExperience(id, o)) == if o.Ok? then Loaded(st, o.data) else Failed(st, o)
    ensures Run(st, DeleteEducation(id, o)) == if o.Ok? then Loaded(st, o.data) else Failed(st, o)
  {
    RemovalRun(st, DeleteExperience(id, o), o);
    RemovalRun(st, DeleteEducation(id, o), o);
  }

  lemma RemovalRun(st: State, r: seq<Effect>, o: Outcome)
    requires |r| >= 2 && r[0].Send?
    requires o.Ok? ==> |r| == 3 && r[1] == Dispatch(Action(UpdateProfile, o.data)) && r[2].Alert?
    requires o.Err? ==> |r| == 2 && r[1] == Failure(o)
    ensures Run(st, r) == if o.Ok? then Loaded(st, o.data) else Failed(st, o)
  {
    RunRequestThenDispatch(st, r[0], r[1].action);
    assert r[..2] == [r[0], r[1]];
    assert r == r[..2] + r[2..];
    RunAppend(st, r[..2], r[2..]);
    AlertsKeepState(Run(st, r[..2]), r[2..]);
  }

  /** A successful submission of the profile form stores the response body
      as the loaded profile, whatever its shape. */
  lemma CreateProfileStoresBody(st: State, formData: Json, edit: bool, data: Json)
    ensures Run(st, CreateProfile(formData, edit, Ok(data))) == Loaded(st, data)
  {
    var r := CreateProfile(formData, edit, Ok(data));
    RunRequestThenDispatch(st, r[0], r[1].action);
    assert r[..2] == [r[0], r[1]];
    assert r == r[..2] + r[2..];
    RunAppend(st, r[..2], r[2..]);
    AlertsKeepState(Loaded(st, data), r[2..]);
  }

  /** A successful experience or education addition loads the response body
      as the profile. */
  lemma AddEntryStoresBody(st: State, formData: Json, data: Json)
    ensures Run(st, AddExperience(formData, Ok(data))) == Loaded(st, data)
    ensures Run(st, AddEducation(formData, Ok(data))) == Loaded(st, data)
  {
    var r := AddExperience(formData, Ok(data));
    RunRequestThenDispatch(st, r[0], r[1].action);
    assert r[..2] == [r[0], r[1]];
    assert r == r[..2] + r[2..];
    RunAppend(st, r[..2], r[2..]);
    AlertsKeepState(Loaded(st, data), r[2..]);
    var q := AddEducation(formData, Ok(data));
    RunRequestThenDispatch(st, q[0], q[1].action);
    assert q[..2] == [q[0], q[1]];
    assert q == q[..2] + q[2..];
    RunAppend(st, q[..2], q[2..]);
    AlertsKeepState(Loaded(st, data), q[2..]);
  }

  /** A failed form submission or experience/education addition, whatever
      alerts it raises, leaves the error recorded, no profile and
      nothing loading. */
  lemma FormFailureRecordsError(st: State, r: seq<Effect>, o: Outcome)
    requires o.Err?
    requires |r| >= 2 && r[0].Send? && r[1..|r| - 1] == DangerAlerts(o.errors) && EndsWithProfileError(r, o)
    ensures Run(st, r) == Failed(st, o)
  {
    var n := |r|;
    assert r == r[..n - 1] + [r[n - 1]];
    var init := r[..n - 1];
    forall i | 1 <= i < |init|
      ensures init[i].Alert?
    {
      assert init[i] == r[1..|r| - 1][i - 1];
    }
    AlertsKeepState(st, init);
    RunAppend(st, r[..n - 1], [r[n - 1]]);
    assert [r[n - 1]][1..] == [];
  }

  /** A confirmed and successful account deletion stops at DELETE_ACCOUNT,
      which the store refuses: the profile slice stays as CLEAR_PROFILE left
      it, and the success alert is never raised. */
  lemma DeleteAccountStopsCleared(st: State, data: Json)
    ensures !Completes(DeleteAccountThunk(true, Ok(data)))
    ensures Run(st, DeleteAccountThunk(true, Ok(data))) == st.(profile := JNull, repos := JArr([]), loading := false)
  {
    var r := DeleteAccountThunk(true, Ok(data));
    var cleared := Reduce(Some(st), r[1].action).value;
    assert Refused(r[2]);
    assert Run(st, r) == Run(st, r[1..]);
    assert r[1..][1..] == r[2..];
    assert Run(st, r[1..]) == Run(cleared, r[2..]);
    assert Run(cleared, r[2..]) == cleared;
  }

  /** Looking up GitHub repositories never changes the profile slice: this
      reducer has no case for GET_REPOS or NO_REPOS. */
  lemma GithubKeepsState(st: State, username: string, o: Outcome)
    ensures Run(st, GetUserGithub(username, o)) == st
  {
    var r := GetUserGithub(username, o);
    RunRequestThenDispatch(st, r[0], r[1].action);
  }

  /** After a failed listing the profile and repositories are cleared and the
      error recorded; the previous list of profiles stays. */
  lemma GetAllProfilesFailure(st: State, o: Outcome)
    requires o.Err?
    ensures var after := Run(st, GetAllProfiles(o));
      after.profile == JNull && after.repos == JArr([])
      && after.profiles == st.profiles && after.error == ErrorPayload(o.status, o.statusText)
      && !after.loading
  {
    var r := GetAllProfiles(o);
    var cleared := Reduce(Some(st), r[0].action).value;
    assert Run(st, r) == Run(cleared, r[1..]);
    assert r[1..] == [r[1], r[2]];
    RunRequestThenDispatch(cleared, r[1], r[2].action);
  }
}
