/** The profile slice of the client store (`client/src/redux/reducers/profile.js`).
    The reducer's state argument is `Option<State>`: `None` is `undefined`,
    for which the default parameter substitutes the initial state, and it is
    also what the DELETE_ACCOUNT branch returns. */
module ProfileReducer {
  import opened Wrappers
  import opened Js

  datatype State = State(profile: Json, profiles: Json, repos: Json, loading: bool, error: Json)

  /** `initialState`. */
  const Initial := State(JNull, JArr([]), JArr([]), true, JObj(map[]))

  /** The action types the client dispatches; every reducer sees all of them. */
  datatype ActionType =
    | GetProfile | UpdateProfile | ProfileError | ClearProfile | DeleteAccount
    | GetProfiles | GetRepos | NoRepos | SetAlert
    | OtherType(name: string)

  /** `{ type, payload }`; a missing payload is `JNull`. */
  datatype Action = Action(kind: ActionType, payload: Json)

  /** The action types this reducer has a case for. */
  predicate Handled(t: ActionType) {
    t.GetProfile? || t.UpdateProfile? || t.ProfileError? || t.ClearProfile? || t.DeleteAccount? || t.GetProfiles?
  }

  /** The reducer. */
  function Reduce(state: Option<State>, a: Action): (r: Option<State>)
    ensures r.None? <==> a.kind.DeleteAccount?
    ensures r.Some? && Handled(a.kind) ==> !r.value.loading
    ensures !Handled(a.kind) ==> r == Some(state.GetOr(Initial))
    ensures (a.kind.GetProfile? || a.kind.UpdateProfile?) ==>
      var st := state.GetOr(Initial);
      r.Some? && r.value.profile == a.payload
      && r.value.profiles == st.profiles && r.value.repos == st.repos && r.value.error == st.error
    ensures a.kind.ProfileError? ==>
      var st := state.GetOr(Initial);
      r.Some? && r.value.error == a.payload && r.value.profile == JNull
      && r.value.profiles == st.profiles && r.value.repos == st.repos
    ensures a.kind.ClearProfile? ==>
      var st := state.GetOr(Initial);
      r.Some? && r.value.profile == JNull && r.value.repos == JArr([])
      && r.value.profiles == st.profiles && r.value.error == st.error
    ensures a.kind.GetProfiles? ==>
      var st := state.GetOr(Initial);
      r.Some? && r.value.profiles == a.payload
      && r.value.profile == st.profile && r.value.repos == st.repos && r.value.error == st.error
  {
    var st := state.GetOr(Initial);
    match a.kind
    case GetProfile => Some(st.(profile := a.payload, loading := false))
    case UpdateProfile => Some(st.(profile := a.payload, loading := false))
    case ProfileError => Some(st.(error := a.payload, loading := false, profile := JNull))
    case ClearProfile => Some(st.(profile := JNull, repos := JArr([]), loading := false))
    case DeleteAccount => None
    case GetProfiles => Some(st.(profiles := a.payload, loading := false))
    case _ => Some(st)
  }

  /** A second CLEAR_PROFILE changes nothing. */
  lemma ClearProfileIdempotent(state: Option<State>, payload1: Json, payload2: Json)
    ensures var once := Reduce(state, Action(ClearProfile, payload1));
      Reduce(once, Action(ClearProfile, payload2)) == once
  {
  }

  /** As a function, the reducer applied to its own DELETE_ACCOUNT result
      behaves as it does on a fresh store. The store itself never keeps that
      result: it refuses the dispatch (see `ProfileActions.Refused`). */
  lemma DeleteAccountForgets(state: Option<State>, payload: Json, next: Action)
    ensures Reduce(Reduce(state, Action(DeleteAccount, payload)), next) == Reduce(None, next)
  {
  }
}
