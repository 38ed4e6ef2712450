/** The application store: `combineReducers` puts the user and resume slices
    under their own keys and hands every dispatched object to both slice
    reducers. Each slice only has cases for types that start with its own
    name, so an action of one slice passes through the other unchanged. */
module RootStore {
  import Text
  import Redux
  import UserSlice
  import ServiceSlice

  datatype RootState = RootState(user: UserSlice.UserState, resume: ServiceSlice.ResumeState)

  const InitialState := RootState(UserSlice.InitialState, ServiceSlice.InitialState)

  /** The combined reducer: both slice reducers see every object. */
  function Reduce(st: RootState, o: Redux.ActionObject): RootState
  {
    RootState(UserSlice.ReduceObject(st.user, o), ServiceSlice.ReduceObject(st.resume, o))
  }

  /** No type starts with both slices' names. */
  lemma PrefixesDisjoint(t: string)
    ensures !(Text.StartsWith(t, UserSlice.SliceName + "/") && Text.StartsWith(t, ServiceSlice.SliceName + "/"))
  {
    if Text.StartsWith(t, UserSlice.SliceName + "/") {
      assert t[0] == 'u';
    }
  }

  /** A user action is reduced by the user slice and leaves the resume slice
      as it was. */
  lemma UserActionIsolated(st: RootState, a: UserSlice.Action)
    ensures Reduce(st, UserSlice.ToObject(a)) == RootState(UserSlice.Reduce(st.user, a), st.resume)
  {
    var o := UserSlice.ToObject(a);
    UserSlice.DispatchedObjectReduced(st.user, a);
    UserSlice.ToObjectOwnPrefix(a);
    PrefixesDisjoint(o.actionType);
    ServiceSlice.ForeignTypeIgnored(st.resume, o);
  }

  /** A resume action is reduced by the resume slice and leaves the user slice
      as it was. */
  lemma ResumeActionIsolated(st: RootState, a: ServiceSlice.Action)
    ensures Reduce(st, ServiceSlice.ToObject(a)) == RootState(st.user, ServiceSlice.Reduce(st.resume, a))
  {
    var o := ServiceSlice.ToObject(a);
    ServiceSlice.DispatchedObjectReduced(st.resume, a);
    ServiceSlice.ToObjectOwnPrefix(a);
    PrefixesDisjoint(o.actionType);
    UserSlice.ForeignTypeIgnored(st.user, o);
  }
}
