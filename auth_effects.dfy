/** The two effects the registration and login pages run on the user slice:
    clearing an error once it has been shown, and clearing a success once it
    has been acted on. Both pages take their clearing actions from the resume
    slice, whose types start with "resume/", so the user slice has no case
    for what they dispatch. The
    `AsWritten` members model that; the others model the user slice's own
    clearing actions, which the pages evidently meant. */
module AuthEffects {
  import opened Wrappers
  import opened JsValues
  import UserSlice
  import ServiceSlice
  import Redux
  import opened RootStore

  /** The error effect as written: a truthy user error makes the page dispatch
      the resume slice's `removeErrors`. */
  function ErrorEffectAsWritten(error: Value): (r: Option<Redux.ActionObject>)
    ensures r.Some? <==> Truthy(error)
    ensures r.Some? ==> r.value == ServiceSlice.ToObject(ServiceSlice.RemoveErrors)
  {
    if Truthy(error) then Some(ServiceSlice.ToObject(ServiceSlice.RemoveErrors)) else None
  }

  /** As written, the user error that was just shown stays in the store. */
  lemma ErrorEffectAsWrittenKeepsUserError(st: RootState)
    requires Truthy(st.user.error)
    ensures RootStore.Reduce(st, ErrorEffectAsWritten(st.user.error).value).user.error == st.user.error
  {
    ResumeActionIsolated(st, ServiceSlice.RemoveErrors);
  }

  /** The error effect as intended: the user slice's own `removeErrors`. */
  function ErrorEffect(error: Value): (r: Option<Redux.ActionObject>)
    ensures r.Some? <==> Truthy(error)
    ensures r.Some? ==> r.value == UserSlice.ToObject(UserSlice.RemoveErrors)
  {
    if Truthy(error) then Some(UserSlice.ToObject(UserSlice.RemoveErrors)) else None
  }

  /** As intended, the shown error is cleared and nothing else changes. */
  lemma ErrorEffectClearsUserError(st: RootState)
    requires Truthy(st.user.error)
    ensures var r := RootStore.Reduce(st, ErrorEffect(st.user.error).value);
            r.user == st.user.(error := Null) && r.resume == st.resume
  {
    UserActionIsolated(st, UserSlice.RemoveErrors);
  }

  /** The registration page's success effect as written: a truthy user
      `success` makes the page dispatch the resume slice's `removeSuccess`. */
  function RegisterSuccessEffectAsWritten(success: Value): (r: Option<Redux.ActionObject>)
    ensures r.Some? <==> Truthy(success)
    ensures r.Some? ==> r.value == ServiceSlice.ToObject(ServiceSlice.RemoveSuccess)
  {
    if Truthy(success) then Some(ServiceSlice.ToObject(ServiceSlice.RemoveSuccess)) else None
  }

  /** As written, the user `success` flag stays set, so the effect's condition
      still holds the next time the page is mounted. */
  lemma RegisterSuccessAsWrittenStaysSet(st: RootState)
    requires Truthy(st.user.success)
    ensures var r := RootStore.Reduce(st, RegisterSuccessEffectAsWritten(st.user.success).value);
            Truthy(r.user.success) && RegisterSuccessEffectAsWritten(r.user.success).Some?
  {
    ResumeActionIsolated(st, ServiceSlice.RemoveSuccess);
  }

  function RegisterSuccessEffect(success: Value): (r: Option<Redux.ActionObject>)
    ensures r.Some? <==> Truthy(success)
    ensures r.Some? ==> r.value == UserSlice.ToObject(UserSlice.RemoveSuccess)
  {
    if Truthy(success) then Some(UserSlice.ToObject(UserSlice.RemoveSuccess)) else None
  }

  /** As intended, the flag is cleared and the effect does not fire again. */
  lemma RegisterSuccessEffectFiresOnce(st: RootState)
    requires Truthy(st.user.success)
    ensures var r := RootStore.Reduce(st, RegisterSuccessEffect(st.user.success).value);
            !Truthy(r.user.success) && RegisterSuccessEffect(r.user.success).None?
  {
    UserActionIsolated(st, UserSlice.RemoveSuccess);
  }

  /** A registration the server refuses leaves its error in the store after
      the page has shown it and dispatched its clearing action. */
  lemma RejectedRegistrationErrorIsStale(st: RootState, reason: string)
    requires reason != ""
    ensures var failed := RootStore.Reduce(st, UserSlice.ToObject(UserSlice.Run(UserSlice.Register, UserSlice.Rejected(Str(reason)))));
            && failed.user.error == Str(reason)
            && RootStore.Reduce(failed, ErrorEffectAsWritten(failed.user.error).value).user.error == Str(reason)
  {
    UserActionIsolated(st, UserSlice.Run(UserSlice.Register, UserSlice.Rejected(Str(reason))));
    var failed := RootStore.Reduce(st, UserSlice.ToObject(UserSlice.Run(UserSlice.Register, UserSlice.Rejected(Str(reason)))));
    ResumeActionIsolated(failed, ServiceSlice.RemoveErrors);
  }
}
