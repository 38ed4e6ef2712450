/** The user (authentication) slice of the front-end store: its state record,
    the two plain reducers and the reducer cases of the user thunks. The HTTP
    calls behind the thunks are not modelled; each thunk is seen only through
    the pending, fulfilled and rejected actions it dispatches. */
module UserSlice {
  import opened Wrappers
  import opened JsValues
  import Text
  import Redux

  /** The user thunks. `GetProfile` is the `getProfile` thunk (type
      "user/getProfile"); `ReadProfile` and `ReadSession` are the `GetProfile`
      ("user/get-profile") and `GetSession` thunks, which have no reducer case. */
  datatype Thunk = Register | Login | Logout | ProfileSetUp | GetProfile | ReadProfile | ReadSession

  datatype Phase = Pending | Fulfilled(payload: Value) | Rejected(payload: Value)

  datatype Action =
    | RemoveErrors
    | RemoveSuccess
    | Run(thunk: Thunk, phase: Phase)

  datatype Status = Idle | Loading | Succeeded | Failed

  /** The four per-action request status fields. */
  datatype StatusKey = RegisterStatus | LoginStatus | LogoutStatus | ProfileStatus

  datatype UserState = UserState(
    success: Value,
    error: Value,
    isAuthenticated: bool,
    message: Value,
    userInfo: Value,
    loading: bool,
    registerStatus: Status,
    loginStatus: Status,
    logoutStatus: Status,
    profileStatus: Status)
  {
    function StatusOf(k: StatusKey): Status
    {
      match k
      case RegisterStatus => registerStatus
      case LoginStatus => loginStatus
      case LogoutStatus => logoutStatus
      case ProfileStatus => profileStatus
    }
  }

  const InitialState := UserState(Bool(false), Null, false, Str(""), Null, false, Idle, Idle, Idle, Idle)

  /** The status field a thunk's cases write, if any. */
  function OwnStatus(t: Thunk): Option<StatusKey>
  {
    match t
    case Register => Some(RegisterStatus)
    case Login => Some(LoginStatus)
    case Logout => Some(LogoutStatus)
    case ProfileSetUp => Some(ProfileStatus)
    case _ => None
  }

  function Owner(a: Action): Option<StatusKey>
  {
    if a.Run? then OwnStatus(a.thunk) else None
  }

  /** The status a thunk's own field takes in each phase. */
  function PhaseStatus(p: Phase): Status
  {
    match p
    case Pending => Loading
    case Fulfilled(_) => Succeeded
    case Rejected(_) => Failed
  }

  /** Thunks that have reducer cases. */
  predicate HasCases(t: Thunk)
  {
    t !in {ReadProfile, ReadSession}
  }

  /** The register and login fulfilled cases read `action.payload.x` without
      optional chaining and throw on a `null` or `undefined` payload; a
      throwing case leaves the store as it was. */
  predicate Throws(a: Action)
  {
    a.Run? && a.thunk in {Register, Login} && a.phase.Fulfilled? && Nullish(a.phase.payload)
  }

  /** `action.payload.error ? String(action.payload.error) : null`. */
  function LoginError(p: Value): Value
  {
    var e := Get(p, "error");
    if Truthy(e) then Str(ToJsString(e)) else Null
  }

  function ReducePending(s: UserState, t: Thunk): UserState
  {
    match t
    case Register => s.(registerStatus := Loading, loading := true, error := Null, success := Bool(false))
    case Login => s.(loginStatus := Loading, loading := true, error := Null)
    case Logout => s.(logoutStatus := Loading, loading := true)
    case ProfileSetUp => s.(profileStatus := Loading, loading := true, error := Null)
    case GetProfile => s.(loading := true)
    case _ => s
  }

  function ReduceFulfilled(s: UserState, t: Thunk, p: Value): UserState
  {
    match t
    case Register =>
      if Nullish(p) then s
      else s.(registerStatus := Succeeded, loading := false, success := Bool(true), isAuthenticated := true,
              userInfo := Coalesce(Get(p, "userInfo"), Null), message := Coalesce(Get(p, "message"), Str("")))
    case Login =>
      if Nullish(p) then s
      else s.(loginStatus := Succeeded, loading := false, success := Get(p, "success"), message := Get(p, "message"),
              userInfo := Coalesce(Get(p, "userInfo"), Null), isAuthenticated := Truthy(Get(p, "userInfo")),
              error := LoginError(p))
    case Logout =>
      s.(logoutStatus := Succeeded, loading := false, success := Bool(true), isAuthenticated := false,
         userInfo := Null, message := Str("Logout successful"))
    case ProfileSetUp =>
      s.(profileStatus := Succeeded, loading := false, userInfo := p, message := Str("Profile updated successfully"))
    case GetProfile =>
      s.(loading := false, userInfo := p, isAuthenticated := Truthy(p))
    case _ => s
  }

  function ReduceRejected(s: UserState, t: Thunk, p: Value): UserState
  {
    match t
    case Register =>
      s.(registerStatus := Failed, loading := false, success := Bool(false), error := Coalesce(p, Str("Registration failed")))
    case Login =>
      s.(loginStatus := Failed, loading := false, success := Bool(false), userInfo := Null, isAuthenticated := false,
         error := Coalesce(p, Str("Login failed")))
    case Logout =>
      s.(logoutStatus := Failed, loading := false, isAuthenticated := false, userInfo := Null,
         error := Coalesce(p, Str("Logout failed")))
    case ProfileSetUp =>
      s.(profileStatus := Failed, loading := false, error := Coalesce(p, Str("Profile setup failed")),
         message := Str("Profile setup failed"))
    case GetProfile =>
      s.(loading := false, userInfo := Null, isAuthenticated := false, error := Coalesce(p, Str("Failed to fetch profile")))
    case _ => s
  }

  /** The slice reducer. */
  function Reduce(s: UserState, a: Action): (r: UserState)
    // plain reducers
    ensures a.RemoveErrors? ==> r == s.(error := Null)
    ensures a.RemoveSuccess? ==> r == s.(success := Bool(false), message := Str(""))
    // thunks without cases, and throwing cases, change nothing
    ensures (a.Run? && !HasCases(a.thunk)) || Throws(a) ==> r == s
    // loading is on while a request is pending and off once it has settled
    ensures a.Run? && HasCases(a.thunk) && a.phase.Pending? ==> r.loading
    ensures a.Run? && HasCases(a.thunk) && !a.phase.Pending? && !Throws(a) ==> !r.loading
    // each status field is written only by its own thunk, with the phase's status
    ensures forall k :: Some(k) != Owner(a) ==> r.StatusOf(k) == s.StatusOf(k)
    ensures a.Run? && OwnStatus(a.thunk).Some? && !Throws(a) ==>
              r.StatusOf(OwnStatus(a.thunk).value) == PhaseStatus(a.phase)
    // registration authenticates even when no user info came back
    ensures a.Run? && a.thunk == Register && a.phase.Fulfilled? && !Throws(a) ==>
              r.isAuthenticated && r.userInfo == Coalesce(Get(a.phase.payload, "userInfo"), Null)
    // login and profile fetch authenticate exactly when the stored user info is truthy
    ensures a.Run? && a.thunk in {Login, GetProfile} && a.phase.Fulfilled? && !Throws(a) ==>
              r.isAuthenticated == Truthy(r.userInfo)
    ensures a.Run? && a.thunk == Login && a.phase.Rejected? ==>
              && r.userInfo == Null && !r.isAuthenticated
              && r.error == Coalesce(a.phase.payload, Str("Login failed"))
    // logout always ends unauthenticated without user info; only its rejection sets the error
    ensures a.Run? && a.thunk == Logout && !a.phase.Pending? ==> !r.isAuthenticated && r.userInfo == Null
    ensures a.Run? && a.thunk == Logout && !a.phase.Rejected? ==> r.error == s.error
    ensures a.Run? && a.thunk == Logout && a.phase.Rejected? ==>
              r.error == Coalesce(a.phase.payload, Str("Logout failed"))
    // profile set-up stores the payload but leaves the authentication flag alone
    ensures a.Run? && a.thunk == ProfileSetUp ==> r.isAuthenticated == s.isAuthenticated
    ensures a.Run? && a.thunk == ProfileSetUp && a.phase.Fulfilled? ==> r.userInfo == a.phase.payload
  {
    match a
    case RemoveErrors => s.(error := Null)
    case RemoveSuccess => s.(success := Bool(false), message := Str(""))
    case Run(t, Pending) => ReducePending(s, t)
    case Run(t, Fulfilled(p)) => ReduceFulfilled(s, t, p)
    case Run(t, Rejected(p)) => ReduceRejected(s, t, p)
  }

  // Action types

  /** The slice's `name`: the first part of its own reducers' types. */
  const SliceName := "user"

  /** The type prefix each thunk was created with; every one is "user/"
      followed by the thunk's own name. */
  function ThunkType(t: Thunk): string
  {
    Redux.TypeName(SliceName, ThunkName(t))
  }

  function ThunkName(t: Thunk): string
  {
    match t
    case Register => "register"
    case Login => "login"
    case Logout => "logout"
    case GetProfile => "getProfile"
    case ProfileSetUp => "profileSetUp"
    case ReadProfile => "get-profile"
    case ReadSession => "get-session"
  }

  lemma ThunkTypeInjective(t: Thunk, u: Thunk)
    requires ThunkType(t) == ThunkType(u)
    ensures t == u
  {
    Redux.TypeNameCancel(SliceName, ThunkName(t), ThunkName(u));
  }

  function PhaseName(p: Phase): string
  {
    match p
    case Pending => Redux.PendingName
    case Fulfilled(_) => Redux.FulfilledName
    case Rejected(_) => Redux.RejectedName
  }

  /** The payload a phase's action carries: `undefined` while pending. */
  function PhasePayload(p: Phase): Value
  {
    match p
    case Pending => Undefined
    case Fulfilled(v) => v
    case Rejected(v) => v
  }

  /** The object an action creator builds: `removeErrors()`, `removeSuccess()`,
      or one of the three actions a thunk dispatches. */
  function ToObject(a: Action): Redux.ActionObject
  {
    match a
    case RemoveErrors => Redux.ActionObject(Redux.TypeName(SliceName, "removeErrors"), Undefined)
    case RemoveSuccess => Redux.ActionObject(Redux.TypeName(SliceName, "removeSuccess"), Undefined)
    case Run(t, p) => Redux.ActionObject(Redux.TypeName(ThunkType(t), PhaseName(p)), PhasePayload(p))
  }

  const Thunks := [Register, Login, Logout, GetProfile, ProfileSetUp, ReadProfile, ReadSession]

  /** The slice's case lookup: which of its actions a dispatched object is, by
      its type alone. */
  function Decode(o: Redux.ActionObject): Option<Action>
  {
    if o.actionType == Redux.TypeName(SliceName, "removeErrors") then Some(RemoveErrors)
    else if o.actionType == Redux.TypeName(SliceName, "removeSuccess") then Some(RemoveSuccess)
    else DecodeRun(o, Thunks)
  }

  function DecodeRun(o: Redux.ActionObject, ts: seq<Thunk>): Option<Action>
    decreases |ts|
  {
    if ts == [] then None
    else if o.actionType == Redux.TypeName(ThunkType(ts[0]), Redux.PendingName) then Some(Run(ts[0], Pending))
    else if o.actionType == Redux.TypeName(ThunkType(ts[0]), Redux.FulfilledName) then Some(Run(ts[0], Fulfilled(o.payload)))
    else if o.actionType == Redux.TypeName(ThunkType(ts[0]), Redux.RejectedName) then Some(Run(ts[0], Rejected(o.payload)))
    else DecodeRun(o, ts[1..])
  }

  /** The slice reducer as the store calls it, on any dispatched object: a type
      the slice has no case for leaves its state as it is. */
  function ReduceObject(s: UserState, o: Redux.ActionObject): UserState
  {
    match Decode(o)
    case None => s
    case Some(a) => Reduce(s, a)
  }

  /** Every type the slice has a case for starts with "user/". */
  lemma {:induction false} DecodeRunOwnPrefix(o: Redux.ActionObject, ts: seq<Thunk>)
    requires DecodeRun(o, ts).Some?
    ensures Text.StartsWith(o.actionType, SliceName + "/")
    decreases |ts|
  {
    var t := ts[0];
    Redux.TypeNameHead(SliceName, ThunkName(t));
    Redux.TypeNameStartsWith(ThunkType(t), Redux.PendingName, SliceName + "/");
    Redux.TypeNameStartsWith(ThunkType(t), Redux.FulfilledName, SliceName + "/");
    Redux.TypeNameStartsWith(ThunkType(t), Redux.RejectedName, SliceName + "/");
    if DecodeRun(o, ts) == DecodeRun(o, ts[1..]) {
      DecodeRunOwnPrefix(o, ts[1..]);
    }
  }

  /** Every type the slice has a case for starts with the slice's name and "/". */
  lemma DecodeOwnPrefix(o: Redux.ActionObject)
    requires Decode(o).Some?
    ensures Text.StartsWith(o.actionType, SliceName + "/")
  {
    Redux.TypeNameHead(SliceName, "removeErrors");
    Redux.TypeNameHead(SliceName, "removeSuccess");
    if DecodeRun(o, Thunks).Some? {
      DecodeRunOwnPrefix(o, Thunks);
    }
  }

  /** An object whose type does not start with the slice's name and "/" (an
      action of another slice) leaves the user state unchanged. */
  lemma ForeignTypeIgnored(s: UserState, o: Redux.ActionObject)
    requires !Text.StartsWith(o.actionType, SliceName + "/")
    ensures ReduceObject(s, o) == s
  {
    if Decode(o).Some? {
      DecodeOwnPrefix(o);
    }
  }

  /** A thunk's action is found under its own thunk and phase. */
  lemma {:induction false} DecodeRunFinds(t: Thunk, p: Phase, ts: seq<Thunk>)
    requires t in ts
    ensures DecodeRun(ToObject(Run(t, p)), ts) == Some(Run(t, p))
    decreases |ts|
  {
    var o := ToObject(Run(t, p));
    var u := ts[0];
    PhaseNameSlashFree(p);
    forall name | name in {Redux.PendingName, Redux.FulfilledName, Redux.RejectedName} &&
                  o.actionType == Redux.TypeName(ThunkType(u), name)
      ensures u == t && name == PhaseName(p)
    {
      Redux.TypeNameInjective(ThunkType(u), name, ThunkType(t), PhaseName(p));
      ThunkTypeInjective(u, t);
    }
    if u != t {
      DecodeRunFinds(t, p, ts[1..]);
    }
  }

  /** A thunk's type is not one of the plain reducers' types. */
  lemma RunTypeNotPlain(t: Thunk, p: Phase, name: string)
    requires name == "removeErrors" || name == "removeSuccess"
    ensures ToObject(Run(t, p)).actionType != Redux.TypeName(SliceName, name)
  {
    if ToObject(Run(t, p)).actionType == Redux.TypeName(SliceName, name) {
      PhaseNameSlashFree(p);
      Redux.TypeNameInjective(SliceName, name, ThunkType(t), PhaseName(p));
    }
  }

  lemma PhaseNameSlashFree(p: Phase)
    ensures '/' !in PhaseName(p)
  {
  }

  /** Decoding the object an action creator builds gives back the action. */
  lemma DecodeToObject(a: Action)
    ensures Decode(ToObject(a)) == Some(a)
  {
    match a
    case RemoveErrors =>
    case RemoveSuccess =>
      if Redux.TypeName(SliceName, "removeSuccess") == Redux.TypeName(SliceName, "removeErrors") {
        Redux.TypeNameCancel(SliceName, "removeSuccess", "removeErrors");
      }
    case Run(t, p) =>
      RunTypeNotPlain(t, p, "removeErrors");
      RunTypeNotPlain(t, p, "removeSuccess");
      DecodeRunFinds(t, p, Thunks);
  }

  /** Every action creator's type starts with the slice's name and "/". */
  lemma ToObjectOwnPrefix(a: Action)
    ensures Text.StartsWith(ToObject(a).actionType, SliceName + "/")
  {
    DecodeToObject(a);
    DecodeOwnPrefix(ToObject(a));
  }

  /** Dispatching an action creator's object runs the slice reducer on it. */
  lemma DispatchedObjectReduced(s: UserState, a: Action)
    ensures ReduceObject(s, ToObject(a)) == Reduce(s, a)
  {
    DecodeToObject(a);
  }

  /** The store after dispatching `actions` in order, starting from `s`. */
  function Replay(s: UserState, actions: seq<Action>): UserState
    decreases |actions|
  {
    if actions == [] then s else Replay(Reduce(s, actions[0]), actions[1..])
  }

  /** A status field keeps its value as long as none of its own thunk's actions
      is dispatched; from the initial store it stays "idle". */
  lemma {:induction false} StatusUntouchedByOthers(s: UserState, actions: seq<Action>, k: StatusKey)
    requires forall i :: 0 <= i < |actions| ==> Owner(actions[i]) != Some(k)
    ensures Replay(s, actions).StatusOf(k) == s.StatusOf(k)
    decreases |actions|
  {
    if actions != [] {
      StatusUntouchedByOthers(Reduce(s, actions[0]), actions[1..], k);
    }
  }

  /** The fulfilled actions that can set the authentication flag. */
  predicate Authenticates(a: Action)
  {
    a.Run? && a.thunk in {Register, Login, GetProfile} && a.phase.Fulfilled?
  }

  /** An unauthenticated store stays unauthenticated until a registration, a
      login or a profile fetch is fulfilled. */
  lemma {:induction false} NoAuthenticationWithoutFulfilled(s: UserState, actions: seq<Action>)
    requires !s.isAuthenticated
    requires forall i :: 0 <= i < |actions| ==> !Authenticates(actions[i])
    ensures !Replay(s, actions).isAuthenticated
    decreases |actions|
  {
    if actions != [] {
      NoAuthenticationWithoutFulfilled(Reduce(s, actions[0]), actions[1..]);
    }
  }

  /** A registration response without user info still authenticates. */
  lemma RegisterWithoutUserInfo(s: UserState)
    ensures var r := Reduce(s, Run(Register, Fulfilled(Obj(map[]))));
            r.isAuthenticated && r.userInfo == Null
  {
  }

  /** For login, "authenticated" and "user info stored" agree when the payload's
      user info is an object or absent; a falsy non-null user info such as ""
      is stored but does not authenticate. */
  lemma LoginAuthenticatedIffUserInfo(s: UserState, p: Value)
    requires !Nullish(p)
    requires Get(p, "userInfo").Obj? || Nullish(Get(p, "userInfo"))
    ensures var r := Reduce(s, Run(Login, Fulfilled(p)));
            r.isAuthenticated <==> r.userInfo != Null
  {
  }

  lemma LoginFalsyUserInfo(s: UserState)
    ensures var r := Reduce(s, Run(Login, Fulfilled(Obj(map["userInfo" := Str("")]))));
            r.userInfo == Str("") && !r.isAuthenticated
  {
  }

  /** The slice as the store holds it: one mutable record whose fields each
      case handler overwrites in place. */
  class UserStore {
    var success: Value
    var error: Value
    var isAuthenticated: bool
    var message: Value
    var userInfo: Value
    var loading: bool
    var registerStatus: Status
    var loginStatus: Status
    var logoutStatus: Status
    var profileStatus: Status

    function Snapshot(): UserState
      reads this
    {
      UserState(success, error, isAuthenticated, message, userInfo, loading,
                registerStatus, loginStatus, logoutStatus, profileStatus)
    }

    constructor ()
      ensures Snapshot() == InitialState
    {
      success, error, isAuthenticated, message, userInfo, loading := Bool(false), Null, false, Str(""), Null, false;
      registerStatus, loginStatus, logoutStatus, profileStatus := Idle, Idle, Idle, Idle;
    }

    method RemoveErrorsCase()
      modifies this
      ensures Snapshot() == Reduce(old(Snapshot()), RemoveErrors)
    {
      error := Null;
    }

    method RemoveSuccessCase()
      modifies this
      ensures Snapshot() == Reduce(old(Snapshot()), RemoveSuccess)
    {
      success := Bool(false);
      message := Str("");
    }

    method PendingCase(t: Thunk)
      modifies this
      ensures Snapshot() == ReducePending(old(Snapshot()), t)
    {
      match t
      case Register =>
        registerStatus := Loading;
        loading := true;
        error := Null;
        success := Bool(false);
      case Login =>
        loginStatus := Loading;
        loading := true;
        error := Null;
      case Logout =>
        logoutStatus := Loading;
        loading := true;
      case ProfileSetUp =>
        profileStatus := Loading;
        loading := true;
        error := Null;
      case GetProfile =>
        loading := true;
      case _ =>
    }

    /** Returns whether the case threw, in which case no field was written. */
    method FulfilledCase(t: Thunk, payload: Value) returns (threw: bool)
      modifies this
      ensures threw == Throws(Run(t, Fulfilled(payload)))
      ensures Snapshot() == ReduceFulfilled(old(Snapshot()), t, payload)
    {
      threw := false;
      match t
      case Register =>
        threw := Nullish(payload);
        if !threw {
          registerStatus := Succeeded;
          loading := false;
          success := Bool(true);
          isAuthenticated := true;
          userInfo := Coalesce(Get(payload, "userInfo"), Null);
          message := Coalesce(Get(payload, "message"), Str(""));
        }
      case Login =>
        threw := Nullish(payload);
        if !threw {
          loginStatus := Succeeded;
          loading := false;
          success := Get(payload, "success");
          message := Get(payload, "message");
          userInfo := Coalesce(Get(payload, "userInfo"), Null);
          isAuthenticated := Truthy(Get(payload, "userInfo"));
          error := LoginError(payload);
        }
      case Logout =>
        logoutStatus := Succeeded;
        loading := false;
        success := Bool(true);
        isAuthenticated := false;
        userInfo := Null;
        message := Str("Logout successful");
      case ProfileSetUp =>
        profileStatus := Succeeded;
        loading := false;
        userInfo := payload;
        message := Str("Profile updated successfully");
      case GetProfile =>
        loading := false;
        userInfo := payload;
        isAuthenticated := Truthy(payload);
      case _ =>
    }

    method RejectedCase(t: Thunk, payload: Value)
      modifies this
      ensures Snapshot() == ReduceRejected(old(Snapshot()), t, payload)
    {
      match t
      case Register =>
        registerStatus := Failed;
        loading := false;
        success := Bool(false);
        error := Coalesce(payload, Str("Registration failed"));
      case Login =>
        loginStatus := Failed;
        loading := false;
        success := Bool(false);
        userInfo := Null;
        isAuthenticated := false;
        error := Coalesce(payload, Str("Login failed"));
      case Logout =>
        logoutStatus := Failed;
        loading := false;
        isAuthenticated := false;
        userInfo := Null;
        error := Coalesce(payload, Str("Logout failed"));
      case ProfileSetUp =>
        profileStatus := Failed;
        loading := false;
        error := Coalesce(payload, Str("Profile setup failed"));
        message := Str("Profile setup failed");
      case GetProfile =>
        loading := false;
        userInfo := Null;
        isAuthenticated := false;
        error := Coalesce(payload, Str("Failed to fetch profile"));
      case _ =>
    }

    /** The slice reducer as the store runs it on each dispatched action. */
    method Dispatch(a: Action) returns (threw: bool)
      modifies this
      ensures threw == Throws(a)
      ensures Snapshot() == Reduce(old(Snapshot()), a)
    {
      threw := false;
      match a
      case RemoveErrors => RemoveErrorsCase();
      case RemoveSuccess => RemoveSuccessCase();
      case Run(t, Pending) => PendingCase(t);
      case Run(t, Fulfilled(p)) => threw := FulfilledCase(t, p);
      case Run(t, Rejected(p)) => RejectedCase(t, p);
    }
  }
}
