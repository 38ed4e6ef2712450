/** The resume slice of the front-end store: its state record, the two plain
    reducers and the pending/fulfilled/rejected cases of the six resume thunks.
    The HTTP calls behind the thunks are not modelled; each thunk is seen only
    through the three actions it dispatches. */
module ServiceSlice {
  import opened Wrappers
  import opened JsValues
  import Text
  import Redux

  /** The six resume thunks. */
  datatype Thunk = Create | Fetch | FetchSingle | Delete | Pdf | Word

  /** The three actions a thunk dispatches; the payload of a rejection is the
      value given to `rejectWithValue`, or `undefined`. */
  datatype Phase = Pending | Fulfilled(payload: Value) | Rejected(payload: Value)

  datatype Action =
    | RemoveErrors
    | RemoveSuccess
    | Run(thunk: Thunk, phase: Phase)

  datatype ResumeState = ResumeState(
    success: Value,
    error: Value,
    message: Value,
    resumeInfo: Value,
    loading: bool)

  const InitialState := ResumeState(Bool(false), Null, Str(""), Null, false)

  /** The fixed error text each rejected case stores. */
  function RejectedError(t: Thunk): string
  {
    match t
    case Create => "Error occured!"
    case Fetch => "Failed to fetch CV's"
    case FetchSingle => "Something went wrong with fetching single id"
    case Delete => "An error occured deleting the document"
    case Pdf => "An Error occured generating the pdf"
    case Word => ""
  }

  /** The message stored when a fulfilled payload carries no truthy message. */
  function DefaultMessage(t: Thunk): string
  {
    match t
    case Create => "Resume created successfully"
    case Fetch => "All CV's fetched!"
    case FetchSingle => "Fetch cv "
    case Delete => "Document deleted successfully"
    case Pdf => "Pdf generated successfully!"
    case Word => ""
  }

  /** `action.payload?.resumeInfo || null`. */
  function PayloadResumeInfo(p: Value): Value
  {
    Or(Get(p, "resumeInfo"), Null)
  }

  /** The reducer throws instead of returning: `createResume.fulfilled` reads
      `action.payload.resumeInfo` without optional chaining. A throwing case
      leaves the store as it was. */
  predicate Throws(a: Action)
  {
    a.Run? && a.thunk == Create && a.phase.Fulfilled? && Nullish(a.phase.payload)
  }

  function ReduceFulfilled(s: ResumeState, t: Thunk, p: Value): ResumeState
  {
    match t
    case Create =>
      if Nullish(p) then s
      else ResumeState(Get(p, "success"), Null, Or(Get(p, "message"), Str(DefaultMessage(Create))), PayloadResumeInfo(p), false)
    case Fetch =>
      ResumeState(Bool(true), Null, Or(Get(p, "message"), Str(DefaultMessage(Fetch))), PayloadResumeInfo(p), false)
    case FetchSingle =>
      ResumeState(Bool(true), Null, Or(Get(p, "message"), Str(DefaultMessage(FetchSingle))), PayloadResumeInfo(p), false)
    case Delete =>
      ResumeState(Bool(true), Null, Or(Get(p, "message"), Str(DefaultMessage(Delete))), PayloadResumeInfo(p), true)
    case Pdf =>
      ResumeState(Bool(true), Null, Str(DefaultMessage(Pdf)), p, false)
    case Word =>
      s
  }

  /** The slice reducer, case by case as the slice builder registers them. */
  function Reduce(s: ResumeState, a: Action): (r: ResumeState)
    // the plain reducers each touch one field
    ensures a.RemoveErrors? ==> r == s.(error := Null)
    ensures a.RemoveSuccess? ==> r == s.(success := Bool(false))
    // pending: loading on, error cleared, the data fields untouched
    ensures a.Run? && a.phase.Pending? && a.thunk in {Create, Fetch, FetchSingle, Pdf} ==>
              r == s.(loading := true, error := Null)
    // every rejected case: loading off, its own fixed error, nothing else
    ensures a.Run? && a.phase.Rejected? && a.thunk != Word ==>
              r == s.(loading := false, error := Str(RejectedError(a.thunk)))
    // the list and single fetches replace the data wholesale, whatever was there
    ensures a.Run? && a.phase.Fulfilled? && a.thunk in {Fetch, FetchSingle} ==>
              && r.resumeInfo == PayloadResumeInfo(a.phase.payload)
              && r.success == Bool(true) && r.error == Null && !r.loading
              && r.message == Or(Get(a.phase.payload, "message"), Str(DefaultMessage(a.thunk)))
    // creation copies the payload's own success flag
    ensures a.Run? && a.phase.Fulfilled? && a.thunk == Create && !Throws(a) ==>
              && r.success == Get(a.phase.payload, "success")
              && r.message == Or(Get(a.phase.payload, "message"), Str("Resume created successfully"))
              && r.resumeInfo == PayloadResumeInfo(a.phase.payload)
              && r.error == Null && !r.loading
    // deletion has its loading flag the other way round
    ensures a.Run? && a.thunk == Delete && a.phase.Pending? ==> r == s.(loading := false, error := Null)
    ensures a.Run? && a.thunk == Delete && a.phase.Fulfilled? ==> r.loading && r.success == Bool(true)
    // the pdf link object itself becomes the resume info
    ensures a.Run? && a.thunk == Pdf && a.phase.Fulfilled? ==>
              r == ResumeState(Bool(true), Null, Str("Pdf generated successfully!"), a.phase.payload, false)
    // no case is registered for the Word export, and a throwing case changes nothing
    ensures (a.Run? && a.thunk == Word) || Throws(a) ==> r == s
  {
    match a
    case RemoveErrors => s.(error := Null)
    case RemoveSuccess => s.(success := Bool(false))
    case Run(t, Pending) =>
      if t == Word then s
      else if t == Delete then s.(loading := false, error := Null)
      else s.(loading := true, error := Null)
    case Run(t, Rejected(_)) =>
      if t == Word then s else s.(loading := false, error := Str(RejectedError(t)))
    case Run(t, Fulfilled(p)) =>
      ReduceFulfilled(s, t, p)
  }

  // Action types

  /** The slice's `name`: the first part of its own reducers' types. */
  const SliceName := "resume"

  /** The type prefix each thunk was created with; every one is "resume/"
      followed by the thunk's own name. */
  function ThunkType(t: Thunk): string
  {
    Redux.TypeName(SliceName, ThunkName(t))
  }

  function ThunkName(t: Thunk): string
  {
    match t
    case Create => "create"
    case Fetch => "get"
    case FetchSingle => "getsingle"
    case Delete => "delete"
    case Pdf => "pdf"
    case Word => "resume-word"
  }

  lemma ThunkTypeInjective(t: Thunk, u: Thunk)
    requires ThunkType(t) == ThunkType(u)
    ensures t == u
  {
    Redux.TypeNameCancel(SliceName, ThunkName(t), ThunkName(u));
  }

  function PhaseName(p: Phase): string
  {
    match p
    case Pending => Redux.PendingName
    case Fulfilled(_) => Redux.FulfilledName
    case Rejected(_) => Redux.RejectedName
  }

  /** The payload a phase's action carries: `undefined` while pending. */
  function PhasePayload(p: Phase): Value
  {
    match p
    case Pending => Undefined
    case Fulfilled(v) => v
    case Rejected(v) => v
  }

  /** The object an action creator builds: `removeErrors()`, `removeSuccess()`,
      or one of the three actions a thunk dispatches. */
  function ToObject(a: Action): Redux.ActionObject
  {
    match a
    case RemoveErrors => Redux.ActionObject(Redux.TypeName(SliceName, "removeErrors"), Undefined)
    case RemoveSuccess => Redux.ActionObject(Redux.TypeName(SliceName, "removeSuccess"), Undefined)
    case Run(t, p) => Redux.ActionObject(Redux.TypeName(ThunkType(t), PhaseName(p)), PhasePayload(p))
  }

  const Thunks := [Create, Fetch, FetchSingle, Delete, Pdf, Word]

  /** The slice's case lookup: which of its actions a dispatched object is, by
      its type alone. */
  function Decode(o: Redux.ActionObject): Option<Action>
  {
    if o.actionType == Redux.TypeName(SliceName, "removeErrors") then Some(RemoveErrors)
    else if o.actionType == Redux.TypeName(SliceName, "removeSuccess") then Some(RemoveSuccess)
    else DecodeRun(o, Thunks)
  }

  function DecodeRun(o: Redux.ActionObject, ts: seq<Thunk>): Option<Action>
    decreases |ts|
  {
    if ts == [] then None
    else if o.actionType == Redux.TypeName(ThunkType(ts[0]), Redux.PendingName) then Some(Run(ts[0], Pending))
    else if o.actionType == Redux.TypeName(ThunkType(ts[0]), Redux.FulfilledName) then Some(Run(ts[0], Fulfilled(o.payload)))
    else if o.actionType == Redux.TypeName(ThunkType(ts[0]), Redux.RejectedName) then Some(Run(ts[0], Rejected(o.payload)))
    else DecodeRun(o, ts[1..])
  }

  /** The slice reducer as the store calls it, on any dispatched object: a type
      the slice has no case for leaves its state as it is. */
  function ReduceObject(s: ResumeState, o: Redux.ActionObject): ResumeState
  {
    match Decode(o)
    case None => s
    case Some(a) => Reduce(s, a)
  }

  /** Every type the slice has a case for starts with "resume/". */
  lemma {:induction false} DecodeRunOwnPrefix(o: Redux.ActionObject, ts: seq<Thunk>)
    requires DecodeRun(o, ts).Some?
    ensures Text.StartsWith(o.actionType, SliceName + "/")
    decreases |ts|
  {
    var t := ts[0];
    Redux.TypeNameHead(SliceName, ThunkName(t));
    Redux.TypeNameStartsWith(ThunkType(t), Redux.PendingName, SliceName + "/");
    Redux.TypeNameStartsWith(ThunkType(t), Redux.FulfilledName, SliceName + "/");
    Redux.TypeNameStartsWith(ThunkType(t), Redux.RejectedName, SliceName + "/");
    if DecodeRun(o, ts) == DecodeRun(o, ts[1..]) {
      DecodeRunOwnPrefix(o, ts[1..]);
    }
  }

  /** Every type the slice has a case for starts with the slice's name and "/". */
  lemma DecodeOwnPrefix(o: Redux.ActionObject)
    requires Decode(o).Some?
    ensures Text.StartsWith(o.actionType, SliceName + "/")
  {
    Redux.TypeNameHead(SliceName, "removeErrors");
    Redux.TypeNameHead(SliceName, "removeSuccess");
    if DecodeRun(o, Thunks).Some? {
      DecodeRunOwnPrefix(o, Thunks);
    }
  }

  /** An object whose type does not start with the slice's name and "/" (an
      action of another slice) leaves the resume state unchanged. */
  lemma ForeignTypeIgnored(s: ResumeState, o: Redux.ActionObject)
    requires !Text.StartsWith(o.actionType, SliceName + "/")
    ensures ReduceObject(s, o) == s
  {
    if Decode(o).Some? {
      DecodeOwnPrefix(o);
    }
  }

  /** A thunk's action is found under its own thunk and phase. */
  lemma {:induction false} DecodeRunFinds(t: Thunk, p: Phase, ts: seq<Thunk>)
    requires t in ts
    ensures DecodeRun(ToObject(Run(t, p)), ts) == Some(Run(t, p))
    decreases |ts|
  {
    var o := ToObject(Run(t, p));
    var u := ts[0];
    PhaseNameSlashFree(p);
    forall name | name in {Redux.PendingName, Redux.FulfilledName, Redux.RejectedName} &&
                  o.actionType == Redux.TypeName(ThunkType(u), name)
      ensures u == t && name == PhaseName(p)
    {
      Redux.TypeNameInjective(ThunkType(u), name, ThunkType(t), PhaseName(p));
      ThunkTypeInjective(u, t);
    }
    if u != t {
      DecodeRunFinds(t, p, ts[1..]);
    }
  }

  /** A thunk's type is not one of the plain reducers' types. */
  lemma RunTypeNotPlain(t: Thunk, p: Phase, name: string)
    requires name == "removeErrors" || name == "removeSuccess"
    ensures ToObject(Run(t, p)).actionType != Redux.TypeName(SliceName, name)
  {
    if ToObject(Run(t, p)).actionType == Redux.TypeName(SliceName, name) {
      PhaseNameSlashFree(p);
      Redux.TypeNameInjective(SliceName, name, ThunkType(t), PhaseName(p));
    }
  }

  lemma PhaseNameSlashFree(p: Phase)
    ensures '/' !in PhaseName(p)
  {
  }

  /** Decoding the object an action creator builds gives back the action. */
  lemma DecodeToObject(a: Action)
    ensures Decode(ToObject(a)) == Some(a)
  {
    match a
    case RemoveErrors =>
    case RemoveSuccess =>
      if Redux.TypeName(SliceName, "removeSuccess") == Redux.TypeName(SliceName, "removeErrors") {
        Redux.TypeNameCancel(SliceName, "removeSuccess", "removeErrors");
      }
    case Run(t, p) =>
      RunTypeNotPlain(t, p, "removeErrors");
      RunTypeNotPlain(t, p, "removeSuccess");
      DecodeRunFinds(t, p, Thunks);
  }

  /** Every action creator's type starts with the slice's name and "/". */
  lemma ToObjectOwnPrefix(a: Action)
    ensures Text.StartsWith(ToObject(a).actionType, SliceName + "/")
  {
    DecodeToObject(a);
    DecodeOwnPrefix(ToObject(a));
  }

  /** Dispatching an action creator's object runs the slice reducer on it. */
  lemma DispatchedObjectReduced(s: ResumeState, a: Action)
    ensures ReduceObject(s, ToObject(a)) == Reduce(s, a)
  {
    DecodeToObject(a);
  }

  /** The store after dispatching `actions` in order, starting from `s`. */
  function Replay(s: ResumeState, actions: seq<Action>): ResumeState
    decreases |actions|
  {
    if actions == [] then s else Replay(Reduce(s, actions[0]), actions[1..])
  }

  /** Actions that write resume data: the fulfilled cases that have a reducer. */
  predicate WritesData(a: Action)
  {
    a.Run? && a.phase.Fulfilled? && a.thunk != Word
  }

  /** Pending and rejected actions and the plain reducers never touch the
      message or the resume info, and never set the success flag. */
  lemma {:induction false} DataOnlyFromFulfilled(s: ResumeState, actions: seq<Action>)
    requires forall i :: 0 <= i < |actions| ==> !WritesData(actions[i])
    ensures Replay(s, actions).message == s.message
    ensures Replay(s, actions).resumeInfo == s.resumeInfo
    ensures Replay(s, actions).success in {s.success, Bool(false)}
    decreases |actions|
  {
    if actions != [] {
      var s' := Reduce(s, actions[0]);
      assert s'.message == s.message && s'.resumeInfo == s.resumeInfo;
      assert s'.success in {s.success, Bool(false)};
      DataOnlyFromFulfilled(s', actions[1..]);
      if Replay(s', actions[1..]).success != s'.success {
        assert Replay(s', actions[1..]).success == Bool(false);
      }
    }
  }

  /** From the initial store, resume data appears only through a fulfilled action. */
  lemma InitialDataOnlyFromFulfilled(actions: seq<Action>)
    requires forall i :: 0 <= i < |actions| ==> !WritesData(actions[i])
    ensures Replay(InitialState, actions).resumeInfo == Null
    ensures Replay(InitialState, actions).success == Bool(false)
    ensures Replay(InitialState, actions).message == Str("")
  {
    DataOnlyFromFulfilled(InitialState, actions);
  }

  /** A later list fetch supersedes an earlier one: nothing of the first payload survives. */
  lemma FetchSupersedes(s: ResumeState, first: Value, second: Value)
    ensures Replay(s, [Run(Fetch, Fulfilled(first)), Run(Fetch, Fulfilled(second))])
         == Reduce(InitialState, Run(Fetch, Fulfilled(second)))
  {
    var s1 := Reduce(s, Run(Fetch, Fulfilled(first)));
    assert Replay(s, [Run(Fetch, Fulfilled(first)), Run(Fetch, Fulfilled(second))])
        == Replay(s1, [Run(Fetch, Fulfilled(second))]);
    assert Replay(s1, [Run(Fetch, Fulfilled(second))]) == Reduce(s1, Run(Fetch, Fulfilled(second)));
  }

  /** Creating a resume does not add it to the list held by the store: after a
      creation and a list fetch, the store holds what the list fetch returned,
      whether the creation's case stored its payload or threw on it. */
  lemma CreateThenFetchNoMerge(s: ResumeState, created: Value, listed: Value)
    ensures Replay(s, [Run(Create, Fulfilled(created)), Run(Fetch, Fulfilled(listed))]).resumeInfo
         == PayloadResumeInfo(listed)
  {
    var s1 := Reduce(s, Run(Create, Fulfilled(created)));
    assert Replay(s, [Run(Create, Fulfilled(created)), Run(Fetch, Fulfilled(listed))])
        == Replay(s1, [Run(Fetch, Fulfilled(listed))]);
    assert Replay(s1, [Run(Fetch, Fulfilled(listed))]) == Reduce(s1, Run(Fetch, Fulfilled(listed)));
  }

  /** The delete-then-refresh sequence ends with the loader off when the
      deletion settles first, and with the loader left on when the refresh
      settles first: the inverted loading flag of the deletion wins the race. */
  lemma DeleteRefreshRace(s: ResumeState, deleted: Value, listed: Value)
    ensures !Replay(s, [Run(Delete, Pending), Run(Delete, Fulfilled(deleted)),
                        Run(Fetch, Pending), Run(Fetch, Fulfilled(listed))]).loading
    ensures Replay(s, [Run(Delete, Pending), Run(Fetch, Pending),
                       Run(Fetch, Fulfilled(listed)), Run(Delete, Fulfilled(deleted))]).loading
  {
    var a, b, c, d := Run(Delete, Pending), Run(Delete, Fulfilled(deleted)), Run(Fetch, Pending), Run(Fetch, Fulfilled(listed));
    var sa := Reduce(s, a);
    var sab := Reduce(sa, b);
    var sabc := Reduce(sab, c);
    assert !Reduce(sabc, d).loading;
    assert Replay(s, [a, b, c, d]) == Replay(sa, [b, c, d]);
    assert Replay(sa, [b, c, d]) == Replay(sab, [c, d]);
    assert Replay(sab, [c, d]) == Replay(sabc, [d]);
    assert Replay(sabc, [d]) == Reduce(sabc, d);
    var sac := Reduce(sa, c);
    var sacd := Reduce(sac, d);
    assert Reduce(sacd, b).loading;
    assert Replay(s, [a, c, d, b]) == Replay(sa, [c, d, b]);
    assert Replay(sa, [c, d, b]) == Replay(sac, [d, b]);
    assert Replay(sac, [d, b]) == Replay(sacd, [b]);
    assert Replay(sacd, [b]) == Reduce(sacd, b);
  }

  /** The slice as the store holds it: one mutable record whose fields each
      case handler overwrites in place. */
  class ResumeStore {
    var success: Value
    var error: Value
    var message: Value
    var resumeInfo: Value
    var loading: bool

    function Snapshot(): ResumeState
      reads this
    {
      ResumeState(success, error, message, resumeInfo, loading)
    }

    constructor ()
      ensures Snapshot() == InitialState
    {
      success, error, message, resumeInfo, loading := Bool(false), Null, Str(""), Null, false;
    }

    method RemoveErrorsCase()
      modifies this
      ensures Snapshot() == Reduce(old(Snapshot()), RemoveErrors)
    {
      error := Null;
    }

    method RemoveSuccessCase()
      modifies this
      ensures Snapshot() == Reduce(old(Snapshot()), RemoveSuccess)
    {
      success := Bool(false);
    }

    method PendingCase(t: Thunk)
      modifies this
      ensures Snapshot() == Reduce(old(Snapshot()), Run(t, Pending))
    {
      if t == Word {
        return;
      }
      loading := t != Delete;
      error := Null;
    }

    method RejectedCase(t: Thunk, payload: Value)
      modifies this
      ensures Snapshot() == Reduce(old(Snapshot()), Run(t, Rejected(payload)))
    {
      if t == Word {
        return;
      }
      loading := false;
      error := Str(RejectedError(t));
    }

    /** Returns whether the case threw, in which case no field was written. */
    method FulfilledCase(t: Thunk, payload: Value) returns (threw: bool)
      modifies this
      ensures threw == Throws(Run(t, Fulfilled(payload)))
      ensures Snapshot() == Reduce(old(Snapshot()), Run(t, Fulfilled(payload)))
    {
      threw := false;
      match t
      case Create =>
        if Nullish(payload) {
          threw := true;
          return;
        }
        loading := false;
        success := Get(payload, "success");
        error := Null;
        message := Or(Get(payload, "message"), Str("Resume created successfully"));
        resumeInfo := Or(Get(payload, "resumeInfo"), Null);
      case Fetch =>
        loading := false;
        success := Bool(true);
        message := Or(Get(payload, "message"), Str("All CV's fetched!"));
        resumeInfo := Or(Get(payload, "resumeInfo"), Null);
        error := Null;
      case FetchSingle =>
        loading := false;
        success := Bool(true);
        message := Or(Get(payload, "message"), Str("Fetch cv "));
        resumeInfo := Or(Get(payload, "resumeInfo"), Null);
        error := Null;
      case Delete =>
        loading := true;
        error := Null;
        success := Bool(true);
        message := Or(Get(payload, "message"), Str("Document deleted successfully"));
        resumeInfo := Or(Get(payload, "resumeInfo"), Null);
      case Pdf =>
        loading := false;
        success := Bool(true);
        error := Null;
        message := Str("Pdf generated successfully!");
        resumeInfo := payload;
      case Word =>
    }

    /** The slice reducer as the store runs it on each dispatched action. */
    method Dispatch(a: Action) returns (threw: bool)
      modifies this
      ensures threw == Throws(a)
      ensures Snapshot() == Reduce(old(Snapshot()), a)
    {
      threw := false;
      match a
      case RemoveErrors => RemoveErrorsCase();
      case RemoveSuccess => RemoveSuccessCase();
      case Run(t, Pending) => PendingCase(t);
      case Run(t, Rejected(p)) => RejectedCase(t, p);
      case Run(t, Fulfilled(p)) => threw := FulfilledCase(t, p);
    }
  }
}
