/** The plain action objects a Redux store dispatches, and how Redux Toolkit
    names them: a reducer declared in a slice's `reducers` gets the type
    `<slice name>/<reducer name>`, and a thunk made by `createAsyncThunk`
    with a type prefix dispatches `<prefix>/pending`, `<prefix>/fulfilled`
    and `<prefix>/rejected`. */
module Redux {
  import Text
  import opened JsValues

  /** `{ type, payload }`; a pending action and a plain reducer's action
      carry an `undefined` payload. */
  datatype ActionObject = ActionObject(actionType: string, payload: Value)

  /** `<prefix>/<name>`. */
  function TypeName(prefix: string, name: string): string
  {
    prefix + "/" + name
  }

  const PendingName := "pending"
  const FulfilledName := "fulfilled"
  const RejectedName := "rejected"

  /** A type name starts with its prefix and "/". */
  lemma TypeNameHead(prefix: string, name: string)
    ensures Text.StartsWith(TypeName(prefix, name), prefix + "/")
  {
    assert TypeName(prefix, name)[..|prefix| + 1] == prefix + "/";
  }

  /** A type name keeps every prefix of its own prefix. */
  lemma TypeNameStartsWith(prefix: string, name: string, start: string)
    requires Text.StartsWith(prefix, start)
    ensures Text.StartsWith(TypeName(prefix, name), start)
  {
    var t := TypeName(prefix, name);
    assert t[..|prefix|] == prefix;
    assert t[..|start|] == prefix[..|start|];
  }

  /** Type names under one prefix are equal only for equal names. */
  lemma TypeNameCancel(prefix: string, x: string, y: string)
    requires TypeName(prefix, x) == TypeName(prefix, y)
    ensures x == y
  {
    assert x == TypeName(prefix, x)[|prefix| + 1..];
    assert y == TypeName(prefix, y)[|prefix| + 1..];
  }

  /** A type name is read back by splitting at its last "/": a name without
      "/" fixes both the prefix and the name. */
  lemma TypeNameInjective(p: string, x: string, q: string, y: string)
    requires '/' !in x && '/' !in y
    requires TypeName(p, x) == TypeName(q, y)
    ensures p == q && x == y
  {
    var t := TypeName(p, x);
    assert |p| + |x| == |q| + |y|;
    assert t[|p|] == '/' && t[|q|] == '/';
    assert forall j :: |p| < j < |t| ==> t[j] == x[j - |p| - 1];
    assert forall j :: |q| < j < |t| ==> t[j] == y[j - |q| - 1];
    if |x| < |y| {
      assert false;
    } else if |y| < |x| {
      assert false;
    } else {
      assert p == t[..|p|] == q;
      assert x == t[|p| + 1..] == y;
    }
  }
}
