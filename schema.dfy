/** Validation of a request body against a declarative model class, as the
    back end's schema classes declare them: each field has a type, may admit
    `None`, is required or has a default, and may carry a length bound or an
    anchored choice pattern. Field values are the JSON values the request
    decodes to; `null` is Python's `None`. Keys the model does not declare
    are ignored, and a default is taken as it is, without validation. */
module Schema {
  import opened Wrappers
  import opened JsValues

  datatype FieldType =
    | StrType
    | IntType
    | BoolType
    | DateType      // `date`; the ISO format is not checked here
    | DateTimeType  // `datetime`; the ISO format is not checked here
    | StrListType
    | DictType
    | StrOrDictType

  /** `Field(min_length=.., max_length=..)` or `Field(pattern="^(a|b|..)$")`. */
  datatype Constraint =
    | NoConstraint
    | Length(min: nat, max: Option<nat>)
    | OneOf(choices: seq<string>)

  datatype Presence = Required | Default(value: Value)

  datatype FieldSpec = FieldSpec(name: string, ty: FieldType, nullable: bool, presence: Presence, constraint: Constraint)

  predicate TypeOk(ty: FieldType, v: Value)
  {
    match ty
    case StrType => v.Str?
    case IntType => v.Num?
    case BoolType => v.Bool?
    case DateType => v.Str?
    case DateTimeType => v.Str?
    case StrListType => v.Arr? && forall i :: 0 <= i < |v.elems| ==> v.elems[i].Str?
    case DictType => v.Obj?
    case StrOrDictType => v.Str? || v.Obj?
  }

  /** Length bounds count code points; a pattern `^(a|b)$` accepts exactly
      the listed strings. */
  predicate ConstraintOk(c: Constraint, v: Value)
  {
    match c
    case NoConstraint => true
    case Length(lo, hi) => v.Str? && lo <= |v.s| && (hi.None? || |v.s| <= hi.value)
    case OneOf(choices) => v.Str? && v.s in choices
  }

  /** A supplied value is accepted: `None` where the field admits it, and
      otherwise a value of the field's type meeting its constraint. */
  predicate FieldOk(f: FieldSpec, v: Value)
  {
    (f.nullable && v.Null?) || (TypeOk(f.ty, v) && ConstraintOk(f.constraint, v))
  }

  /** The value a field ends up with, or `None` when validation fails. */
  function FieldValue(f: FieldSpec, input: map<string, Value>): (r: Option<Value>)
    ensures f.name in input ==> (r.Some? <==> FieldOk(f, input[f.name]))
    ensures f.name in input && r.Some? ==> r.value == input[f.name]
    ensures f.name !in input ==> (r.Some? <==> f.presence.Default?)
    ensures f.name !in input && r.Some? ==> r.value == f.presence.value
  {
    if f.name in input then
      if FieldOk(f, input[f.name]) then Some(input[f.name]) else None
    else
      match f.presence
      case Required => None
      case Default(d) => Some(d)
  }

  predicate DistinctNames(schema: seq<FieldSpec>)
  {
    forall i, j :: 0 <= i < j < |schema| ==> schema[i].name != schema[j].name
  }

  /** Names stay distinct when two models with no name in common are put
      one after the other. */
  lemma DistinctNamesAppend(a: seq<FieldSpec>, b: seq<FieldSpec>)
    requires DistinctNames(a) && DistinctNames(b)
    requires forall i, j :: 0 <= i < |a| && 0 <= j < |b| ==> a[i].name != b[j].name
    ensures DistinctNames(a + b)
  {
    var ab := a + b;
    forall i, j | 0 <= i < j < |ab|
      ensures ab[i].name != ab[j].name
    {
      if j < |a| {
        assert ab[i] == a[i] && ab[j] == a[j];
      } else if i < |a| {
        assert ab[i] == a[i] && ab[j] == b[j - |a|];
      } else {
        assert ab[i] == b[i - |a|] && ab[j] == b[j - |a|];
      }
    }
  }

  /** Accepting: every declared field ends up with a value. */
  predicate Accepts(schema: seq<FieldSpec>, input: map<string, Value>)
  {
    forall i :: 0 <= i < |schema| ==> FieldValue(schema[i], input).Some?
  }

  /** Validation of a whole body: the model's field values, or `None` for a
      validation error. */
  function Validate(schema: seq<FieldSpec>, input: map<string, Value>): (r: Option<map<string, Value>>)
    ensures r.Some? <==> Accepts(schema, input)
    ensures r.Some? ==> forall i :: 0 <= i < |schema| ==> schema[i].name in r.value
    ensures r.Some? && DistinctNames(schema) ==>
              forall i :: 0 <= i < |schema| ==> r.value[schema[i].name] == FieldValue(schema[i], input).value
  {
    if schema == [] then Some(map[])
    else
      match FieldValue(schema[0], input)
      case None => None
      case Some(v) =>
        match Validate(schema[1..], input)
        case None => None
        case Some(m) =>
          assert forall i :: 1 <= i < |schema| ==> schema[i] == schema[1..][i - 1];
          Some(m[schema[0].name := v])
  }

  /** The result holds the declared fields and no other key. */
  lemma {:induction false} ValidateKeys(schema: seq<FieldSpec>, input: map<string, Value>)
    requires Validate(schema, input).Some?
    ensures forall k :: k in Validate(schema, input).value ==> exists i :: 0 <= i < |schema| && schema[i].name == k
  {
    if schema != [] {
      ValidateKeys(schema[1..], input);
      var m := Validate(schema[1..], input).value;
      forall k | k in Validate(schema, input).value
        ensures exists i :: 0 <= i < |schema| && schema[i].name == k
      {
        if k != schema[0].name {
          assert k in m;
          var j :| 0 <= j < |schema[1..]| && schema[1..][j].name == k;
          assert schema[j + 1].name == k;
        }
      }
    }
  }

  /** Keys the model does not declare neither cause an error nor change the
      result. */
  lemma ExtraKeysIgnored(schema: seq<FieldSpec>, input: map<string, Value>, key: string, v: Value)
    requires forall i :: 0 <= i < |schema| ==> schema[i].name != key
    ensures Validate(schema, input[key := v]) == Validate(schema, input)
  {
    if schema != [] {
      assert FieldValue(schema[0], input[key := v]) == FieldValue(schema[0], input);
      ExtraKeysIgnored(schema[1..], input, key, v);
    }
  }

  /** A missing required field rejects the whole body, and so does a supplied
      value its field refuses. */
  lemma RequiredFieldMissing(schema: seq<FieldSpec>, input: map<string, Value>, i: nat)
    requires i < |schema| && schema[i].presence.Required? && schema[i].name !in input
    ensures Validate(schema, input).None?
  {
    assert FieldValue(schema[i], input).None?;
  }

  lemma SuppliedFieldRejected(schema: seq<FieldSpec>, input: map<string, Value>, i: nat)
    requires i < |schema| && schema[i].name in input && !FieldOk(schema[i], input[schema[i].name])
    ensures Validate(schema, input).None?
  {
    assert FieldValue(schema[i], input).None?;
  }
}
