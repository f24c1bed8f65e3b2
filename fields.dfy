/** zap's typed fields and `clone`, which folds a list of them into a fresh
    string-keyed map on top of a parent map (zapgcl.go). */
module Fields {
  import opened Values

  /** zapcore.FieldType. The two float kinds are not part of this model. */
  datatype FieldType =
    | UnknownType
    | ArrayMarshalerType | ObjectMarshalerType | BinaryType
    | BoolType | ByteStringType | Complex128Type | Complex64Type | DurationType
    | Int64Type | Int32Type | Int16Type | Int8Type
    | StringType | TimeType | TimeFullType
    | Uint64Type | Uint32Type | Uint16Type | Uint8Type | UintptrType
    | ReflectType | NamespaceType | StringerType | ErrorType | SkipType
    | InlineMarshalerType

  /** zapcore.Field: a key, a type tag and the three slots a value is kept in. */
  datatype Field = Field(key: string, kind: FieldType, integer: Int64, str: string, iface: Any)

  /** The integer kind a field type converts `Integer` to, if it is one of
      the signed or unsigned integer types. */
  function IntKindOf(t: FieldType): Option<IntKind>
  {
    match t
    case Int64Type => Some(Int64Kind)
    case Int32Type => Some(Int32Kind)
    case Int16Type => Some(Int16Kind)
    case Int8Type => Some(Int8Kind)
    case Uint64Type => Some(Uint64Kind)
    case Uint32Type => Some(Uint32Kind)
    case Uint16Type => Some(Uint16Kind)
    case Uint8Type => Some(Uint8Kind)
    case UintptrType => Some(Uintptr)
    case _ => None
  }

  /** The field types whose `Interface` is stored as it is: the marshalers,
      binary and reflected values, and every type `clone` does not name. */
  predicate PassesThrough(t: FieldType)
  {
    t.ArrayMarshalerType? || t.ObjectMarshalerType? || t.BinaryType? || t.ReflectType?
    || t.UnknownType? || t.TimeFullType? || t.NamespaceType? || t.InlineMarshalerType?
  }

  /** The type assertions `clone` makes succeed: a Stringer field holds a
      value with a `String()` method (a `time.Time` has one), an error field a value with an
      `Error()` method, and a time field either nil or a *time.Location. */
  predicate Reducible(f: Field)
  {
    match f.kind
    case StringerType => StringerText(f.iface).Some? || f.iface.ATime?
    case ErrorType => ErrorText(f.iface).Some?
    case TimeType => f.iface.Nil? || f.iface.ALocation?
    case _ => true
  }

  predicate AllReducible(fs: seq<Field>)
  {
    forall i :: 0 <= i < |fs| ==> Reducible(fs[i])
  }

  /** The value one field contributes to the map, or None for a Skip field. */
  function Reduce(f: Field, rt: Runtime): (r: Option<Any>)
    requires Reducible(f)
    ensures r.None? <==> f.kind.SkipType?
    ensures f.kind.BoolType? ==> r == Some(ABool(f.integer == 1))
    ensures f.kind.StringType? || f.kind.ByteStringType? ==> r == Some(AString(f.str))
    ensures PassesThrough(f.kind) ==> r == Some(f.iface)
    ensures IntKindOf(f.kind).Some? ==>
      var k := IntKindOf(f.kind).value;
      && r.Some? && r.value.AInt? && r.value.kind == k
      && InRange(k, r.value.i)
      && (r.value.i - f.integer) % Modulus(k) == 0
      && (InRange(k, f.integer) ==> r.value.i == f.integer)
    ensures f.kind.Complex128Type? || f.kind.Complex64Type? ==> r == Some(AString(rt.sprint(f.iface)))
    ensures f.kind.DurationType? ==> r == Some(AString(rt.durationString(f.integer)))
    ensures f.kind.StringerType? && f.iface.ATime? ==>
      r == Some(AString(rt.timeString(f.iface.unixNanos, f.iface.location)))
    ensures f.kind.StringerType? && !f.iface.ATime? ==> r == Some(AString(StringerText(f.iface).value))
    ensures f.kind.ErrorType? ==> r == Some(AString(ErrorText(f.iface).value))
    ensures f.kind.TimeType? ==>
      r == Some(ATime(f.integer, if f.iface.Nil? then None else Some(f.iface.name)))
  {
    if IntKindOf(f.kind).Some? then
      // Int64Type to UintptrType: the Go conversion to the field's type
      var k := IntKindOf(f.kind).value;
      Some(AInt(k, Convert(k, f.integer)))
    else
    match f.kind
    case ArrayMarshalerType => Some(f.iface)
    case ObjectMarshalerType => Some(f.iface)
    case BinaryType => Some(f.iface)
    case BoolType => Some(ABool(f.integer == 1))
    case ByteStringType => Some(AString(f.str))
    case Complex128Type => Some(AString(rt.sprint(f.iface)))
    case Complex64Type => Some(AString(rt.sprint(f.iface)))
    case DurationType => Some(AString(rt.durationString(f.integer)))
    case StringType => Some(AString(f.str))
    case TimeType =>
      if f.iface.Nil? then Some(ATime(f.integer, None))
      else Some(ATime(f.integer, Some(f.iface.name)))
    case ReflectType => Some(f.iface)
    case StringerType =>
      if f.iface.ATime? then Some(AString(rt.timeString(f.iface.unixNanos, f.iface.location)))
      else Some(AString(StringerText(f.iface).value))
    case ErrorType => Some(AString(ErrorText(f.iface).value))
    case SkipType => None
    case _ => Some(f.iface)
  }

  /** zap.Stringer of a `time.Time`: the type assertion to fmt.Stringer
      succeeds and the field stores the time's `String()` text. */
  lemma TimeStringerStored(key: string, n: int, loc: Option<string>, rt: Runtime)
    ensures Reducible(Field(key, StringerType, 0, "", ATime(n, loc)))
    ensures Reduce(Field(key, StringerType, 0, "", ATime(n, loc)), rt) == Some(AString(rt.timeString(n, loc)))
  {
  }

  /** Stores one field in `m`: its reduced value under its key, or nothing
      for a Skip field. */
  function Put(m: map<string, Any>, f: Field, rt: Runtime): map<string, Any>
    requires Reducible(f)
  {
    match Reduce(f, rt)
    case None => m
    case Some(v) => m[f.key := v]
  }

  /** The map `clone(orig, fs)` returns: the fields of `fs` stored on top of
      `orig` one after another, so that a later field wins over an earlier
      one with the same key. */
  function Accumulate(orig: map<string, Any>, fs: seq<Field>, rt: Runtime): (r: map<string, Any>)
    requires AllReducible(fs)
    ensures orig.Keys <= r.Keys
    decreases |fs|
  {
    if fs == [] then orig
    else Put(Accumulate(orig, fs[..|fs| - 1], rt), fs[|fs| - 1], rt)
  }

  /** The index of the last field of `fs` that stores something under `k`. */
  function LastWriter(fs: seq<Field>, k: string): (r: Option<nat>)
    ensures r.Some? ==> r.value < |fs| && fs[r.value].key == k && !fs[r.value].kind.SkipType?
    ensures r.Some? ==> forall j :: r.value < j < |fs| ==> fs[j].key != k || fs[j].kind.SkipType?
    ensures r.None? ==> forall j :: 0 <= j < |fs| ==> fs[j].key != k || fs[j].kind.SkipType?
    decreases |fs|
  {
    if fs == [] then None
    else if fs[|fs| - 1].key == k && !fs[|fs| - 1].kind.SkipType? then Some(|fs| - 1)
    else LastWriter(fs[..|fs| - 1], k)
  }

  /** What `clone` stores under any key: the value of the last field that
      writes the key, or else the parent's value, and nothing when neither
      has the key. In particular every parent key that no new field
      overrides survives with its value. */
  lemma {:induction false} AccumulateAt(orig: map<string, Any>, fs: seq<Field>, rt: Runtime, k: string)
    requires AllReducible(fs)
    ensures k in Accumulate(orig, fs, rt) <==> k in orig || LastWriter(fs, k).Some?
    ensures LastWriter(fs, k).Some? ==>
      Accumulate(orig, fs, rt)[k] == Reduce(fs[LastWriter(fs, k).value], rt).value
    ensures LastWriter(fs, k).None? && k in orig ==> Accumulate(orig, fs, rt)[k] == orig[k]
    decreases |fs|
  {
    if fs != [] {
      var init := fs[..|fs| - 1];
      assert AllReducible(init) by {
        forall i | 0 <= i < |init| ensures Reducible(init[i]) { assert init[i] == fs[i]; }
      }
      AccumulateAt(orig, init, rt, k);
    }
  }

  /** The keys of the cloned map: the parent's, plus the key of every
      field that is not a Skip field. */
  lemma AccumulateKeys(orig: map<string, Any>, fs: seq<Field>, rt: Runtime)
    requires AllReducible(fs)
    ensures Accumulate(orig, fs, rt).Keys ==
      orig.Keys + (set i | 0 <= i < |fs| && !fs[i].kind.SkipType? :: fs[i].key)
  {
    var written := set i | 0 <= i < |fs| && !fs[i].kind.SkipType? :: fs[i].key;
    forall k ensures k in Accumulate(orig, fs, rt) <==> k in orig || k in written {
      AccumulateAt(orig, fs, rt, k);
    }
  }

  /** Both lists' fields pass clone's assertions, so their concatenation's do. */
  lemma AllReducibleConcat(f1: seq<Field>, f2: seq<Field>)
    requires AllReducible(f1) && AllReducible(f2)
    ensures AllReducible(f1 + f2)
  {
    var all := f1 + f2;
    forall i | 0 <= i < |all| ensures Reducible(all[i]) {
      if i < |f1| { assert all[i] == f1[i]; } else { assert all[i] == f2[i - |f1|]; }
    }
  }

  /** Storing one more field stores it on top of what was stored before. */
  lemma AccumulateSnoc(orig: map<string, Any>, fs: seq<Field>, f: Field, rt: Runtime)
    requires AllReducible(fs) && Reducible(f)
    ensures AllReducible(fs + [f])
    ensures Accumulate(orig, fs + [f], rt) == Put(Accumulate(orig, fs, rt), f, rt)
  {
    AllReducibleConcat(fs, [f]);
    assert (fs + [f])[..|fs|] == fs;
  }

  /** Deriving twice is deriving once with both lists: `With(F1).With(F2)`
      holds the same fields as `With(F1 + F2)`. */
  lemma {:induction false} AccumulateTwice(orig: map<string, Any>, f1: seq<Field>, f2: seq<Field>, rt: Runtime)
    requires AllReducible(f1) && AllReducible(f2)
    ensures AllReducible(f1 + f2)
    ensures Accumulate(Accumulate(orig, f1, rt), f2, rt) == Accumulate(orig, f1 + f2, rt)
    decreases |f2|
  {
    AllReducibleConcat(f1, f2);
    if f2 == [] {
      assert f1 + f2 == f1;
    } else {
      var init := f2[..|f2| - 1];
      var last := f2[|f2| - 1];
      assert init + [last] == f2;
      AccumulateTwice(orig, f1, init, rt);
      AccumulateSnoc(Accumulate(orig, f1, rt), init, last, rt);
      assert (f1 + init) + [last] == f1 + f2;
      AccumulateSnoc(orig, f1 + init, last, rt);
    }
  }

  /** Storing three fields is storing them one after another. */
  lemma AccumulateThree(orig: map<string, Any>, a: Field, b: Field, c: Field, rt: Runtime)
    requires Reducible(a) && Reducible(b) && Reducible(c)
    ensures AllReducible([a, b, c])
    ensures Accumulate(orig, [a, b, c], rt) == Put(Put(Put(orig, a, rt), b, rt), c, rt)
  {
    assert [] + [a] == [a] && [a] + [b] == [a, b] && [a, b] + [c] == [a, b, c];
    AccumulateSnoc(orig, [], a, rt);
    AccumulateSnoc(orig, [a], b, rt);
    AccumulateSnoc(orig, [a, b], c, rt);
  }

  /** clone (zapgcl.go): copies the parent map key by key into a new map,
      then stores each new field in list order. */
  method Clone(orig: map<string, Any>, newFields: seq<Field>, rt: Runtime) returns (clone: map<string, Any>)
    requires AllReducible(newFields)
    ensures clone == Accumulate(orig, newFields, rt)
  {
    clone := map[];
    var rest := orig.Keys;
    while rest != {}
      invariant rest <= orig.Keys
      invariant clone.Keys == orig.Keys - rest
      invariant forall k :: k in clone ==> clone[k] == orig[k]
      decreases rest
    {
      var k :| k in rest;
      clone := clone[k := orig[k]];
      rest := rest - {k};
    }
    assert clone == orig;
    var i := 0;
    while i < |newFields|
      invariant 0 <= i <= |newFields|
      invariant AllReducible(newFields[..i])
      invariant clone == Accumulate(orig, newFields[..i], rt)
    {
      var f := newFields[i];
      assert newFields[..i + 1] == newFields[..i] + [f];
      AccumulateSnoc(orig, newFields[..i], f, rt);
      var v := Reduce(f, rt);
      if v.Some? {
        clone := clone[f.key := v.value];
      }
      i := i + 1;
    }
    assert newFields[..i] == newFields;
  }

  // zap's field constructors used by the code in this model.

  /** zap.String */
  function StringField(key: string, v: string): Field
  {
    Field(key, StringType, 0, v, Nil)
  }

  /** zap.Int: a Go `int` is stored as a 64-bit integer. */
  function IntField(key: string, v: Int64): Field
  {
    Field(key, Int64Type, v, "", Nil)
  }

  /** zap.Bool: the flag is stored as 1 or 0 in `Integer`. */
  function BoolField(key: string, v: bool): Field
  {
    Field(key, BoolType, if v then 1 else 0, "", Nil)
  }

  /** zap.Reflect, the fallback of zap.Any. */
  function ReflectField(key: string, v: Any): Field
  {
    Field(key, ReflectType, 0, "", v)
  }

  /** zap.Skip */
  function SkipField(): Field
  {
    Field("", SkipType, 0, "", Nil)
  }

  /** Each constructor's field is stored by `clone` as the value it was
      built from: a string as itself, a Go int as an int64 of equal value,
      a bool decoded from its 1/0 encoding; a Skip field stores nothing. */
  lemma ConstructorsRoundTrip(m: map<string, Any>, key: string, s: string, n: Int64, b: bool, v: Any, rt: Runtime)
    ensures Put(m, StringField(key, s), rt) == m[key := AString(s)]
    ensures Put(m, IntField(key, n), rt) == m[key := AInt(Int64Kind, n)]
    ensures Put(m, BoolField(key, b), rt) == m[key := ABool(b)]
    ensures Put(m, ReflectField(key, v), rt) == m[key := v]
    ensures Put(m, SkipField(), rt) == m
  {
  }
}
