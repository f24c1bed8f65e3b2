/** The gRPC logging adapter (vendor/github.com/govargo/go-logger/logger.go):
    `InterceptorLogger` turns the interceptor's alternating key/value list
    into zap fields and forwards the message at the matching zap level. */
module Interceptor {
  import opened Values
  import opened Fields
  import opened Levels

  /** The interceptor's levels (logging.Level of go-grpc-middleware v2). */
  const GrpcDebug: int := -4
  const GrpcInfo: int := 0
  const GrpcWarn: int := 4
  const GrpcError: int := 8

  /** A log call the adapter makes: the package-level Debug, Info, Warn,
      Error or Fatal function, given by its zap level, with its message
      and fields. */
  datatype Call = Call(level: Level, message: string, fields: seq<Field>)

  /** Go's `int` and `uint` are 64 bits wide; zap stores them as int64 and
      uint64 fields. */
  function Widen(k: IntKind): (w: IntKind)
    ensures Bits(w) == Bits(k) && (Signed(w) <==> Signed(k))
  {
    match k
    case Int => Int64Kind
    case Uint => Uint64Kind
    case _ => k
  }

  /** The field type zap.Any picks for an integer of kind `k`. */
  function IntFieldType(k: IntKind): (t: FieldType)
    ensures IntKindOf(t) == Some(Widen(k))
  {
    match k
    case Int | Int64Kind => Int64Type
    case Int32Kind => Int32Type
    case Int16Kind => Int16Type
    case Int8Kind => Int8Type
    case Uint | Uint64Kind => Uint64Type
    case Uint32Kind => Uint32Type
    case Uint16Kind => Uint16Type
    case Uint8Kind => Uint8Type
    case Uintptr => UintptrType
  }

  /** zap.Any for the values this model distinguishes, in zap's case
      order: a bool, an integer of any width (stored as int64), a string,
      a time (TimeFull when its nanoseconds overflow an int64), an error,
      a fmt.Stringer, and zap.Reflect for everything else. */
  function ZapAny(key: string, v: Any): (f: Field)
    requires GoValue(v)
    ensures f.key == key && Reducible(f) && !f.kind.SkipType?
  {
    match v
    case ABool(b) => BoolField(key, b)
    case AInt(k, i) => Field(key, IntFieldType(k), Convert(Int64Kind, i), "", Nil)
    case AString(s) => StringField(key, s)
    case ATime(n, loc) =>
      if InRange(Int64Kind, n)
      then Field(key, TimeType, n, "", if loc.None? then Nil else ALocation(loc.value))
      else Field(key, TimeFullType, 0, "", v)
    case AObject(_, stringer, errorText) =>
      if errorText.Some? then Field(key, ErrorType, 0, "", v)
      else if stringer.Some? then Field(key, StringerType, 0, "", v)
      else ReflectField(key, v)
    case ALocation(_) => Field(key, StringerType, 0, "", v)
    case Nil => ReflectField(key, v)
    case AHTTPPayload(_) => ReflectField(key, v)
  }

  /** The field one key/value pair becomes: zap.String for a string,
      zap.Int for an `int`, zap.Bool for a bool and zap.Any otherwise. */
  function Classify(key: string, v: Any): (f: Field)
    requires GoValue(v)
    ensures f.key == key && Reducible(f) && !f.kind.SkipType?
  {
    match v
    case AString(s) => StringField(key, s)
    case ABool(b) => BoolField(key, b)
    case AInt(Int, i) => IntField(key, i)
    case _ => ZapAny(key, v)
  }

  /** The value gcloudzap's `clone` stores for a value passed to the
      adapter: an error as its `Error()` text, another fmt.Stringer as its
      `String()` text, an integer as the same number at its 64-bit width
      for `int` and `uint`, and any other value as itself. */
  function Stored(v: Any): Any
  {
    match v
    case AInt(k, i) => AInt(Widen(k), i)
    case AObject(_, stringer, errorText) =>
      if errorText.Some? then AString(errorText.value)
      else if stringer.Some? then AString(stringer.value)
      else v
    case ALocation(name) => AString(name)
    case _ => v
  }

  /** What a pair's field puts in the payload is `Stored` of the value
      passed. */
  lemma ClassifyStores(key: string, v: Any, rt: Runtime)
    requires GoValue(v)
    ensures Reduce(Classify(key, v), rt) == Some(Stored(v))
  {
    if v.AInt? && !v.kind.Int? {
      ConvertThroughInt64(Widen(v.kind), v.i);
    }
  }

  /** An error passed to the adapter reaches the payload as its text. */
  lemma ErrorPairStoresText(m: map<string, Any>, rt: Runtime)
    ensures Put(m, Classify("grpc.error", AObject(1, None, Some("boom"))), rt)
         == m["grpc.error" := AString("boom")]
  {
    ClassifyStores("grpc.error", AObject(1, None, Some("boom")), rt);
  }

  /** An alternating key/value list the adapter can read: an even number
      of entries, every key a string, every value a Go value. */
  predicate KeyValueList(kvs: seq<Any>)
  {
    && |kvs| % 2 == 0
    && (forall i :: 0 <= i < |kvs| && i % 2 == 0 ==> kvs[i].AString?)
    && (forall i :: 0 <= i < |kvs| ==> GoValue(kvs[i]))
  }

  /** The loop of `InterceptorLogger`: one field per pair, in order. */
  method PairFields(kvs: seq<Any>) returns (f: seq<Field>)
    requires KeyValueList(kvs)
    ensures |f| == |kvs| / 2
    ensures forall j :: 0 <= j < |f| ==> f[j] == Classify(kvs[2 * j].s, kvs[2 * j + 1])
  {
    f := [];
    var i := 0;
    while i < |kvs|
      invariant 0 <= i <= |kvs| && i % 2 == 0
      invariant |f| == i / 2
      invariant forall j :: 0 <= j < |f| ==> f[j] == Classify(kvs[2 * j].s, kvs[2 * j + 1])
    {
      var key := kvs[i];
      var value := kvs[i + 1];
      f := f + [Classify(key.s, value)];
      i := i + 2;
    }
  }

  /** The level switch: the four known levels go to Debug, Info, Warn and
      Error with the message and fields; any other level goes to Fatal with
      "unknown level N" and no fields. */
  function Dispatch(lvl: Int64, msg: string, f: seq<Field>, rt: Runtime): (c: Call)
    ensures c.level in {DebugLevel, InfoLevel, WarnLevel, ErrorLevel, FatalLevel}
    ensures c.level == FatalLevel <==> lvl !in {GrpcDebug, GrpcInfo, GrpcWarn, GrpcError}
    ensures lvl == GrpcDebug ==> c.level == DebugLevel
    ensures lvl == GrpcInfo ==> c.level == InfoLevel
    ensures lvl == GrpcWarn ==> c.level == WarnLevel
    ensures lvl == GrpcError ==> c.level == ErrorLevel
    ensures c.level != FatalLevel ==> c.message == msg && c.fields == f
    ensures c.level == FatalLevel ==>
      c.message == "unknown level " + rt.sprint(AInt(Int, lvl)) && c.fields == []
  {
    if lvl == GrpcDebug then Call(DebugLevel, msg, f)
    else if lvl == GrpcInfo then Call(InfoLevel, msg, f)
    else if lvl == GrpcWarn then Call(WarnLevel, msg, f)
    else if lvl == GrpcError then Call(ErrorLevel, msg, f)
    else Call(FatalLevel, "unknown level " + rt.sprint(AInt(Int, lvl)), [])
  }

  /** The level switch keeps order: a more severe interceptor level never
      becomes a less severe zap level, and each known level has its own
      zap level. */
  lemma DispatchMonotone(l1: Int64, l2: Int64, msg: string, f: seq<Field>, rt: Runtime)
    requires l1 in {GrpcDebug, GrpcInfo, GrpcWarn, GrpcError}
    requires l2 in {GrpcDebug, GrpcInfo, GrpcWarn, GrpcError}
    ensures l1 <= l2 <==> Dispatch(l1, msg, f, rt).level <= Dispatch(l2, msg, f, rt).level
  {
  }

  /** The logging function `InterceptorLogger` returns, for one call. */
  method InterceptorLog(lvl: Int64, msg: string, kvs: seq<Any>, rt: Runtime) returns (c: Call)
    requires KeyValueList(kvs)
    ensures c == Dispatch(lvl, msg, c.fields, rt)
    ensures c.level == FatalLevel <==> lvl !in {GrpcDebug, GrpcInfo, GrpcWarn, GrpcError}
    ensures c.level != FatalLevel ==>
      && c.message == msg
      && |c.fields| == |kvs| / 2
      && forall j :: 0 <= j < |c.fields| ==> c.fields[j] == Classify(kvs[2 * j].s, kvs[2 * j + 1])
    ensures c.level == FatalLevel ==>
      c.message == "unknown level " + rt.sprint(AInt(Int, lvl)) && c.fields == []
  {
    var f := PairFields(kvs);
    c := Dispatch(lvl, msg, f, rt);
  }

  /** What the fields of one call store when they reach gcloudzap's
      `clone` on top of a core's fields: under each key, `Stored` of the
      value of the last pair with that key, as Go map assignment does. */
  lemma {:induction false} LastPairWins(m: map<string, Any>, kvs: seq<Any>, f: seq<Field>, j: nat, rt: Runtime)
    requires KeyValueList(kvs)
    requires |f| == |kvs| / 2
    requires forall i :: 0 <= i < |f| ==> f[i] == Classify(kvs[2 * i].s, kvs[2 * i + 1])
    requires j < |f|
    requires forall i :: j < i < |f| ==> kvs[2 * i].s != kvs[2 * j].s
    ensures AllReducible(f)
    ensures kvs[2 * j].s in Accumulate(m, f, rt)
    ensures Accumulate(m, f, rt)[kvs[2 * j].s] == Stored(kvs[2 * j + 1])
  {
    var k := kvs[2 * j].s;
    assert AllReducible(f) by {
      forall i | 0 <= i < |f| ensures Reducible(f[i]) {
        assert 2 * i + 1 < |kvs|;
        assert GoValue(kvs[2 * i + 1]);
      }
    }
    assert f[j].key == k;
    AccumulateAt(m, f, rt, k);
    var w := LastWriter(f, k);
    assert w.Some?;
    assert w.value == j;
    ClassifyStores(k, kvs[2 * j + 1], rt);
  }
}
