/** What one `Write` hands to Cloud Logging, and what deriving children
    and checking levels promise, stated over the specification functions of
    ZapGcl. */
module ZapGclProperties {
  import opened Values
  import opened Fields
  import opened Levels
  import opened CloudLogging
  import opened ZapGcl

  /** The payload before extraction: `message` always holds the entry's
      message, `stack` holds the stack trace when there is one, and every
      other key holds what the core's fields, overridden by the call-site
      fields, hold. */
  lemma PayloadContents(fields: map<string, Any>, ze: ZapEntry, newFields: seq<Field>, rt: Runtime)
    requires AllReducible(newFields)
    ensures var p := Payload(fields, ze, newFields, rt);
      && MessageKey in p && p[MessageKey] == AString(ze.message)
      && (ze.stack != "" ==> StackKey in p && p[StackKey] == AString(ze.stack))
      && (ze.stack == "" ==> (StackKey in p <==> StackKey in Accumulate(fields, newFields, rt)))
      && (ze.stack == "" && StackKey in p ==> p[StackKey] == Accumulate(fields, newFields, rt)[StackKey])
      && (forall k :: k != MessageKey && k != StackKey ==>
            (k in p <==> k in Accumulate(fields, newFields, rt)))
      && (forall k :: k != MessageKey && k != StackKey && k in p ==>
            p[k] == Accumulate(fields, newFields, rt)[k])
  {
  }

  /** The entry's payload keeps exactly the payload keys that are neither
      label keys, nor `httpRequest`, nor the insertId key, with their values. */
  lemma RecordPayload(c: Core, ze: ZapEntry, newFields: seq<Field>, rt: Runtime, k: string)
    requires AllReducible(newFields)
    ensures var p := Payload(c.fields, ze, newFields, rt);
      var r := Record(c, ze, newFields, rt).payload;
      && (k in r <==> k in p && !IsLabelKey(k) && k != HTTPRequestKey && k != InsertIDKey)
      && (k in r ==> r[k] == p[k])
  {
  }

  /** After a write no label key, no `httpRequest` key and no insertId key
      remains in the payload, and the message is there. */
  lemma RecordPayloadClean(c: Core, ze: ZapEntry, newFields: seq<Field>, rt: Runtime)
    requires AllReducible(newFields)
    ensures var r := Record(c, ze, newFields, rt).payload;
      && (forall k :: k in r ==> !IsLabelKey(k))
      && HTTPRequestKey !in r && InsertIDKey !in r
      && MessageKey in r && r[MessageKey] == AString(ze.message)
  {
    var p := Payload(c.fields, ze, newFields, rt);
    PayloadContents(c.fields, ze, newFields, rt);
    assert !IsLabelKey(MessageKey) by { assert MessageKey[0] != LabelsPrefix[0]; }
  }

  /** The labels: nil when the payload has no label key; otherwise each
      `labels.X` string value appears as label `X`, and every label comes
      from such a key. */
  lemma {:induction false} RecordLabels(c: Core, ze: ZapEntry, newFields: seq<Field>, rt: Runtime)
    requires AllReducible(newFields)
    requires WriteTyped(Payload(c.fields, ze, newFields, rt))
    ensures var p := Payload(c.fields, ze, newFields, rt);
      var l := Record(c, ze, newFields, rt).labels;
      && (l.None? <==> forall k :: k in p ==> !IsLabelKey(k))
      && (l.Some? ==> forall k :: k in p && IsLabelKey(k) ==>
            k[|LabelsPrefix|..] in l.value && p[k] == AString(l.value[k[|LabelsPrefix|..]]))
      && (l.Some? ==> forall x :: x in l.value ==> LabelsPrefix + x in p)
  {
    var p := Payload(c.fields, ze, newFields, rt);
    var names := LabelNames(p, p.Keys);
    forall k | k in p && IsLabelKey(k)
      ensures k[|LabelsPrefix|..] in names && LabelValue(p, k[|LabelsPrefix|..]) == p[k].s
    {
      assert LabelsPrefix + k[|LabelsPrefix|..] == k;
    }
    forall x | x in names ensures LabelsPrefix + x in p {
      var k :| k in p && IsLabelKey(k) && k[|LabelsPrefix|..] == x;
      assert LabelsPrefix + x == k;
    }
  }

  /** The insertId is set exactly when the payload holds a non-empty string
      under the insertId key, and then it is that string. */
  lemma RecordInsertID(c: Core, ze: ZapEntry, newFields: seq<Field>, rt: Runtime)
    requires AllReducible(newFields)
    ensures var p := Payload(c.fields, ze, newFields, rt);
      var id := Record(c, ze, newFields, rt).insertID;
      && (id != "" <==> InsertIDKey in p && p[InsertIDKey].AString? && p[InsertIDKey].s != "")
      && (id != "" ==> p[InsertIDKey] == AString(id))
  {
  }

  /** The HTTP request is set exactly when the payload has an `httpRequest`
      key, and is decoded from its value. */
  lemma RecordHTTPRequest(c: Core, ze: ZapEntry, newFields: seq<Field>, rt: Runtime)
    requires AllReducible(newFields)
    requires WriteTyped(Payload(c.fields, ze, newFields, rt))
    ensures var p := Payload(c.fields, ze, newFields, rt);
      var h := Record(c, ze, newFields, rt).httpRequest;
      && (h.Some? <==> HTTPRequestKey in p)
      && (h.Some? ==> h.value == Decode(p[HTTPRequestKey].payload))
  {
  }

  /** The entry's header: timestamp, the mapped severity (Default for an
      unmapped level), the logger name as log name, and a source location
      exactly when the caller is known. */
  lemma RecordHeader(c: Core, ze: ZapEntry, newFields: seq<Field>, rt: Runtime)
    requires AllReducible(newFields)
    ensures var r := Record(c, ze, newFields, rt);
      && r.timestamp == ze.time
      && (ze.level in c.severityMapping ==> r.severity == c.severityMapping[ze.level])
      && (ze.level !in c.severityMapping ==> r.severity == Default)
      && r.logName == ze.loggerName
      && (r.sourceLocation.Some? <==> ze.caller.defined)
      && (ze.caller.defined ==> r.sourceLocation.value.file == ze.caller.file
                                && r.sourceLocation.value.line == ze.caller.line)
  {
  }

  /** Repeated With accumulates: deriving with F1 and then with F2 gives the
      core that deriving once with F1 + F2 gives. */
  lemma WithTwice(c: Core, f1: seq<Field>, f2: seq<Field>, rt: Runtime)
    requires AllReducible(f1) && AllReducible(f2)
    ensures AllReducible(f1 + f2)
    ensures c.With(f1, rt).With(f2, rt) == c.With(f1 + f2, rt)
  {
    AccumulateTwice(c.fields, f1, f2, rt);
  }

  /** Deriving a child never changes its parent: `Core{}` keeps no fields,
      its child holds only `foo`, and the grandchild holds `foo` and `baz`. */
  lemma WithScenario(rt: Runtime)
    ensures var c1 := Core(null, map[], 0, map[]);
      var c2 := c1.With([Field("foo", UnknownType, 0, "", AString("bar"))], rt);
      var c3 := c2.With([Field("baz", UnknownType, 0, "", AString("qux"))], rt);
      && c1.fields == map[]
      && c2.fields == map["foo" := AString("bar")]
      && c3.fields == map["foo" := AString("bar"), "baz" := AString("qux")]
  {
    var f2 := [Field("foo", UnknownType, 0, "", AString("bar"))];
    assert f2[..0] == [];
    var f3 := [Field("baz", UnknownType, 0, "", AString("qux"))];
    assert f3[..0] == [];
  }

  /** A core built without MinLevel gates at Info; one at Info rejects
      Debug, and one at Warn accepts Error. */
  lemma EnabledScenario(logger: Sink?)
    ensures forall l: Level :: Core(logger, map[], 0, map[]).Enabled(l) <==> l >= InfoLevel
    ensures !Core(logger, map[], InfoLevel, map[]).Enabled(DebugLevel)
    ensures Core(logger, map[], WarnLevel, map[]).Enabled(ErrorLevel)
  {
  }

  /** A payload without label, `httpRequest` or insertId keys is sent as it
      is, with no labels, no insertId and no HTTP request. */
  lemma RecordPlain(c: Core, ze: ZapEntry, newFields: seq<Field>, rt: Runtime)
    requires AllReducible(newFields)
    requires forall k :: k in Payload(c.fields, ze, newFields, rt) ==>
      !IsLabelKey(k) && k != HTTPRequestKey && k != InsertIDKey
    ensures Record(c, ze, newFields, rt)
         == Entry(ze.time, SeverityFor(c.severityMapping, ze.level), ze.loggerName,
                  Payload(c.fields, ze, newFields, rt), None, "", None, SourceLocationOf(ze, rt))
  {
    var p := Payload(c.fields, ze, newFields, rt);
    assert KeptFrom(p, p.Keys) - {InsertIDKey} == p;
    assert LabelNames(p, p.Keys) == {};
  }

  /** The first of two writes with the same entry on a core derived with
      `foo`: the record holds message, foo and the call's `baz`, at Warning
      severity with the logger name as log name and no labels or insertId. */
  lemma WriteScenario(logger: Sink, rt: Runtime, ts: int)
    ensures var c2 := Core(logger, DefaultSeverityMapping, 0, map[]).With(
              [Field("foo", UnknownType, 0, "", AString("bar"))], rt);
      var ze := ZapEntry(WarnLevel, ts, "test", "hello", EntryCaller(false, 0, "", 0), "");
      Record(c2, ze, [Field("baz", UnknownType, 0, "", AString("qux"))], rt)
        == Entry(ts, Warning, "test",
                 map["message" := AString("hello"), "foo" := AString("bar"), "baz" := AString("qux")],
                 None, "", None, None)
  {
    assert !IsLabelKey("baz") by { assert "baz"[0] != LabelsPrefix[0]; }
    ScenarioRecord(logger, rt, ts, "baz", "qux");
    assert map["foo" := AString("bar")]["baz" := AString("qux")]["message" := AString("hello")]
        == map["message" := AString("hello"), "foo" := AString("bar"), "baz" := AString("qux")];
  }

  /** The second write, on the same core, with field `asdf`: the record
      holds message, foo and asdf, and not the first call's `baz`. */
  lemma SecondWriteScenario(logger: Sink, rt: Runtime, ts: int)
    ensures var c2 := Core(logger, DefaultSeverityMapping, 0, map[]).With(
              [Field("foo", UnknownType, 0, "", AString("bar"))], rt);
      var ze := ZapEntry(WarnLevel, ts, "test", "hello", EntryCaller(false, 0, "", 0), "");
      Record(c2, ze, [Field("asdf", UnknownType, 0, "", AString("asdf"))], rt)
        == Entry(ts, Warning, "test",
                 map["message" := AString("hello"), "foo" := AString("bar"), "asdf" := AString("asdf")],
                 None, "", None, None)
  {
    assert !IsLabelKey("asdf") by { assert "asdf"[0] != LabelsPrefix[0]; }
    ScenarioRecord(logger, rt, ts, "asdf", "asdf");
    assert map["foo" := AString("bar")]["asdf" := AString("asdf")]["message" := AString("hello")]
        == map["message" := AString("hello"), "foo" := AString("bar"), "asdf" := AString("asdf")];
  }

  /** One write of the scenario above, with one field `key` that is no
      special key: the payload is sent as it is. */
  lemma ScenarioRecord(logger: Sink, rt: Runtime, ts: int, key: string, val: string)
    requires !IsLabelKey(key) && key != HTTPRequestKey && key != InsertIDKey
    ensures var c2 := Core(logger, DefaultSeverityMapping, 0, map[]).With(
              [Field("foo", UnknownType, 0, "", AString("bar"))], rt);
      var ze := ZapEntry(WarnLevel, ts, "test", "hello", EntryCaller(false, 0, "", 0), "");
      Record(c2, ze, [Field(key, UnknownType, 0, "", AString(val))], rt)
        == Entry(ts, Warning, "test",
                 map["foo" := AString("bar")][key := AString(val)]["message" := AString("hello")],
                 None, "", None, None)
  {
    var c2 := Core(logger, DefaultSeverityMapping, 0, map[]).With(
      [Field("foo", UnknownType, 0, "", AString("bar"))], rt);
    var ze := ZapEntry(WarnLevel, ts, "test", "hello", EntryCaller(false, 0, "", 0), "");
    assert !IsLabelKey("message") by { assert "message"[0] != LabelsPrefix[0]; }
    assert !IsLabelKey("foo") by { assert "foo"[0] != LabelsPrefix[0]; }
    ScenarioPayload(logger, rt, ts, key, val);
    RecordPlain(c2, ze, [Field(key, UnknownType, 0, "", AString(val))], rt);
  }

  /** The payload of a write of the scenario above with one field `key`:
      the core's foo, the call's field, then the message. */
  lemma ScenarioPayload(logger: Sink, rt: Runtime, ts: int, key: string, val: string)
    ensures var c2 := Core(logger, DefaultSeverityMapping, 0, map[]).With(
              [Field("foo", UnknownType, 0, "", AString("bar"))], rt);
      var ze := ZapEntry(WarnLevel, ts, "test", "hello", EntryCaller(false, 0, "", 0), "");
      Payload(c2.fields, ze, [Field(key, UnknownType, 0, "", AString(val))], rt)
        == map["foo" := AString("bar")][key := AString(val)]["message" := AString("hello")]
  {
    var f2 := [Field("foo", UnknownType, 0, "", AString("bar"))];
    var fb := [Field(key, UnknownType, 0, "", AString(val))];
    var parent := map["foo" := AString("bar")];
    AccumulateSnoc(map[], [], f2[0], rt);
    assert [] + [f2[0]] == f2;
    assert Accumulate(map[], f2, rt) == parent;
    AccumulateSnoc(parent, [], fb[0], rt);
    assert [] + [fb[0]] == fb;
    assert Accumulate(parent, fb, rt) == parent[key := AString(val)];
  }
}
