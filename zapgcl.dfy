/** The zapcore.Core that writes to Cloud Logging (zapgcl.go): deriving
    children with more fields, the level gate, the write protocol that
    turns a zap entry into a Cloud Logging entry, flushing, and the choice
    of minimum level when it is teed with another core. */
module ZapGcl {
  import opened Values
  import opened Fields
  import opened Levels
  import opened CloudLogging

  /** The payload key that sets an entry's insertId. */
  const InsertIDKey := "logging.googleapis.com/insertId"
  /** Payload keys with this prefix become labels. */
  const LabelsPrefix := "labels."
  /** The payload key holding a zapdriver.HTTPPayload. */
  const HTTPRequestKey := "httpRequest"
  const StackKey := "stack"
  const MessageKey := "message"

  /** zapcore.EntryCaller */
  datatype EntryCaller = EntryCaller(defined: bool, pc: int, file: string, line: int)

  /** zapcore.Entry */
  datatype ZapEntry = ZapEntry(
    level: Level,
    time: int,
    loggerName: string,
    message: string,
    caller: EntryCaller,
    stack: string)

  /** zapcore.CheckedEntry: an entry and the cores that will write it. */
  datatype CheckedEntry = CheckedEntry(entry: ZapEntry, cores: seq<Core>)

  /** The cores a checked entry lists; a nil checked entry lists none. */
  function CoresOf(ce: Option<CheckedEntry>): seq<Core>
  {
    if ce.None? then [] else ce.value.cores
  }

  /** CheckedEntry.AddCore: creates the checked entry if it is nil, then
      appends the core. */
  function AddCore(ce: Option<CheckedEntry>, e: ZapEntry, c: Core): Option<CheckedEntry>
  {
    if ce.None? then Some(CheckedEntry(e, [c]))
    else Some(ce.value.(cores := ce.value.cores + [c]))
  }

  predicate IsLabelKey(k: string)
  {
    LabelsPrefix <= k
  }

  /** The payload `Write` builds before extracting special keys: the core's
      fields overridden by the call-site fields, then `stack` when the entry
      has a stack trace, then `message`. */
  function Payload(fields: map<string, Any>, ze: ZapEntry, newFields: seq<Field>, rt: Runtime): (p: map<string, Any>)
    requires AllReducible(newFields)
    ensures MessageKey in p && p[MessageKey] == AString(ze.message)
    ensures ze.stack != "" ==> StackKey in p && p[StackKey] == AString(ze.stack)
    ensures fields.Keys <= p.Keys
  {
    var acc := Accumulate(fields, newFields, rt);
    var withStack := if ze.stack != "" then acc[StackKey := AString(ze.stack)] else acc;
    withStack[MessageKey := AString(ze.message)]
  }

  /** The type assertions `Write` makes succeed: every label value is a
      string and an `httpRequest` value is a *zapdriver.HTTPPayload. */
  predicate WriteTyped(p: map<string, Any>)
  {
    && (forall k :: k in p && IsLabelKey(k) ==> p[k].AString?)
    && (HTTPRequestKey in p ==> p[HTTPRequestKey].AHTTPPayload?)
  }

  /** The label names of the label keys of `p` that lie in `done`. */
  function LabelNames(p: map<string, Any>, done: set<string>): set<string>
  {
    set k | k in done && k in p && IsLabelKey(k) :: k[|LabelsPrefix|..]
  }

  /** The text stored under label `x`. */
  function LabelValue(p: map<string, Any>, x: string): string
  {
    var k := LabelsPrefix + x;
    if k in p && p[k].AString? then p[k].s else ""
  }

  /** The labels gathered once the keys in `done` have been visited:
      nil until a label key has been seen. */
  function LabelsFrom(p: map<string, Any>, done: set<string>): Option<map<string, string>>
  {
    var names := LabelNames(p, done);
    if names == {} then None else Some(map x | x in names :: LabelValue(p, x))
  }

  /** The payload once the keys in `done` have been visited: the label and
      `httpRequest` keys among them are gone. */
  function KeptFrom(p: map<string, Any>, done: set<string>): map<string, Any>
  {
    map k | k in p && !(k in done && (IsLabelKey(k) || k == HTTPRequestKey)) :: p[k]
  }

  /** gcl.HTTPRequest filled from a zapdriver.HTTPPayload. */
  function Decode(h: HTTPPayload): (r: HTTPRequest)
    ensures r.requestMethod == h.requestMethod && r.url == h.requestURL
    ensures r.userAgent == h.userAgent && r.referer == h.referer
    ensures r.requestSize == h.requestSize && r.responseSize == h.responseSize
    ensures r.status == h.status && r.latency == h.latency
    ensures r.localIP == h.serverIP && r.remoteIP == h.remoteIP
    ensures r.cacheHit == h.cacheHit && r.cacheValidatedWithOriginServer == h.cacheValidatedWithOriginServer
  {
    HTTPRequest(h.requestMethod, h.requestURL, h.userAgent, h.referer, h.requestSize,
                h.status, h.responseSize, h.latency, h.serverIP, h.remoteIP,
                h.cacheHit, h.cacheValidatedWithOriginServer)
  }

  function HTTPRequestFrom(p: map<string, Any>, done: set<string>): Option<HTTPRequest>
  {
    if HTTPRequestKey in done && HTTPRequestKey in p && p[HTTPRequestKey].AHTTPPayload?
    then Some(Decode(p[HTTPRequestKey].payload))
    else None
  }

  /** The insertId: the `InsertIDKey` value when it is a string, else empty. */
  function InsertIDOf(p: map<string, Any>): string
  {
    if InsertIDKey in p && p[InsertIDKey].AString? then p[InsertIDKey].s else ""
  }

  function SourceLocationOf(ze: ZapEntry, rt: Runtime): Option<SourceLocation>
  {
    if ze.caller.defined
    then Some(SourceLocation(ze.caller.file, ze.caller.line, rt.funcName(ze.caller.pc)))
    else None
  }

  /** The Cloud Logging entry that one `Write` of `ze` with `newFields` on
      `c` hands to the sink. */
  function Record(c: Core, ze: ZapEntry, newFields: seq<Field>, rt: Runtime): (r: Entry)
    requires AllReducible(newFields)
    ensures r.timestamp == ze.time && r.logName == ze.loggerName
    ensures r.severity == SeverityFor(c.severityMapping, ze.level)
    ensures InsertIDKey !in r.payload && HTTPRequestKey !in r.payload
    ensures forall k :: k in r.payload ==> !IsLabelKey(k)
  {
    var p := Payload(c.fields, ze, newFields, rt);
    Entry(
      ze.time,
      SeverityFor(c.severityMapping, ze.level),
      ze.loggerName,
      KeptFrom(p, p.Keys) - {InsertIDKey},
      LabelsFrom(p, p.Keys),
      InsertIDOf(p),
      HTTPRequestFrom(p, p.Keys),
      SourceLocationOf(ze, rt))
  }

  const PackageName := "gcloudzap"

  /** newError as written: `fmt.Errorf(packageName+": "+format, args)`
      passes the argument list as one slice value, so `%v` renders the
      cause inside brackets. */
  function NewErrorAsWritten(context: string, cause: string): (t: string)
    ensures PackageName + ": " + context + ": [" <= t
    ensures t[|t| - 1] == ']'
  {
    PackageName + ": " + context + ": [" + cause + "]"
  }

  /** newError as evidently intended (`args...`): the package name, the
      context and the cause's text, separated by ": ". */
  function NewError(context: string, cause: string): (t: string)
    ensures PackageName + ": " + context + ": " <= t
    ensures t[|PackageName + ": " + context + ": "|..] == cause
  {
    var prefix := PackageName + ": " + context + ": ";
    assert (prefix + cause)[|prefix|..] == cause;
    prefix + cause
  }

  /** As written, the text after the context is never the cause's text:
      it is that text in brackets, two characters longer. A flush failure
      "deadline exceeded" reads "gcloudzap: flushing Google Cloud logger:
      [deadline exceeded]". */
  lemma NewErrorBrackets(context: string, cause: string)
    ensures var prefix := PackageName + ": " + context + ": ";
      var t := NewErrorAsWritten(context, cause);
      prefix <= t && t[|prefix|..] == "[" + cause + "]" && t != NewError(context, cause)
  {
    var prefix := PackageName + ": " + context + ": ";
    var t := NewErrorAsWritten(context, cause);
    assert t == prefix + ("[" + cause + "]");
    assert |t| == |NewError(context, cause)| + 2;
  }

  /** gcloudzap.Core. The zero value (no logger, no mapping, MinLevel 0)
      is what `Core{}` builds. */
  datatype Core = Core(
    logger: Sink?,
    severityMapping: map<Level, Severity>,
    minLevel: Level,
    fields: map<string, Any>)
  {
    /** Enabled: an entry is written iff its level is at least MinLevel. */
    predicate Enabled(l: Level)
      ensures Enabled(l) <==> minLevel <= l
    {
      l >= minLevel
    }

    /** With: a child core with the same logger, mapping and minimum level,
        whose fields are this core's with `newFields` stored on top. */
    function With(newFields: seq<Field>, rt: Runtime): (child: Core)
      requires AllReducible(newFields)
      ensures child.logger == logger && child.severityMapping == severityMapping
      ensures child.minLevel == minLevel
      ensures child.fields == Accumulate(fields, newFields, rt)
      ensures forall k :: k in fields && LastWriter(newFields, k).None? ==>
        k in child.fields && child.fields[k] == fields[k]
    {
      var child := Core(logger, severityMapping, minLevel, Accumulate(fields, newFields, rt));
      forall k | k in fields && LastWriter(newFields, k).None?
        ensures k in child.fields && child.fields[k] == fields[k]
      {
        AccumulateAt(fields, newFields, rt, k);
      }
      child
    }

    /** Check: adds this core to the checked entry exactly when the entry's
        level reaches MinLevel, and leaves it as it is otherwise. */
    function Check(e: ZapEntry, ce: Option<CheckedEntry>): (r: Option<CheckedEntry>)
      ensures e.level >= minLevel ==> r.Some? && CoresOf(r) == CoresOf(ce) + [this]
      ensures e.level >= minLevel && ce.None? ==> r.value.entry == e
      ensures e.level >= minLevel && ce.Some? ==> r.value.entry == ce.value.entry
      ensures e.level < minLevel ==> r == ce
    {
      if Enabled(e.level) then AddCore(ce, e, this) else ce
    }

    /** Write: builds the payload, moves the label, HTTP request and insertId
        keys out of it, and hands the resulting entry to the logger once. */
    method Write(ze: ZapEntry, newFields: seq<Field>, rt: Runtime) returns (err: Option<Error>)
      requires logger != null
      requires AllReducible(newFields)
      requires WriteTyped(Payload(fields, ze, newFields, rt))
      modifies logger
      ensures err.None?
      ensures logger.entries == old(logger.entries) + [Record(this, ze, newFields, rt)]
      ensures logger.flushed == old(logger.flushed) && logger.flushError == old(logger.flushError)
    {
      var severity := if ze.level in severityMapping then severityMapping[ze.level] else Default;

      var payload := Clone(fields, newFields, rt);
      if ze.stack != "" {
        payload := payload[StackKey := AString(ze.stack)];
      }
      payload := payload[MessageKey := AString(ze.message)];
      ghost var p := payload;
      assert p == Payload(fields, ze, newFields, rt);

      var logName := "";
      if ze.loggerName != "" {
        logName := ze.loggerName;
      }

      var labels, httpRequest;
      payload, labels, httpRequest := ExtractSpecialKeys(payload);
      InsertIDSurvives(p);

      var insertID := "";
      if InsertIDKey in payload && payload[InsertIDKey].AString? && payload[InsertIDKey].s != "" {
        insertID := payload[InsertIDKey].s;
      }
      assert insertID == InsertIDOf(p);
      payload := payload - {InsertIDKey};

      var location: Option<SourceLocation> := None;
      if ze.caller.defined {
        location := Some(SourceLocation(ze.caller.file, ze.caller.line, rt.funcName(ze.caller.pc)));
      }

      logger.Log(Entry(ze.time, severity, logName, payload, labels, insertID, httpRequest, location));
      err := None;
    }

    /** Sync: flushes the logger; a flush failure comes back as a gcloudzap
        error whose text ends with the failure's own text. */
    method Sync() returns (err: Option<Error>)
      requires logger != null
      modifies logger
      ensures logger.flushed
      ensures logger.entries == old(logger.entries) && logger.flushError == old(logger.flushError)
      ensures err.None? <==> old(logger.flushError).None?
      ensures err.Some? ==>
        err.value.text == NewError("flushing Google Cloud logger", old(logger.flushError).value.text)
    {
      var e := logger.Flush();
      if e.Some? {
        return Some(Failure(NewError("flushing Google Cloud logger", e.value.text)));
      }
      return None;
    }
  }

  /** The loop of `Write` over the payload: visits every key once, in any
      order, moving each label key into the labels under its suffix and
      the `httpRequest` key into the HTTP request, deleting both from the
      payload. The outcome is the same whatever the visiting order. */
  method ExtractSpecialKeys(p: map<string, Any>)
    returns (payload: map<string, Any>, labels: Option<map<string, string>>, httpRequest: Option<HTTPRequest>)
    requires WriteTyped(p)
    ensures payload == KeptFrom(p, p.Keys)
    ensures labels == LabelsFrom(p, p.Keys)
    ensures httpRequest == HTTPRequestFrom(p, p.Keys)
  {
    payload := p;
    labels := None;
    httpRequest := None;
    var pending := p.Keys;
    while pending != {}
      invariant pending <= p.Keys
      invariant payload == KeptFrom(p, p.Keys - pending)
      invariant labels == LabelsFrom(p, p.Keys - pending)
      invariant httpRequest == HTTPRequestFrom(p, p.Keys - pending)
      decreases pending
    {
      var k :| k in pending;
      ghost var done := p.Keys - pending;
      assert k in payload;
      var v := payload[k];
      if IsLabelKey(k) {
        VisitLabelKey(p, done, k);
        if labels.None? || |labels.value| == 0 {
          labels := Some(map[]);
        }
        labels := Some(labels.value[k[|LabelsPrefix|..] := v.s]);
        payload := payload - {k};
      } else if k == HTTPRequestKey {
        VisitHTTPRequestKey(p, done);
        httpRequest := Some(Decode(v.payload));
        payload := payload - {k};
      } else {
        VisitOtherKey(p, done, k);
      }
      pending := pending - {k};
      assert p.Keys - pending == done + {k};
    }
    assert p.Keys - pending == p.Keys;
  }

  /** The insertId key is neither a label key nor `httpRequest`, so the
      loop over the payload leaves it, and its value, in place. */
  lemma InsertIDSurvives(p: map<string, Any>)
    ensures InsertIDKey in KeptFrom(p, p.Keys) <==> InsertIDKey in p
    ensures InsertIDKey in p ==> KeptFrom(p, p.Keys)[InsertIDKey] == p[InsertIDKey]
  {
    assert !IsLabelKey(InsertIDKey) by { assert InsertIDKey[1] != LabelsPrefix[1]; }
  }

  /** One visit of a label key `k` adds the label named by its suffix. */
  lemma LabelsStep(p: map<string, Any>, done: set<string>, k: string)
    requires k in p && k !in done && IsLabelKey(k) && p[k].AString?
    ensures LabelsFrom(p, done + {k}) ==
      Some((if LabelsFrom(p, done).None? then map[] else LabelsFrom(p, done).value)[k[|LabelsPrefix|..] := p[k].s])
  {
    var x := k[|LabelsPrefix|..];
    assert LabelsPrefix + x == k;
    var names := LabelNames(p, done);
    assert LabelNames(p, done + {k}) == names + {x};
    var before := if names == {} then map[] else map y | y in names :: LabelValue(p, y);
    assert before == map y | y in names :: LabelValue(p, y);
    assert LabelValue(p, x) == p[k].s;
    assert (map y | y in names + {x} :: LabelValue(p, y)) == before[x := p[k].s];
  }

  /** Visiting a label key removes it from the payload, adds its label and
      leaves the HTTP request alone. */
  lemma VisitLabelKey(p: map<string, Any>, done: set<string>, k: string)
    requires k in p && k !in done && IsLabelKey(k) && p[k].AString?
    ensures KeptFrom(p, done + {k}) == KeptFrom(p, done) - {k}
    ensures LabelsFrom(p, done + {k}) ==
      Some((if LabelsFrom(p, done).None? then map[] else LabelsFrom(p, done).value)[k[|LabelsPrefix|..] := p[k].s])
    ensures HTTPRequestFrom(p, done + {k}) == HTTPRequestFrom(p, done)
  {
    LabelsStep(p, done, k);
    assert k != HTTPRequestKey by { assert HTTPRequestKey[0] != LabelsPrefix[0]; }
  }

  /** Visiting the `httpRequest` key removes it from the payload, sets the
      HTTP request and leaves the labels alone. */
  lemma VisitHTTPRequestKey(p: map<string, Any>, done: set<string>)
    requires HTTPRequestKey in p && HTTPRequestKey !in done && p[HTTPRequestKey].AHTTPPayload?
    ensures KeptFrom(p, done + {HTTPRequestKey}) == KeptFrom(p, done) - {HTTPRequestKey}
    ensures LabelsFrom(p, done + {HTTPRequestKey}) == LabelsFrom(p, done)
    ensures HTTPRequestFrom(p, done + {HTTPRequestKey}) == Some(Decode(p[HTTPRequestKey].payload))
  {
    assert !IsLabelKey(HTTPRequestKey) by { assert HTTPRequestKey[0] != LabelsPrefix[0]; }
    assert LabelNames(p, done + {HTTPRequestKey}) == LabelNames(p, done);
  }

  /** Visiting any other key changes nothing. */
  lemma VisitOtherKey(p: map<string, Any>, done: set<string>, k: string)
    requires !IsLabelKey(k) && k != HTTPRequestKey
    ensures KeptFrom(p, done + {k}) == KeptFrom(p, done)
    ensures LabelsFrom(p, done + {k}) == LabelsFrom(p, done)
    ensures HTTPRequestFrom(p, done + {k}) == HTTPRequestFrom(p, done)
  {
    assert LabelNames(p, done + {k}) == LabelNames(p, done);
  }

  /** A level gate that, once it accepts a level, accepts every higher one. */
  ghost predicate Monotone(enabled: Level -> bool)
  {
    forall a: Level, b: Level :: a <= b && enabled(a) ==> enabled(b)
  }

  /** Tee's loop: the Cloud Logging core's MinLevel is the first level from
      Debug to Fatal that the other core enables, and stays 0 (Info) when it
      enables none of them. */
  method Tee(zcEnabled: Level -> bool, logger: Sink) returns (gc: Core)
    ensures gc.logger == logger && gc.severityMapping == DefaultSeverityMapping
    ensures gc.fields == map[]
    ensures DebugLevel <= gc.minLevel <= FatalLevel && zcEnabled(gc.minLevel) ==>
      forall l: Level :: DebugLevel <= l < gc.minLevel ==> !zcEnabled(l)
    ensures (exists l: Level :: DebugLevel <= l <= FatalLevel && zcEnabled(l)) ==>
      DebugLevel <= gc.minLevel <= FatalLevel && zcEnabled(gc.minLevel)
    ensures (forall l: Level :: DebugLevel <= l <= FatalLevel ==> !zcEnabled(l)) ==> gc.minLevel == 0
    ensures forall l: Level :: DebugLevel <= l <= FatalLevel && zcEnabled(l) ==> gc.Enabled(l)
    ensures Monotone(zcEnabled) && zcEnabled(FatalLevel) ==>
      forall l: Level :: DebugLevel <= l <= FatalLevel ==> (gc.Enabled(l) <==> zcEnabled(l))
  {
    gc := Core(logger, DefaultSeverityMapping, 0, map[]);
    var l: Level := DebugLevel;
    while l <= FatalLevel
      invariant DebugLevel <= l <= FatalLevel + 1
      invariant gc == Core(logger, DefaultSeverityMapping, 0, map[])
      invariant forall j: Level :: DebugLevel <= j < l ==> !zcEnabled(j)
    {
      if zcEnabled(l) {
        gc := gc.(minLevel := l);
        return;
      }
      l := l + 1;
    }
  }
}
