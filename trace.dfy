/** The fields that group a request's log lines in Cloud Logging
    (vendor/github.com/govargo/go-logger/trace.go): the trace, span and
    sampled fields built from the trace the middleware attached. */
module TraceFields {
  import opened Values
  import opened Fields
  import opened Middleware

  const TraceKey := "logging.googleapis.com/trace"
  const SpanKey := "logging.googleapis.com/spanId"
  const TraceSampledKey := "logging.googleapis.com/trace_sampled"

  /** The trace resource name Cloud Logging expects. */
  function TraceName(projectName: string, trace: string): string
  {
    "projects/" + projectName + "/traces/" + trace
  }

  /** The three keys are distinct, so the three fields never overwrite
      each other. */
  lemma KeysDistinct()
    ensures TraceKey != SpanKey && TraceKey != TraceSampledKey && SpanKey != TraceSampledKey
  {
    assert TraceKey[24] != SpanKey[24];
    assert TraceKey[24] != TraceSampledKey[29];
    assert |SpanKey| != |TraceSampledKey|;
  }

  /** addCloudLoggingFields: a string field holding the trace resource
      name, a string field holding the span id and a bool field holding the
      sampled flag. */
  function AddCloudLoggingFields(trace: string, spanId: string, sampled: bool, projectName: string): (r: seq<Field>)
    ensures |r| == 3 && AllReducible(r)
    ensures r[0].key == TraceKey && r[1].key == SpanKey && r[2].key == TraceSampledKey
    ensures forall i :: 0 <= i < 3 ==> !r[i].kind.SkipType?
  {
    [StringField(TraceKey, TraceName(projectName, trace)),
     StringField(SpanKey, spanId),
     BoolField(TraceSampledKey, sampled)]
  }

  /** TraceContext: the three Cloud Logging fields for the context's trace,
      or three Skip fields when the context carries none. The project name,
      read from GOOGLE_CLOUD_PROJECT, is a parameter. */
  function TraceContext(t: Option<Trace>, projectName: string): (r: seq<Field>)
    ensures |r| == 3 && AllReducible(r)
    ensures t.None? <==> forall i :: 0 <= i < 3 ==> r[i].kind.SkipType?
    ensures t.Some? ==> r == AddCloudLoggingFields(t.value.traceID, t.value.spanID, t.value.sampled, projectName)
  {
    match t
    case Some(tr) => AddCloudLoggingFields(tr.traceID, tr.spanID, tr.sampled, projectName)
    case None => [SkipField(), SkipField(), SkipField()]
  }

  /** Logging the three fields stores the trace resource name, the span id
      and the sampled flag under their keys and leaves every other key of
      the logger's fields as it was. */
  lemma {:induction false} TraceFieldsStored(m: map<string, Any>, trace: string, spanId: string, sampled: bool,
                                             projectName: string, rt: Runtime)
    ensures Accumulate(m, AddCloudLoggingFields(trace, spanId, sampled, projectName), rt)
         == m[TraceKey := AString(TraceName(projectName, trace))]
             [SpanKey := AString(spanId)]
             [TraceSampledKey := ABool(sampled)]
  {
    var fs := AddCloudLoggingFields(trace, spanId, sampled, projectName);
    AccumulateThree(m, fs[0], fs[1], fs[2], rt);
    assert fs == [fs[0], fs[1], fs[2]];
  }

  /** The trace resource name gives back the trace id: it is the text
      after the project's `/traces/` prefix. */
  lemma TraceNameRoundTrip(projectName: string, trace: string)
    ensures var name := TraceName(projectName, trace);
      var prefix := "projects/" + projectName + "/traces/";
      prefix <= name && name[|prefix|..] == trace
  {
    var prefix := "projects/" + projectName + "/traces/";
    assert TraceName(projectName, trace) == prefix + trace;
  }

  /** Without a trace the three Skip fields leave the logger's fields as
      they were. */
  lemma {:induction false} NoTraceStoresNothing(m: map<string, Any>, projectName: string, rt: Runtime)
    ensures Accumulate(m, TraceContext(None, projectName), rt) == m
  {
    AccumulateThree(m, SkipField(), SkipField(), SkipField(), rt);
  }

  /** From header to payload: a request whose header carries a trace id,
      span "0" and `;o=1` logs the trace resource name, an empty span id
      (span "0" is dropped) and sampled true. */
  lemma ZeroSpanHeaderFields(m: map<string, Any>, traceID: string, projectName: string, rt: Runtime)
    requires AllHex(traceID)
    ensures var t := TraceForHeader(traceID + "/0;o=1");
      Accumulate(m, TraceContext(t, projectName), rt)
        == m[TraceKey := AString(TraceName(projectName, traceID))]
            [SpanKey := AString("")]
            [TraceSampledKey := ABool(true)]
  {
    ZeroSpanSampled(traceID);
    assert |traceID + "/0;o=1"| > 0;
    TraceFieldsStored(m, traceID, "", true, projectName, rt);
  }
}
