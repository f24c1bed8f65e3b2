/** The Cloud Logging side of the core: the entry record it sends and the
    GoogleCloudLogger interface it sends it through (zapgcl.go). */
module CloudLogging {
  import opened Values
  import opened Levels

  /** A Go error value, known by the text its `Error()` method returns. */
  datatype Error = Failure(text: string)

  /** gcl.HTTPRequest as `Write` fills it from a zapdriver.HTTPPayload.
      The URL, the two sizes and the latency are kept as the text the
      payload carries. */
  datatype HTTPRequest = HTTPRequest(
    requestMethod: string,
    url: string,
    userAgent: string,
    referer: string,
    requestSize: string,
    status: int,
    responseSize: string,
    latency: string,
    localIP: string,
    remoteIP: string,
    cacheHit: bool,
    cacheValidatedWithOriginServer: bool)

  /** logpb.LogEntrySourceLocation */
  datatype SourceLocation = SourceLocation(file: string, line: int, functionName: string)

  /** gcl.Entry. `labels` is None where Go leaves the map nil. */
  datatype Entry = Entry(
    timestamp: int,
    severity: Severity,
    logName: string,
    payload: map<string, Any>,
    labels: Option<map<string, string>>,
    insertID: string,
    httpRequest: Option<HTTPRequest>,
    sourceLocation: Option<SourceLocation>)

  /** A GoogleCloudLogger: `Log` buffers an entry, `Flush` hands the buffer
      to the transport and reports the transport's outcome, `flushError`. */
  class Sink {
    ghost var entries: seq<Entry>
    var flushed: bool
    var flushError: Option<Error>

    constructor (flushError: Option<Error>)
      ensures entries == [] && !flushed && this.flushError == flushError
    {
      entries := [];
      flushed := false;
      this.flushError := flushError;
    }

    method Log(e: Entry)
      modifies this
      ensures entries == old(entries) + [e]
      ensures flushed == old(flushed) && flushError == old(flushError)
    {
      entries := entries + [e];
    }

    method Flush() returns (err: Option<Error>)
      modifies this
      ensures err == flushError && flushed
      ensures entries == old(entries) && flushError == old(flushError)
    {
      flushed := true;
      err := flushError;
    }
  }
}
