/** The X-Cloud-Trace-Context header parser of the tracing middleware
    (vendor/github.com/govargo/go-logger/middleware.go). The header's
    regular expression `([a-f\d]+)?(?:/([a-f\d]+))?(?:;o=(\d))?` has only
    optional parts, so its leftmost-first match always starts at position
    0 and every greedy choice succeeds; it is written here as a scanner
    over the string. */
module Middleware {
  import opened Values

  /** The trace the middleware attaches to a request's context. */
  datatype Trace = Trace(traceID: string, spanID: string, sampled: bool)

  /** The regular expression's class `[a-f\d]`. */
  predicate IsHex(c: char)
  {
    'a' <= c <= 'f' || '0' <= c <= '9'
  }

  /** The regular expression's class `\d`. */
  predicate IsDigit(c: char)
  {
    '0' <= c <= '9'
  }

  /** The length of the longest run of `[a-f\d]` at the start of `s`. */
  function HexRun(s: string): (n: nat)
    ensures n <= |s|
    ensures forall i :: 0 <= i < n ==> IsHex(s[i])
    ensures n < |s| ==> !IsHex(s[n])
  {
    if s != [] && IsHex(s[0]) then 1 + HexRun(s[1..]) else 0
  }

  /** The three capture groups of the match, each empty when unmatched,
      where the `;o=` part may start, and the length of the match. */
  datatype Groups = Groups(trace: string, span: string, flag: string, spanEnd: nat, end: nat)

  predicate AllHex(s: string)
  {
    forall i :: 0 <= i < |s| ==> IsHex(s[i])
  }

  /** Whether a `/SPAN_ID` part starts `rest`. */
  predicate HasSpan(rest: string)
  {
    |rest| >= 2 && rest[0] == '/' && IsHex(rest[1])
  }

  /** Whether a `;o=DIGIT` part starts `rest`. */
  predicate HasFlag(rest: string)
  {
    |rest| >= 4 && rest[..3] == ";o=" && IsDigit(rest[3])
  }

  /** How many characters the `(?:/([a-f\d]+))?` part takes at the start
      of `rest`: none, or the slash and the longest hex run after it. */
  function SpanLength(rest: string): (m: nat)
    ensures m <= |rest|
    ensures m == 0 <==> !HasSpan(rest)
    ensures m > 0 ==> m == 1 + HexRun(rest[1..])
  {
    if HasSpan(rest) then 1 + HexRun(rest[1..]) else 0
  }

  /** Where the trace and span parts of the match end in `s`. */
  function SpanEnd(s: string): (e: nat)
    ensures HexRun(s) <= e <= |s|
  {
    HexRun(s) + SpanLength(s[HexRun(s)..])
  }

  /** The match of the header's regular expression against `s`. */
  function Match(s: string): (g: Groups)
    ensures g.spanEnd <= g.end <= |s|
  {
    var t := HexRun(s);
    var spanEnd := SpanEnd(s);
    var afterSpan := s[spanEnd..];
    var flag := if HasFlag(afterSpan) then afterSpan[3..4] else "";
    var end := if HasFlag(afterSpan) then spanEnd + 4 else spanEnd;
    Groups(s[..t], if spanEnd == t then "" else s[t + 1..spanEnd], flag, spanEnd, end)
  }

  /** deconstructXCloudTraceContext: trace id, span id (a span of "0"
      becomes empty) and whether the sampled flag is "1". */
  function DeconstructXCloudTraceContext(s: string): (r: (string, string, bool))
    ensures r.0 <= s && r.1 != "0"
    ensures r.0 == Match(s).trace
    ensures r.1 == if Match(s).span == "0" then "" else Match(s).span
    ensures r.2 <==> Match(s).flag == "1"
  {
    var g := Match(s);
    (g.trace, if g.span == "0" then "" else g.span, g.flag == "1")
  }

  /** What the middleware attaches for a header value: nothing for an
      empty or missing header, the parsed trace otherwise. */
  function TraceForHeader(header: string): (t: Option<Trace>)
    ensures t.Some? <==> |header| > 0
    ensures t.Some? ==> (t.value.traceID, t.value.spanID, t.value.sampled) == DeconstructXCloudTraceContext(header)
  {
    if |header| > 0 then
      var (traceID, spanID, sampled) := DeconstructXCloudTraceContext(header);
      Some(Trace(traceID, spanID, sampled))
    else None
  }

  /** The trace id is the longest prefix of `[a-f\d]` characters: a header
      that starts with any other character has an empty trace id. */
  lemma TraceIDIsLongestHexPrefix(s: string)
    ensures var id := DeconstructXCloudTraceContext(s).0;
      && id <= s
      && (forall i :: 0 <= i < |id| ==> IsHex(id[i]))
      && (|id| < |s| ==> !IsHex(s[|id|]))
      && (s != [] && !IsHex(s[0]) ==> id == "")
  {
  }

  /** A span id is captured only when `/` directly follows the trace id and
      is followed by at least one `[a-f\d]` character, and it is then the
      longest such run. */
  lemma SpanCapture(s: string)
    ensures var g := Match(s);
      var rest := s[|g.trace|..];
      && (g.span != "" <==> HasSpan(rest))
      && (g.span != "" ==> rest[1..1 + |g.span|] == g.span
                           && (forall i :: 0 <= i < |g.span| ==> IsHex(g.span[i]))
                           && (1 + |g.span| < |rest| ==> !IsHex(rest[1 + |g.span|])))
  {
  }

  /** The sampled flag is true exactly when `;o=1` directly follows the
      trace and span parts; the span part ends after the trace id when no
      span was captured, and after the span id otherwise. */
  lemma SampledFlag(s: string)
    ensures var g := Match(s);
      && g.spanEnd == |g.trace| + (if g.span == "" then 0 else 1 + |g.span|)
      && (DeconstructXCloudTraceContext(s).2 <==> ";o=1" <= s[g.spanEnd..])
  {
    var g := Match(s);
    var afterSpan := s[g.spanEnd..];
    if HasFlag(afterSpan) {
      assert afterSpan[..4] == afterSpan[..3] + [afterSpan[3]];
    }
    if ";o=1" <= afterSpan {
      assert afterSpan[..3] == ";o=";
      assert afterSpan[3] == '1';
    }
  }

  /** A run of `[a-f\d]` is as long in any prefix of `s` that still
      contains the run and the character that ends it. */
  lemma {:induction false} HexRunOfPrefix(s: string, k: nat)
    requires HexRun(s) <= k <= |s|
    ensures HexRun(s[..k]) == HexRun(s)
  {
    if s != [] && IsHex(s[0]) {
      assert s[..k][1..] == s[1..][..k - 1];
      HexRunOfPrefix(s[1..], k - 1);
    }
  }

  /** The span part takes as much of any prefix of `rest` that still
      holds it. */
  lemma SpanLengthOfPrefix(rest: string, k: nat)
    requires SpanLength(rest) <= k <= |rest|
    ensures SpanLength(rest[..k]) == SpanLength(rest)
  {
    if HasSpan(rest) {
      assert HasSpan(rest[..k]);
      assert rest[..k][1..] == rest[1..][..k - 1];
      HexRunOfPrefix(rest[1..], k - 1);
    } else {
      assert !HasSpan(rest[..k]);
    }
  }

  /** Cutting `s` at `k` and then dropping `t` characters is dropping
      `t` characters and then cutting at `k - t`. */
  lemma DropOfTake(s: string, k: nat, t: nat)
    requires t <= k <= |s|
    ensures s[..k][t..] == s[t..][..k - t]
  {
  }

  /** The trace and span parts end at the same place in any prefix of
      `s` that still holds them. */
  lemma SpanEndOfPrefix(s: string, k: nat)
    requires SpanEnd(s) <= k <= |s|
    ensures HexRun(s[..k]) == HexRun(s)
    ensures SpanEnd(s[..k]) == SpanEnd(s)
  {
    var t := HexRun(s);
    var u := s[..k];
    var rest := s[t..];
    HexRunOfPrefix(s, k);
    assert HexRun(u) == t;
    assert SpanLength(rest) <= k - t <= |rest|;
    SpanLengthOfPrefix(rest, k - t);
    DropOfTake(s, k, t);
    assert u[t..] == rest[..k - t];
    assert SpanEnd(u) == t + SpanLength(u[t..]);
  }

  /** The trace and span parts of the match are the same in any prefix
      of `s` that still holds them. */
  lemma SpanPartOfPrefix(s: string, k: nat)
    requires SpanEnd(s) <= k <= |s|
    ensures Match(s[..k]).trace == Match(s).trace
    ensures Match(s[..k]).span == Match(s).span
    ensures Match(s[..k]).spanEnd == Match(s).spanEnd
  {
    SpanEndOfPrefix(s, k);
    var t := HexRun(s);
    var e := SpanEnd(s);
    assert s[..k][..t] == s[..t];
    if t < e {
      assert s[..k][t + 1..e] == s[t + 1..e];
    }
  }

  /** The flag part reads the same in any prefix of `rest` that still
      holds it. */
  lemma FlagOfPrefix(rest: string, k: nat)
    requires (if HasFlag(rest) then 4 else 0) <= k <= |rest|
    ensures HasFlag(rest[..k]) == HasFlag(rest)
    ensures HasFlag(rest) ==> rest[..k][3..4] == rest[3..4]
  {
    if HasFlag(rest) {
      assert rest[..k][..3] == rest[..3];
    } else if |rest[..k]| >= 4 {
      assert rest[..k][..3] == rest[..3];
    }
  }

  /** Characters after the match are ignored: any prefix of the header
      that still holds the whole match parses to the same trace, span and
      flag. */
  lemma MatchIgnoresRest(s: string, k: nat)
    requires Match(s).end <= k <= |s|
    ensures Match(s[..k]) == Match(s)
  {
    var g := Match(s);
    SpanPartOfPrefix(s, k);
    DropOfTake(s, k, g.spanEnd);
    FlagOfPrefix(s[g.spanEnd..], k - g.spanEnd);
  }

  /** A hex run followed by a character outside `[a-f\d]` has the run's length. */
  lemma {:induction false} HexRunOfHexPrefix(t: string, rest: string)
    requires AllHex(t)
    requires rest == [] || !IsHex(rest[0])
    ensures HexRun(t + rest) == |t|
  {
    if t != [] {
      assert (t + rest)[1..] == t[1..] + rest;
      HexRunOfHexPrefix(t[1..], rest);
    }
  }

  /** A trace id followed by span "0" and `;o=1` parses to that trace id,
      an empty span id and sampled true. */
  lemma {:induction false} ZeroSpanSampled(t: string)
    requires AllHex(t)
    ensures DeconstructXCloudTraceContext(t + "/0;o=1") == (t, "", true)
  {
    var s := t + "/0;o=1";
    HexRunOfHexPrefix(t, "/0;o=1");
    assert s[..|t|] == t;
    var afterTrace := s[|t|..];
    assert afterTrace == "/0;o=1";
    HexRunOfHexPrefix("0", ";o=1");
    assert afterTrace[1..] == "0" + ";o=1";
    assert s[|t| + 2..] == ";o=1";
    assert Match(s).trace == t && Match(s).span == "0" && Match(s).flag == "1";
  }

  /** The example header from the Cloud Trace documentation: trace id
      kept, span "0" dropped, sampled. */
  lemma ExampleHeader()
    ensures DeconstructXCloudTraceContext("105445aa7843bc8bf206b120001000/0;o=1")
         == ("105445aa7843bc8bf206b120001000", "", true)
  {
    ExampleTraceIsHex();
    ZeroSpanSampled("105445aa7843bc8bf206b120001000");
    assert "105445aa7843bc8bf206b120001000" + "/0;o=1" == "105445aa7843bc8bf206b120001000/0;o=1";
  }

  /** The example's trace id is a run of hex characters. */
  lemma ExampleTraceIsHex()
    ensures AllHex("105445aa7843bc8bf206b120001000")
  {
  }
}
