/** zap's log levels, Cloud Logging's severities and the lookup from one
    to the other (zapgcl.go). */
module Levels {

  /** zapcore.Level, an int8. */
  type Level = x: int | -128 <= x < 128

  const DebugLevel: Level := -1
  const InfoLevel: Level := 0
  const WarnLevel: Level := 1
  const ErrorLevel: Level := 2
  const DPanicLevel: Level := 3
  const PanicLevel: Level := 4
  const FatalLevel: Level := 5

  /** The Cloud Logging severities (gcl.Severity). */
  datatype Severity = Default | Debug | Info | Notice | Warning | Error | Critical | Alert | Emergency

  /** The numeric value Cloud Logging gives each severity; it orders them. */
  function Code(s: Severity): int
  {
    match s
    case Default => 0
    case Debug => 100
    case Info => 200
    case Notice => 300
    case Warning => 400
    case Error => 500
    case Critical => 600
    case Alert => 700
    case Emergency => 800
  }

  /** DefaultSeverityMapping */
  const DefaultSeverityMapping: map<Level, Severity> := map[
    DebugLevel := Debug,
    InfoLevel := Info,
    WarnLevel := Warning,
    ErrorLevel := Error,
    DPanicLevel := Critical,
    PanicLevel := Critical,
    FatalLevel := Critical]

  /** The severity `Write` gives an entry of level `l`: the mapping's entry
      for `l`, and Default for a level the mapping lacks, never an error. */
  function SeverityFor(mapping: map<Level, Severity>, l: Level): (s: Severity)
    ensures l in mapping ==> s == mapping[l]
    ensures l !in mapping ==> s == Default
  {
    if l in mapping then mapping[l] else Default
  }

  /** The default table sends Debug to Debug, Info to Info, Warn to
      Warning, Error to Error and the three panic/fatal levels to Critical;
      every other level falls back to Default. */
  lemma DefaultMapping(l: Level)
    ensures SeverityFor(DefaultSeverityMapping, l) ==
      if l == DebugLevel then Debug
      else if l == InfoLevel then Info
      else if l == WarnLevel then Warning
      else if l == ErrorLevel then Error
      else if DPanicLevel <= l <= FatalLevel then Critical
      else Default
  {
  }

  /** The default table is monotone: a more severe zap level never maps to
      a less severe Cloud Logging severity, and no zap level from Debug to
      Fatal maps to Default. */
  lemma DefaultMappingMonotone(l1: Level, l2: Level)
    requires DebugLevel <= l1 <= l2 <= FatalLevel
    ensures Code(Debug) <= Code(SeverityFor(DefaultSeverityMapping, l1))
    ensures Code(SeverityFor(DefaultSeverityMapping, l1)) <= Code(SeverityFor(DefaultSeverityMapping, l2))
  {
    DefaultMapping(l1);
    DefaultMapping(l2);
  }
}
