/** Go's dynamic values as they travel through a zap field's `Interface`
    slot and through the payload map handed to Cloud Logging, and Go's
    fixed-width integer conversions. */
module Values {

  datatype Option<+T> = None | Some(value: T)

  /** A Go `int64`, the type of `zapcore.Field.Integer`. */
  type Int64 = x: int | -0x8000_0000_0000_0000 <= x < 0x8000_0000_0000_0000

  /** The integer types a Go value can have. `Int` and `Uint` are Go's
      platform-sized `int`/`uint`, taken here as 64 bits wide, as is `Uintptr`. */
  datatype IntKind =
    | Int | Int64Kind | Int32Kind | Int16Kind | Int8Kind
    | Uint | Uint64Kind | Uint32Kind | Uint16Kind | Uint8Kind | Uintptr

  function Bits(k: IntKind): nat
  {
    match k
    case Int | Int64Kind | Uint | Uint64Kind | Uintptr => 64
    case Int32Kind | Uint32Kind => 32
    case Int16Kind | Uint16Kind => 16
    case Int8Kind | Uint8Kind => 8
  }

  predicate Signed(k: IntKind)
  {
    k.Int? || k.Int64Kind? || k.Int32Kind? || k.Int16Kind? || k.Int8Kind?
  }

  /** 2^Bits(k), the number of values of kind `k`. */
  function Modulus(k: IntKind): (m: nat)
    ensures m > 1
  {
    match Bits(k)
    case 64 => 0x1_0000_0000_0000_0000
    case 32 => 0x1_0000_0000
    case 16 => 0x1_0000
    case _ => 0x100
  }

  /** Smallest value of kind `k`. */
  function MinOf(k: IntKind): int
  {
    if Signed(k) then -(Modulus(k) / 2) else 0
  }

  /** One past the largest value of kind `k`. */
  function LimitOf(k: IntKind): int
  {
    if Signed(k) then Modulus(k) / 2 else Modulus(k)
  }

  predicate InRange(k: IntKind, x: int)
  {
    MinOf(k) <= x < LimitOf(k)
  }

  /** Go's conversion `T(x)` of an integer to the integer type `T` of kind
      `k`: two's-complement truncation to Bits(k) bits, reinterpreted as
      signed when `T` is signed. The result is the unique value of kind `k`
      congruent to `x`, and `x` itself whenever `x` already fits. */
  function Convert(k: IntKind, x: int): (r: int)
    ensures InRange(k, r)
    ensures (r - x) % Modulus(k) == 0
    ensures InRange(k, x) ==> r == x
  {
    var m := Modulus(k);
    var low := x % m;
    if Signed(k) && low >= m / 2 then low - m else low
  }

  /** A value stored in an int64 and converted back to its own width is
      unchanged, for every integer type up to 64 bits, unsigned ones
      included. */
  lemma ConvertThroughInt64(k: IntKind, i: int)
    requires InRange(k, i)
    ensures Convert(k, Convert(Int64Kind, i)) == i
  {
    if !InRange(Int64Kind, i) {
      assert !Signed(k) && Bits(k) == 64;
      assert Convert(Int64Kind, i) == i - 0x1_0000_0000_0000_0000;
    }
  }

  /** zapdriver.HTTPPayload: the request/response description a caller
      attaches under the `httpRequest` key. */
  datatype HTTPPayload = HTTPPayload(
    requestMethod: string,
    requestURL: string,
    requestSize: string,
    status: int,
    responseSize: string,
    userAgent: string,
    remoteIP: string,
    serverIP: string,
    referer: string,
    latency: string,
    cacheHit: bool,
    cacheValidatedWithOriginServer: bool)

  /** A Go value of static type `interface{}`. Only the dynamic types the
      core inspects are distinguished; every other value is an `AObject`
      that carries, when its type has them, the results of its `String()`
      and `Error()` methods. */
  datatype Any =
    | Nil
    | AString(s: string)
    | ABool(b: bool)
    | AInt(kind: IntKind, i: int)
    | ATime(unixNanos: int, location: Option<string>)  // time.Time; None is time.Local
    | ALocation(name: string)                          // a *time.Location
    | AHTTPPayload(payload: HTTPPayload)               // a *zapdriver.HTTPPayload
    | AObject(id: nat, stringer: Option<string>, errorText: Option<string>)

  /** A value Go can hold: an integer lies in the range of its type. */
  predicate GoValue(v: Any)
  {
    v.AInt? ==> InRange(v.kind, v.i)
  }

  /** What the value's `String()` method returns, if its type has one
      this model knows: an object's, or a *time.Location's, which is its name. */
  function StringerText(v: Any): Option<string>
  {
    match v
    case AObject(_, stringer, _) => stringer
    case ALocation(name) => Some(name)
    case _ => None
  }

  /** What the value's `Error()` method returns, if it is an error. */
  function ErrorText(v: Any): Option<string>
  {
    if v.AObject? then v.errorText else None
  }

  /** Library code outside the model, taken as given functions:
      `fmt.Sprint`, `time.Duration.String`, `time.Time.String` (of a time
      given by its nanoseconds and location) and the function name that
      `runtime.FuncForPC(pc).Name()` reports. */
  datatype Runtime = Runtime(
    sprint: Any -> string,
    durationString: int -> string,
    timeString: (int, Option<string>) -> string,
    funcName: int -> string)
}
