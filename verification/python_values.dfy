/** Python-level values as they appear in a teuthology job configuration,
    and the small part of Python's semantics the job-handling code relies
    on: truthiness, `dict.get`, `dict[key]`, `str()` and `len()`. */
module PyValues {

  datatype Option<T> = None | Some(value: T)

  /** The exceptions the modelled code raises or lets propagate. */
  datatype Error =
    | KeyError(key: string)              // `d[key]` on a missing key
    | TypeError(what: string)            // a non-str where a path is needed, `len()` of a scalar
    | Unsupported(what: string)          // Python behaviour outside this model (str() of a container)
    | SkipJob                            // teuthology.exceptions.SkipJob
    | RuntimeError(msg: string)          // branch not bootstrapped
    | AssertionError                     // the retired-branch assertion after the watchdog loop
    | ReimageFailed(msg: string)         // reimage_many raised
    | ReadError(remote: string, path: string)    // tarfile.ReadError from pull_directory
    | RemoteError(remote: string, path: string)  // any other pull_directory failure

  /** A value or the exception that interrupted its computation. */
  datatype Result<T> = Ok(value: T) | Err(error: Error) {
    predicate IsFailure() { Err? }
    function PropagateFailure<U>(): Result<U>
      requires Err?
    {
      Err(error)
    }
    function Extract(): T
      requires Ok?
    {
      value
    }
  }

  /** A YAML-loaded value. Dictionary keys of a job config are strings. */
  datatype Value =
    | VNone
    | VBool(b: bool)
    | VInt(i: int)
    | VStr(s: string)
    | VList(items: seq<Value>)
    | VDict(entries: map<string, Value>)

  /** A job configuration dictionary. */
  type Config = map<string, Value>

  /** Python's truth value of `v`. */
  predicate Truthy(v: Value) {
    match v
    case VNone => false
    case VBool(b) => b
    case VInt(i) => i != 0
    case VStr(s) => s != ""
    case VList(xs) => xs != []
    case VDict(m) => m != map[]
  }

  /** `cfg.get(key, default)`: a present key wins even when its value is None. */
  function Get(cfg: Config, key: string, default: Value): Value {
    if key in cfg then cfg[key] else default
  }

  /** `cfg[key]`. */
  function Lookup(cfg: Config, key: string): (r: Result<Value>)
    ensures r.Ok? <==> key in cfg
    ensures r.Ok? ==> r.value == cfg[key]
    ensures r.Err? ==> r.error == KeyError(key)
  {
    if key in cfg then Ok(cfg[key]) else Err(KeyError(key))
  }

  /** `cfg[key]` used where Python needs a `str` (a path component). */
  function LookupStr(cfg: Config, key: string): (r: Result<string>)
    ensures r.Ok? <==> key in cfg && cfg[key].VStr?
    ensures r.Ok? ==> cfg[key] == VStr(r.value)
  {
    var v :- Lookup(cfg, key);
    if v.VStr? then Ok(v.s) else Err(TypeError(key + " is not a str"))
  }

  /** `len(v)`. */
  function Len(v: Value): Result<nat> {
    match v
    case VStr(s) => Ok(|s|)
    case VList(xs) => Ok(|xs|)
    case VDict(m) => Ok(|m|)
    case _ => Err(TypeError("object has no len()"))
  }

  // ---------------------------------------------------------------------
  // Decimal rendering, as `str()` does for an int.

  predicate IsDigit(c: char) { '0' <= c <= '9' }

  predicate AllDigits(s: string) {
    forall k :: 0 <= k < |s| ==> IsDigit(s[k])
  }

  function DigitChar(d: nat): (c: char)
    requires d < 10
    ensures IsDigit(c) && (c as int) - ('0' as int) == d
  {
    (('0' as int) + d) as char
  }

  /** Decimal digits of `n`, most significant first, without leading zeros. */
  function NatToDecimal(n: nat): (s: string)
    ensures |s| >= 1 && AllDigits(s)
    ensures s[0] == '0' ==> n == 0
    decreases n
  {
    if n < 10 then [DigitChar(n)] else NatToDecimal(n / 10) + [DigitChar(n % 10)]
  }

  /** `str(i)` for an int: a minus sign and the decimal digits of `|i|`. */
  function IntToDecimal(i: int): string {
    if i < 0 then "-" + NatToDecimal(-i) else NatToDecimal(i)
  }

  /** The number a string of decimal digits denotes (what `int(s)` reads). */
  function DecimalValue(s: string): nat
    requires AllDigits(s)
  {
    if s == [] then 0
    else DecimalValue(s[..|s| - 1]) * 10 + ((s[|s| - 1] as int) - ('0' as int))
  }

  /** `int(s)` for an optionally signed decimal; None where `int()` would raise. */
  function ParseInt(s: string): Option<int> {
    if |s| > 1 && s[0] == '-' && AllDigits(s[1..]) then Some(0 - DecimalValue(s[1..]) as int)
    else if |s| > 0 && AllDigits(s) then Some(DecimalValue(s))
    else None
  }

  lemma {:induction false} DecimalRoundTrip(n: nat)
    ensures DecimalValue(NatToDecimal(n)) == n
    decreases n
  {
    if n >= 10 {
      var s := NatToDecimal(n);
      DecimalRoundTrip(n / 10);
      assert s[..|s| - 1] == NatToDecimal(n / 10);
    }
  }

  /** `int(str(i)) == i`: rendering an int and reading it back is the identity. */
  lemma IntRoundTrip(i: int)
    ensures ParseInt(IntToDecimal(i)) == Some(i)
  {
    var s := IntToDecimal(i);
    if i < 0 {
      var digits := NatToDecimal(-i);
      assert s[1..] == digits;
      DecimalRoundTrip(-i);
      assert |s| > 1 && s[0] == '-' && AllDigits(s[1..]);
      assert ParseInt(s) == Some(0 - DecimalValue(digits) as int);
    } else {
      DecimalRoundTrip(i);
      assert IsDigit(s[0]);
      assert ParseInt(s) == Some(DecimalValue(s));
    }
  }

  /** Distinct ints render as distinct strings. */
  lemma IntToDecimalInjective(a: int, b: int)
    ensures IntToDecimal(a) == IntToDecimal(b) ==> a == b
  {
    IntRoundTrip(a);
    IntRoundTrip(b);
  }

  /** `str(v)` for the scalar values a job config carries. */
  function Str(v: Value): (r: Result<string>)
    ensures r.Ok? <==> !v.VList? && !v.VDict?
    ensures v.VStr? ==> r == Ok(v.s)
    ensures v.VInt? ==> r.Ok? && ParseInt(r.value) == Some(v.i)
  {
    match v
    case VNone => Ok("None")
    case VBool(b) => Ok(if b then "True" else "False")
    case VInt(i) => IntRoundTrip(i); Ok(IntToDecimal(i))
    case VStr(s) => Ok(s)
    case _ => Err(Unsupported("str() of a list or dict"))
  }
}
