/**
 * Documents flowing through both processors: JSON-like values, the closed set
 * of document kinds the router dispatches on, and the Python exceptions the
 * handlers raise, modelled as an error datatype.
 */
module Documents {

  /** A value stored in a document field (a decoded JSON/msgpack value). */
  datatype Value =
    | VNone
    | VBool(b: bool)
    | VInt(i: int)
    | VFloat(x: real)
    | VStr(s: string)
    | VList(items: seq<Value>)
    | VDict(fields: map<string, Value>)

  /** A document is a mapping from field name to value. */
  type Doc = map<string, Value>

  /** The document kinds the router knows about; dispatch is one `match` over these. */
  datatype Kind = Start | Descriptor | Resource | Datum | DatumPage | Event | EventPage | Stop

  /** The exceptions the handlers can raise. */
  datatype Error =
    | KeyError(key: Value)
    | TypeError
    | IndexError
    | AttributeError(attr: string)
    | ValueError(msg: string)
    | AssertionError
    | NotImplementedError
    /** a `str.format` feature (format spec, conversion, attribute or index) outside the model */
    | FormatUnsupported

  datatype Option<T> = None | Some(value: T)

  datatype Result<T> = Ok(value: T) | Err(error: Error) {
    predicate IsFailure() { Err? }
    function PropagateFailure<U>(): Result<U> requires Err? { Err(error) }
    function Extract(): T requires Ok? { value }
  }

  /** `d[key]` on a document: KeyError when the field is absent. */
  function Lookup(d: Doc, key: string): (r: Result<Value>)
    ensures r.Ok? <==> key in d
    ensures r.Ok? ==> r.value == d[key]
    ensures r.Err? ==> r.error == KeyError(VStr(key))
  {
    if key in d then Ok(d[key]) else Err(KeyError(VStr(key)))
  }

  /** `v[key]` on a nested value: a dict gives its entry or KeyError; any other value is not subscriptable by a string. */
  function Item(v: Value, key: string): (r: Result<Value>)
    ensures r.Ok? <==> v.VDict? && key in v.fields
    ensures r.Ok? ==> r.value == v.fields[key]
  {
    match v
    case VDict(m) => Lookup(m, key)
    case _ => Err(TypeError)
  }

  /** `v[0]`: the first element of a list (or the first character of a string). */
  function First(v: Value): (r: Result<Value>)
    ensures v.VList? && |v.items| > 0 ==> r == Ok(v.items[0])
    ensures v.VList? && |v.items| == 0 ==> r == Err(IndexError)
  {
    match v
    case VList(xs) => if |xs| == 0 then Err(IndexError) else Ok(xs[0])
    case VStr(s) => if |s| == 0 then Err(IndexError) else Ok(VStr([s[0]]))
    case VDict(_) => Err(KeyError(VInt(0)))
    case _ => Err(TypeError)
  }

  /** `v[:n]`: a prefix of at most n elements of a list (or characters of a string). */
  function Prefix(v: Value, n: nat): (r: Result<Value>)
    ensures v.VList? ==> r.Ok? && r.value.VList? && r.value.items == v.items[..if |v.items| < n then |v.items| else n]
    ensures v.VStr? ==> r.Ok? && r.value.VStr? && r.value.s == v.s[..if |v.s| < n then |v.s| else n]
    ensures !v.VList? && !v.VStr? ==> r == Err(TypeError)
  {
    match v
    case VList(xs) => Ok(VList(xs[..if |xs| < n then |xs| else n]))
    case VStr(s) => Ok(VStr(s[..if |s| < n then |s| else n]))
    case _ => Err(TypeError)
  }

  // ---------------------------------------------------------------------------
  // Decimal rendering of integers, as `str(i)` and f-strings produce it.
  // ---------------------------------------------------------------------------

  predicate IsDigit(c: char) { '0' <= c <= '9' }

  function Digit(d: nat): (c: char)
    requires d < 10
    ensures IsDigit(c) && c as int - '0' as int == d
  {
    (d + '0' as int) as char
  }

  /** Decimal digits of n, most significant first, without leading zeros. */
  function NatToString(n: nat): (s: string)
    ensures |s| > 0 && forall i :: 0 <= i < |s| ==> IsDigit(s[i])
    ensures |s| > 1 ==> s[0] != '0'
  {
    if n < 10 then [Digit(n)] else NatToString(n / 10) + [Digit(n % 10)]
  }

  /** The number a string of decimal digits denotes. */
  function DigitsValue(s: string): nat
    requires forall i :: 0 <= i < |s| ==> IsDigit(s[i])
  {
    if s == [] then 0
    else
      assert IsDigit(s[|s| - 1]);
      DigitsValue(s[..|s| - 1]) * 10 + (s[|s| - 1] as int - '0' as int)
  }

  /** Reading back the digits of n gives n. */
  lemma {:induction false} NatToStringRoundTrip(n: nat)
    ensures DigitsValue(NatToString(n)) == n
  {
    if n >= 10 {
      NatToStringRoundTrip(n / 10);
      var s := NatToString(n);
      assert s[..|s| - 1] == NatToString(n / 10);
    }
  }

  /** Distinct numbers render as distinct strings. */
  lemma NatToStringInjective(m: nat, n: nat)
    ensures NatToString(m) == NatToString(n) ==> m == n
  {
    NatToStringRoundTrip(m);
    NatToStringRoundTrip(n);
  }

  /** `str(v)` for the values a file-name template can render. */
  function Render(v: Value): (r: Result<string>)
    ensures v.VStr? ==> r == Ok(v.s)
    ensures v.VInt? && v.i >= 0 ==> r == Ok(NatToString(v.i))
  {
    match v
    case VStr(s) => Ok(s)
    case VInt(i) => if i >= 0 then Ok(NatToString(i)) else Ok("-" + NatToString(-i))
    case VBool(b) => Ok(if b then "True" else "False")
    case VNone => Ok("None")
    case _ => Err(FormatUnsupported)
  }
}
