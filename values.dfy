/** Python values as the cache decorator meets them (call arguments, defaults, receivers,
    results), their truthiness and their `str()` text, and the errors the core can raise. */
module Values {

  datatype Option<+T> = None | Some(value: T)

  /** The part of Python's value universe that keys and results need. An object carries the
      attributes attribute lookup finds on it (its own and its class's) and the text its
      `__str__` returns. */
  datatype Value =
    | NoneValue
    | Bool(b: bool)
    | Int(i: int)
    | Str(s: string)
    | Obj(attrs: map<string, Value>, text: string)

  newtype Byte = x: int | 0 <= x < 256
  type Bytes = seq<Byte>

  /** Why `inspect.getcallargs` refuses a call (all are TypeError in Python). */
  datatype BindFailure =
    | TooManyArguments
    | MultipleValues(name: string)
    | UnexpectedKeyword
    | MissingArgument

  /** Why `str.format` refuses a template (ValueError or IndexError in Python), plus
      `UnsupportedField` for the parts of the format mini-language this model leaves out. */
  datatype FormatFailure =
    | UnmatchedClose
    | UnclosedField
    | EmptyAttribute
    | PositionalField
    | UnsupportedField

  /** The exceptions the core raises. `InvalidExpireTime` is the error Redis answers a
      `SETEX` whose expiry is not positive with. */
  datatype Error =
    | BindingError(bindFailure: BindFailure)
    | UnsupportedCallable
    | FormatError(formatFailure: FormatFailure)
    | KeyMissing(name: string)
    | AttributeMissing(name: string)
    | NoDatabase(alias: Option<string>)
    | NoDefaultConfig
    | NotSerializable
    | CorruptPayload
    | InvalidExpireTime
    | Raised(exception: string)

  datatype Result<+T> = Success(value: T) | Failure(error: Error)

  /** Python truthiness; objects are taken to have no `__bool__`/`__len__` of their own. */
  predicate Truthy(v: Value)
    ensures Truthy(v) <==> v !in {NoneValue, Bool(false), Int(0), Str("")}
  {
    match v
    case NoneValue => false
    case Bool(b) => b
    case Int(i) => i != 0
    case Str(s) => s != ""
    case Obj(_, _) => true
  }

  /** `str(v)`: the text a replacement field renders. */
  function Text(v: Value): (t: string)
    ensures v == NoneValue ==> t == "None"
    ensures v.Bool? ==> t == (if v.b then "True" else "False")
    ensures v.Int? && v.i >= 0 ==>
      |t| > 0 && AllDigits(t) && DigitsValue(t) == v.i && (t[0] == '0' ==> v.i == 0) && (|t| > 1 ==> t[0] != '0')
    ensures v.Int? && v.i < 0 ==>
      |t| > 1 && t[0] == '-' && t[1] != '0' && AllDigits(t[1..]) && DigitsValue(t[1..]) == -v.i
    ensures v.Str? ==> t == v.s
    ensures v.Obj? ==> t == v.text
  {
    match v
    case NoneValue => "None"
    case Bool(b) => if b then "True" else "False"
    case Int(i) =>
      if i >= 0 then NatTextRoundTrip(i); IntText(i)
      else NatTextRoundTrip(-i); assert IntText(i)[1..] == NatText(-i); IntText(i)
    case Str(s) => s
    case Obj(_, text) => text
  }

  predicate IsDigit(c: char) { '0' <= c <= '9' }

  predicate AllDigits(s: string) { forall k :: 0 <= k < |s| ==> IsDigit(s[k]) }

  function DigitChar(d: nat): (c: char)
    requires d < 10
    ensures IsDigit(c) && c as int - '0' as int == d
  {
    (d + '0' as int) as char
  }

  /** Decimal digits of a natural number, without leading zeros. */
  function NatText(n: nat): (s: string)
    ensures |s| > 0 && AllDigits(s)
    ensures s[0] == '0' ==> n == 0
    ensures |s| > 1 ==> s[0] != '0'
  {
    if n < 10 then [DigitChar(n)] else NatText(n / 10) + [DigitChar(n % 10)]
  }

  /** `str()` of an int: a minus sign for negatives, then the digits. */
  function IntText(i: int): (s: string)
    ensures |s| > 0
  {
    if i < 0 then "-" + NatText(-i) else NatText(i)
  }

  /** The number a string of decimal digits denotes (the inverse of NatText). */
  function DigitsValue(s: string): nat
    requires AllDigits(s)
  {
    if s == [] then 0 else DigitsValue(s[..|s| - 1]) * 10 + (s[|s| - 1] as int - '0' as int)
  }

  lemma {:induction false} NatTextRoundTrip(n: nat)
    ensures DigitsValue(NatText(n)) == n
  {
    if n >= 10 {
      var s := NatText(n);
      assert s[..|s| - 1] == NatText(n / 10);
      NatTextRoundTrip(n / 10);
    }
  }

  /** Distinct integers render as distinct key text. */
  lemma IntTextInjective(i: int, j: int)
    requires IntText(i) == IntText(j)
    ensures i == j
  {
    if i < 0 && j < 0 {
      assert NatText(-i) == IntText(i)[1..];
      assert NatText(-j) == IntText(j)[1..];
      NatTextRoundTrip(-i);
      NatTextRoundTrip(-j);
    } else if i >= 0 && j >= 0 {
      NatTextRoundTrip(i);
      NatTextRoundTrip(j);
    }
  }
}
