/**
  * The values the configuration parser produces, and the Python built-ins
  * `load_configuration` applies to them: `float()` recognition, `str()`,
  * `int()` and truthiness.
  */
module Values {
  import opened Common
  import opened Text
  import opened Dicts
  import opened Failures

  /** A parsed configuration value. A float is kept as the token `float()` accepted. */
  datatype Value =
    | Str(s: string)
    | Bool(b: bool)
    | Int(i: int)
    | Float(token: string)
    | List(items: seq<Value>)
    | Map(entries: Dict<Value>)

  predicate IsScalar(v: Value)
  {
    !v.List? && !v.Map?
  }

  /** Python's `digitpart`: digits, with single underscores allowed between two digits. */
  predicate DigitPart(s: string)
  {
    && s != [] && IsDigit(s[0]) && IsDigit(s[|s| - 1])
    && (forall i :: 0 <= i < |s| ==> IsDigit(s[i]) || s[i] == '_')
    && (forall i :: 0 <= i < |s| - 1 ==> s[i] == '_' ==> s[i + 1] != '_')
  }

  /** `[digitpart] "." digitpart | digitpart ["."]` */
  predicate Mantissa(m: string)
  {
    var dot := Find(m, {'.'});
    if dot == |m| then DigitPart(m)
    else
      var whole, fraction := m[..dot], m[dot + 1..];
      (whole == [] && DigitPart(fraction)) || (DigitPart(whole) && (fraction == [] || DigitPart(fraction)))
  }

  /** The part after `e`/`E`: `["+" | "-"] digitpart`. */
  predicate Exponent(x: string)
  {
    DigitPart(Unsigned(x))
  }

  predicate DecimalFloat(b: string)
  {
    var e := Find(b, {'e', 'E'});
    if e == |b| then Mantissa(b) else Mantissa(b[..e]) && Exponent(b[e + 1..])
  }

  /** The token without its leading sign, if it has one. */
  function Unsigned(t: string): (b: string)
    ensures |b| <= |t| && b == t[|t| - |b|..]
  {
    if t != [] && (t[0] == '+' || t[0] == '-') then t[1..] else t
  }

  /** `float(t)` succeeds: a signed decimal with optional exponent, or inf, infinity, nan in any case. */
  predicate ParsesAsFloat(t: string)
  {
    var b := Unsigned(t);
    Lower(b) == "inf" || Lower(b) == "infinity" || Lower(b) == "nan" || DecimalFloat(b)
  }

  /** The digits of a `digitpart`, without its underscores. */
  function RemoveUnderscores(s: string): (r: string)
    ensures (forall i :: 0 <= i < |s| ==> IsDigit(s[i]) || s[i] == '_') ==> forall i :: 0 <= i < |r| ==> IsDigit(r[i])
  {
    if s == [] then [] else (if s[0] == '_' then [] else [s[0]]) + RemoveUnderscores(s[1..])
  }

  /** `int(s)` of a string: surrounding whitespace, an optional sign, a `digitpart`; None where it raises. */
  function IntOfText(s: string): Option<int>
  {
    var t := Strip(s);
    var b := Unsigned(t);
    if DigitPart(b) then
      var n: int := DecimalValue(RemoveUnderscores(b));
      Some(if t[0] == '-' then -n else n)
    else
      None
  }

  /**
    * The built-ins this model does not compute: everything that depends on
    * the binary floating-point value of a token, and `str()` of a list or a
    * dict (Python's repr of their contents).
    */
  datatype Builtins = Builtins(
    floatStr: string -> string,       // str(float(t))
    floatInt: string -> Option<int>,  // int(float(t)); None where it raises (inf, nan)
    floatIsZero: string -> bool,      // float(t) == 0.0
    containerStr: Value -> string)    // str(v) of a list or a dict

  /** `str(v)`. */
  function PyStr(v: Value, py: Builtins): (r: string)
    ensures v.Str? ==> r == v.s
    ensures v.Int? ==> r == IntToString(v.i)
  {
    match v
    case Str(s) => s
    case Bool(b) => if b then "True" else "False"
    case Int(i) => IntToString(i)
    case Float(t) => py.floatStr(t)
    case _ => py.containerStr(v)
  }

  /** `int(v)`: booleans count as 0 and 1, containers raise TypeError, bad text ValueError. */
  function PyInt(v: Value, py: Builtins): (r: Result<int, PyError>)
    ensures v.Int? ==> r == Ok(v.i)
    ensures v.List? || v.Map? ==> r == Err(TypeError)
  {
    match v
    case Int(i) => Ok(i)
    case Bool(b) => Ok(if b then 1 else 0)
    case Float(t) => (match py.floatInt(t) case Some(i) => Ok(i) case None => Err(ValueError))
    case Str(s) => (match IntOfText(s) case Some(i) => Ok(i) case None => Err(ValueError))
    case _ => Err(TypeError)
  }

  /** `bool(v)`: empty strings, zero, empty containers and False are false. */
  predicate Truthy(v: Value, py: Builtins)
  {
    match v
    case Str(s) => s != ""
    case Bool(b) => b
    case Int(i) => i != 0
    case Float(t) => !py.floatIsZero(t)
    case List(items) => items != []
    case Map(entries) => entries != []
  }

  /** Digits without underscores are their own `digitpart` digits. */
  lemma {:induction false} NoUnderscoresToRemove(s: string)
    requires forall i :: 0 <= i < |s| ==> IsDigit(s[i])
    ensures RemoveUnderscores(s) == s
  {
    if s != [] {
      NoUnderscoresToRemove(s[1..]);
    }
  }

  /** `int(str(i)) == i`: the text `str()` gives an integer reads back through `int()`. */
  lemma IntTextRoundTrip(i: int, py: Builtins)
    ensures PyInt(Str(PyStr(Int(i), py)), py) == Ok(i)
  {
    IntOfTextOfString(i);
  }

  lemma {:induction false} IntOfTextOfString(i: int)
    ensures IntOfText(IntToString(i)) == Some(i)
  {
    var n: nat := if i < 0 then -i else i;
    var t := IntToString(i);
    var digits := NatToString(n);
    IntStringShape(i);
    DigitsArePart(digits);
    NoUnderscoresToRemove(digits);
    DecimalRoundTrip(n);
    assert DecimalValue(RemoveUnderscores(Unsigned(Strip(t)))) == n;
  }

  /** `str(i)` is already stripped, and without its sign it is the digits of `abs(i)`. */
  lemma {:induction false} IntStringShape(i: int)
    ensures Strip(IntToString(i)) == IntToString(i)
    ensures Unsigned(IntToString(i)) == NatToString(if i < 0 then -i else i)
  {
    var n: nat := if i < 0 then -i else i;
    var t := IntToString(i);
    var digits := NatToString(n);
    assert t == (if i < 0 then "-" else "") + digits;
    assert t[|t| - 1] == digits[|digits| - 1];
    StripUnchanged(t);
    if i < 0 {
      assert t[1..] == digits;
    } else {
      assert IsDigit(t[0]);
    }
  }

  lemma DigitsArePart(s: string)
    requires IsDigits(s)
    ensures DigitPart(s)
  {
  }
}
