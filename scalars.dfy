/**
  * `_parse_scalar`: how the configuration parser types the text of a value,
  * and the rendering that it reads back unchanged.
  */
module Scalars {
  import opened Text
  import opened Values

  predicate IsQuoted(s: string)
  {
    s != [] && s[0] == '"' && s[|s| - 1] == '"'
  }

  /**
    * `_parse_scalar(value)`: strip, then in this order: empty text is "",
    * text between double quotes is that text, true/false in any case is a
    * boolean, ASCII digits are an int, a token `float()` accepts is a float,
    * anything else is the stripped text.
    */
  function ParseScalar(raw: string): (v: Value)
    ensures IsScalar(v)
    ensures v.Int? ==> v.i >= 0
  {
    var s := Strip(raw);
    var l := Lower(s);
    if s == [] then Str("")
    else if IsQuoted(s) then Str(if |s| >= 2 then s[1..|s| - 1] else [])
    else if l == "true" || l == "false" then Bool(l == "true")
    else if IsDigits(s) then Int(DecimalValue(s))
    else if ParsesAsFloat(s) then Float(s)
    else Str(s)
  }

  /** The scalars that have a textual form `_parse_scalar` reads back as themselves. */
  predicate Renderable(v: Value)
  {
    match v
    case Str(_) => true
    case Bool(_) => true
    case Int(i) => i >= 0
    case Float(t) => ParsesAsFloat(t) && !IsDigits(t)
    case _ => false
  }

  /** The text a configuration file would hold for `v`: strings are written between double quotes. */
  function Render(v: Value): (text: string)
    requires Renderable(v)
  {
    match v
    case Str(s) => "\"" + s + "\""
    case Bool(b) => if b then "true" else "false"
    case Int(i) => NatToString(i)
    case Float(t) => t
  }

  predicate FloatLead(c: char)
  {
    IsDigit(c) || c in {'+', '-', '.', 'i', 'I', 'n', 'N'}
  }

  predicate FloatTail(c: char)
  {
    IsDigit(c) || c in {'.', 'f', 'F', 'y', 'Y', 'n', 'N'}
  }

  lemma MantissaShape(m: string)
    requires Mantissa(m)
    ensures m != [] && (IsDigit(m[0]) || m[0] == '.') && (IsDigit(m[|m| - 1]) || m[|m| - 1] == '.')
  {
    var dot := Find(m, {'.'});
    if dot < |m| {
      var whole, fraction := m[..dot], m[dot + 1..];
      if whole == [] {
        assert m[0] == '.';
        assert m[|m| - 1] == fraction[|fraction| - 1];
      } else {
        assert m[0] == whole[0];
        if fraction != [] {
          assert m[|m| - 1] == fraction[|fraction| - 1];
        }
      }
    }
  }

  /** A token `float()` accepts starts and ends with a character of a number, inf or nan. */
  lemma FloatTokenShape(t: string)
    requires ParsesAsFloat(t)
    ensures t != [] && FloatLead(t[0]) && FloatTail(t[|t| - 1])
  {
    var b := Unsigned(t);
    if Lower(b) == "inf" || Lower(b) == "infinity" || Lower(b) == "nan" {
      assert b != [] && LowerChar(b[0]) in {'i', 'n'} && LowerChar(b[|b| - 1]) in {'f', 'y', 'n'};
    } else {
      var e := Find(b, {'e', 'E'});
      if e == |b| {
        MantissaShape(b);
      } else {
        MantissaShape(b[..e]);
        var x := b[e + 1..];
        var u := Unsigned(x);
        assert b[0] == b[..e][0];
        assert b[|b| - 1] == x[|x| - 1] == u[|u| - 1];
      }
    }
    assert t[|t| - 1] == b[|b| - 1];
  }

  lemma QuotedRoundTrip(s: string)
    ensures ParseScalar("\"" + s + "\"") == Str(s)
  {
    var text := "\"" + s + "\"";
    StripUnchanged(text);
    assert IsQuoted(text);
    assert text[1..|text| - 1] == s;
  }

  lemma BoolRoundTrip(b: bool)
    ensures ParseScalar(if b then "true" else "false") == Bool(b)
  {
    var text := if b then "true" else "false";
    StripUnchanged(text);
    assert !IsQuoted(text);
    assert Lower(text) == text;
  }

  lemma IntRoundTrip(n: nat)
    ensures ParseScalar(NatToString(n)) == Int(n)
  {
    var text := NatToString(n);
    assert IsDigit(text[0]) && IsDigit(text[|text| - 1]);
    StripUnchanged(text);
    assert !IsQuoted(text);
    assert Lower(text)[0] == text[0];
    DecimalRoundTrip(n);
  }

  /** A character that may start a float token is neither whitespace, a quote, nor the first letter of true/false. */
  lemma FloatLeadChar(c: char)
    requires FloatLead(c)
    ensures !IsSpace(c) && c != '"' && LowerChar(c) != 't' && LowerChar(c) != 'f'
  {
  }

  lemma FloatTailChar(c: char)
    requires FloatTail(c)
    ensures !IsSpace(c)
  {
  }

  lemma FloatRoundTrip(t: string)
    requires ParsesAsFloat(t) && !IsDigits(t)
    ensures ParseScalar(t) == Float(t)
  {
    FloatTokenShape(t);
    FloatLeadChar(t[0]);
    FloatTailChar(t[|t| - 1]);
    StripUnchanged(t);
    assert !IsQuoted(t);
    var l := Lower(t);
    assert l[0] == LowerChar(t[0]);
    assert l != "true" && l != "false";
  }

  /** Every renderable scalar survives a trip through its text and `_parse_scalar`. */
  lemma ScalarRoundTrip(v: Value)
    requires Renderable(v)
    ensures ParseScalar(Render(v)) == v
  {
    match v
    case Str(s) => QuotedRoundTrip(s);
    case Bool(b) => BoolRoundTrip(b);
    case Int(i) => IntRoundTrip(i);
    case Float(t) => FloatRoundTrip(t);
  }

  /** `true` and `false` are booleans in any mix of upper and lower case. */
  lemma BoolAnyCase(s: string)
    requires Lower(Strip(s)) == "true" || Lower(Strip(s)) == "false"
    ensures ParseScalar(s) == Bool(Lower(Strip(s)) == "true")
  {
    var t := Strip(s);
    assert LowerChar(t[0]) == Lower(t)[0];
    assert !IsQuoted(t);
  }

  /** Text of ASCII digits is an integer, leading zeros included: `007` is 7. */
  lemma DigitsAreInt(s: string)
    requires IsDigits(Strip(s))
    ensures ParseScalar(s) == Int(DecimalValue(Strip(s)))
  {
  }

  /** Text that is not empty, quoted, a boolean, an integer or a float stays the stripped text. */
  lemma RawFallback(s: string)
    requires Strip(s) != [] && !IsQuoted(Strip(s))
    requires Lower(Strip(s)) != "true" && Lower(Strip(s)) != "false"
    requires !IsDigits(Strip(s)) && !ParsesAsFloat(Strip(s))
    ensures ParseScalar(s) == Str(Strip(s))
  {
  }

  /** Surrounding whitespace never changes how a value is typed. */
  lemma PaddingIgnored(pre: string, s: string, post: string)
    requires forall i :: 0 <= i < |pre| ==> IsSpace(pre[i])
    requires forall i :: 0 <= i < |post| ==> IsSpace(post[i])
    ensures ParseScalar(pre + s + post) == ParseScalar(s)
  {
    StripOfPadded(pre, s, post);
  }
}
