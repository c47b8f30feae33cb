/**
 * The untyped values a news feed importer works on: what JSON.parse yields
 * for a feed payload, and the nested hash a feed configuration is made of.
 * Alongside them, the two Ruby conversions the importer relies on:
 * ActiveSupport's `blank?` and `to_i`, together with `Integer#to_s`, the
 * inverse that `to_i` is proved against.
 */
module RubyValue {

  /** A parsed JSON value. Hash keys are strings, as JSON.parse produces them;
      floating-point numbers are not modelled. */
  datatype Value =
    | Nil
    | Bool(b: bool)
    | Int(n: int)
    | Str(s: string)
    | Arr(elems: seq<Value>)
    | Hash(fields: map<string, Value>)

  /** `h[k]` on a string-keyed hash: the value stored under `k`, or nil. */
  function Get(h: map<string, Value>, k: string): Value
  {
    if k in h then h[k] else Nil
  }

  /** The characters of Unicode's White_Space property, which ActiveSupport's
      `[[:space:]]` pattern matches. */
  predicate IsUnicodeSpace(c: char)
  {
    || c == ' '
    || '\t' <= c <= '\r'
    || c == '\U{85}'
    || c == '\U{A0}'
    || c == '\U{1680}'
    || '\U{2000}' <= c <= '\U{200A}'
    || c == '\U{2028}'
    || c == '\U{2029}'
    || c == '\U{202F}'
    || c == '\U{205F}'
    || c == '\U{3000}'
  }

  /** `String#blank?`: empty or made of white space only. */
  predicate BlankString(s: string)
  {
    forall i :: 0 <= i < |s| ==> IsUnicodeSpace(s[i])
  }

  /** ActiveSupport's `Object#blank?` on the values a parsed document holds:
      nil and false are blank, true and every integer are not, a string is
      blank when it is white space only, an array or hash when it is empty. */
  predicate Blank(v: Value)
  {
    match v
    case Nil => true
    case Bool(b) => !b
    case Int(_) => false
    case Str(s) => BlankString(s)
    case Arr(xs) => xs == []
    case Hash(m) => m == map[]
  }

  // ---------------------------------------------------------------------
  // to_i
  // ---------------------------------------------------------------------

  /** The values on which `to_i` is defined here: `nil.to_i`, `Integer#to_i`
      and `String#to_i`. Booleans, arrays and hashes have no `to_i`. */
  predicate HasToI(v: Value)
  {
    v.Nil? || v.Int? || v.Str?
  }

  /** The white space `String#to_i` skips before the number (C's isspace). */
  predicate IsAsciiSpace(c: char)
  {
    c == ' ' || '\t' <= c <= '\r'
  }

  predicate IsDigit(c: char)
  {
    '0' <= c <= '9'
  }

  predicate AllDigits(s: string)
  {
    forall i :: 0 <= i < |s| ==> IsDigit(s[i])
  }

  function DigitValue(c: char): int
  {
    c as int - '0' as int
  }

  function SkipSpaces(s: string): string
  {
    if |s| > 0 && IsAsciiSpace(s[0]) then SkipSpaces(s[1..]) else s
  }

  /** The digits of the longest prefix of `s` that reads as a decimal literal:
      digits, where a single underscore may stand between two digits. The
      underscores are dropped. */
  function DigitRun(s: string): string
  {
    if |s| == 0 || !IsDigit(s[0]) then []
    else if |s| >= 3 && s[1] == '_' && IsDigit(s[2]) then [s[0]] + DigitRun(s[2..])
    else [s[0]] + DigitRun(s[1..])
  }

  /** The number a string of decimal digits denotes (0 for no digits). */
  function DecimalValue(ds: string): int
  {
    if ds == [] then 0
    else DecimalValue(ds[..|ds| - 1]) * 10 + DigitValue(ds[|ds| - 1])
  }

  /** `String#to_i` in base 10: leading white space, an optional sign, then the
      longest decimal prefix; 0 when there is none. */
  function StrToI(s: string): int
  {
    var t := SkipSpaces(s);
    if |t| > 0 && t[0] == '-' then -DecimalValue(DigitRun(t[1..]))
    else if |t| > 0 && t[0] == '+' then DecimalValue(DigitRun(t[1..]))
    else DecimalValue(DigitRun(t))
  }

  /** `to_i` on nil, an integer or a string. */
  function ToI(v: Value): int
    requires HasToI(v)
  {
    match v
    case Nil => 0
    case Int(n) => n
    case Str(s) => StrToI(s)
  }

  // ---------------------------------------------------------------------
  // Integer#to_s, the inverse of to_i
  // ---------------------------------------------------------------------

  function DigitChar(d: int): char
    requires 0 <= d < 10
  {
    ('0' as int + d) as char
  }

  function NatToS(n: nat): string
  {
    if n < 10 then [DigitChar(n)] else NatToS(n / 10) + [DigitChar(n % 10)]
  }

  /** `Integer#to_s`: the decimal text of `n`, with a minus sign when negative. */
  function ToS(n: int): string
  {
    if n < 0 then "-" + NatToS(-n) else NatToS(n)
  }

  /** A text that cannot continue a decimal literal: empty, or starting with
      neither a digit nor an underscore. */
  predicate EndsNumber(suffix: string)
  {
    suffix == [] || (!IsDigit(suffix[0]) && suffix[0] != '_')
  }

  /** A text starting with `d` or `D`, which after a "0" Ruby reads as the
      prefix of a decimal literal. */
  predicate StartsRadixPrefix(suffix: string)
  {
    suffix != [] && (suffix[0] == 'd' || suffix[0] == 'D')
  }

  lemma {:induction false} NatToSIsDigits(n: nat)
    ensures |NatToS(n)| > 0 && AllDigits(NatToS(n))
  {
    if n >= 10 {
      NatToSIsDigits(n / 10);
    }
  }

  /** Reading back the decimal text of a natural number gives the number. */
  lemma {:induction false} DecimalValueOfNatToS(n: nat)
    ensures DecimalValue(NatToS(n)) == n
  {
    if n >= 10 {
      var ds := NatToS(n);
      assert ds[..|ds| - 1] == NatToS(n / 10);
      DecimalValueOfNatToS(n / 10);
    }
  }

  /** `DigitRun` stops exactly where a run of digits meets a text that cannot
      continue it. */
  lemma {:induction false} DigitRunOfDigits(ds: string, suffix: string)
    requires AllDigits(ds) && EndsNumber(suffix)
    ensures DigitRun(ds + suffix) == ds
  {
    var t := ds + suffix;
    if ds == [] {
      assert t == suffix;
    } else {
      assert t[0] == ds[0];
      assert |t| >= 2 ==> t[1] != '_' by {
        if |t| >= 2 {
          if |ds| >= 2 { assert t[1] == ds[1]; } else { assert t[1] == suffix[0]; }
        }
      }
      assert t[1..] == ds[1..] + suffix;
      DigitRunOfDigits(ds[1..], suffix);
      assert ds == [ds[0]] + ds[1..];
    }
  }

  /** A run of digits followed by a text that cannot continue it reads as
      the run's value. */
  lemma UnsignedDigitsToI(ds: string, suffix: string)
    requires |ds| > 0 && AllDigits(ds) && EndsNumber(suffix)
    ensures StrToI(ds + suffix) == DecimalValue(ds)
  {
    var t := ds + suffix;
    assert t[0] == ds[0];
    assert SkipSpaces(t) == t;
    DigitRunOfDigits(ds, suffix);
  }

  /** The same run after a minus sign reads as the negated value. */
  lemma NegatedDigitsToI(ds: string, suffix: string)
    requires |ds| > 0 && AllDigits(ds) && EndsNumber(suffix)
    ensures StrToI("-" + (ds + suffix)) == -DecimalValue(ds)
  {
    var t := "-" + (ds + suffix);
    assert t[0] == '-' && t[1..] == ds + suffix;
    assert SkipSpaces(t) == t;
    DigitRunOfDigits(ds, suffix);
  }

  /** The round trip of `to_i` with `Integer#to_s`: the decimal text of any
      integer reads back as that integer, also when text that cannot continue
      the number follows it (so "300px".to_i is 300). For 0 the text after it
      must not start with `d`: Ruby reads "0d5" as the prefixed number 5. */
  lemma ToIOfDecimalText(n: int, suffix: string)
    requires EndsNumber(suffix)
    requires n == 0 ==> !StartsRadixPrefix(suffix)
    ensures ToI(Str(ToS(n) + suffix)) == n
  {
    var m: nat := if n < 0 then -n else n;
    NatToSIsDigits(m);
    DecimalValueOfNatToS(m);
    if n < 0 {
      assert ToS(n) + suffix == "-" + (NatToS(m) + suffix);
      NegatedDigitsToI(NatToS(m), suffix);
    } else {
      UnsignedDigitsToI(NatToS(m), suffix);
    }
  }

  /** `to_i` of nil, of the empty string and of a white-space-only string is 0. */
  lemma ToIOfBlankIsZero(v: Value)
    requires v.Nil? || (v.Str? && BlankString(v.s))
    ensures ToI(v) == 0
  {
    if v.Str? {
      NoDigitToIIsZero(v.s);
    }
  }

  /** The text `String#to_i` reads its digits from: what follows the leading
      white space and an optional sign. */
  function NumberBody(s: string): string
  {
    var t := SkipSpaces(s);
    if |t| > 0 && (t[0] == '-' || t[0] == '+') then t[1..] else t
  }

  /** A non-numeric string converts to 0: one where, after the leading white
      space and an optional sign, no digit follows ("abc5", "px300", "- 7"). */
  lemma NonNumericToIIsZero(s: string)
    requires NumberBody(s) == [] || !IsDigit(NumberBody(s)[0])
    ensures StrToI(s) == 0
  {
  }

  /** Conversely, a string whose `to_i` is not 0 starts, after the leading
      white space and an optional sign, with a digit. */
  lemma NonZeroToIStartsWithDigit(s: string)
    requires StrToI(s) != 0
    ensures NumberBody(s) != [] && IsDigit(NumberBody(s)[0])
  {
    if NumberBody(s) == [] || !IsDigit(NumberBody(s)[0]) {
      NonNumericToIIsZero(s);
    }
  }

  /** `to_i` of a string without any digit is 0. */
  lemma {:induction false} NoDigitToIIsZero(s: string)
    requires forall i :: 0 <= i < |s| ==> !IsDigit(s[i])
    ensures StrToI(s) == 0
  {
    SkipSpacesIsSuffix(s);
    NonNumericToIIsZero(s);
  }

  lemma {:induction false} SkipSpacesIsSuffix(s: string)
    ensures exists k :: 0 <= k <= |s| && SkipSpaces(s) == s[k..]
  {
    if |s| > 0 && IsAsciiSpace(s[0]) {
      SkipSpacesIsSuffix(s[1..]);
      var k :| 0 <= k <= |s[1..]| && SkipSpaces(s[1..]) == s[1..][k..];
      assert s[1..][k..] == s[k + 1..];
    } else {
      assert s == s[0..];
    }
  }
}
