/** Python's `int(...)` and `str(...)` as `load_settings` applies them to the
    raw value chosen for each field. */
module Builtins {
  import opened Values

  /** The characters `int()` strips from both ends of a string. Non-ASCII
      whitespace (`Py_UNICODE_ISSPACE`) is first turned into a space; of the
      ASCII characters only `\t`, `\n`, `\v`, `\f`, `\r` and the space are
      skipped, so U+001C to U+001F are not. */
  predicate IsSpace(c: char) {
    || '\t' <= c <= '\r'
    || c == ' '
    || c == '\U{0085}' || c == '\U{00A0}' || c == '\U{1680}'
    || '\U{2000}' <= c <= '\U{200A}'
    || c == '\U{2028}' || c == '\U{2029}' || c == '\U{202F}'
    || c == '\U{205F}' || c == '\U{3000}'
  }

  predicate IsDigit(c: char) { '0' <= c <= '9' }

  /** Number of whitespace characters at the front of `s`. */
  function LeadingSpaces(s: string): (n: nat)
    ensures n <= |s|
    ensures forall i :: 0 <= i < n ==> IsSpace(s[i])
    ensures n < |s| ==> !IsSpace(s[n])
  {
    if |s| > 0 && IsSpace(s[0]) then 1 + LeadingSpaces(s[1..]) else 0
  }

  /** Number of whitespace characters at the back of `s`. */
  function TrailingSpaces(s: string): (n: nat)
    ensures n <= |s|
    ensures forall i :: |s| - n <= i < |s| ==> IsSpace(s[i])
    ensures n < |s| ==> !IsSpace(s[|s| - 1 - n])
  {
    if |s| > 0 && IsSpace(s[|s| - 1]) then 1 + TrailingSpaces(s[..|s| - 1]) else 0
  }

  /** The part of `s` between the leading and the trailing whitespace that
      `int()` skips. Unlike `str.strip()` it keeps U+001C to U+001F. */
  function Strip(s: string): (t: string)
    ensures t == [] || (|t| > 0 && !IsSpace(t[0]) && !IsSpace(t[|t| - 1]))
    ensures t == [] ==> forall i :: 0 <= i < |s| ==> IsSpace(s[i])
    ensures t != [] ==>
              && LeadingSpaces(s) + |t| + TrailingSpaces(s) == |s|
              && forall j :: 0 <= j < |t| ==> t[j] == s[LeadingSpaces(s) + j]
    ensures forall i :: 0 <= i < |s| && !IsSpace(s[i]) ==>
              LeadingSpaces(s) <= i < LeadingSpaces(s) + |t| && t[i - LeadingSpaces(s)] == s[i]
  {
    var lead := LeadingSpaces(s);
    if lead == |s| then []
    else
      s[lead..|s| - TrailingSpaces(s)]
  }

  /** Python's base-10 digit string: digits, where a single `_` may stand
      between two digits. */
  predicate ValidDigits(s: string) {
    |s| > 0 && forall i :: 0 <= i < |s| ==> DigitOrSeparator(s, i)
  }

  predicate DigitOrSeparator(s: string, i: nat)
    requires i < |s|
  {
    IsDigit(s[i]) || (s[i] == '_' && 0 < i < |s| - 1 && IsDigit(s[i - 1]) && IsDigit(s[i + 1]))
  }

  /** The number the digits of `s` spell, ignoring underscores. */
  function DigitsValue(s: string): nat {
    if s == [] then 0
    else
      var last := s[|s| - 1];
      if IsDigit(last) then 10 * DigitsValue(s[..|s| - 1]) + (last as int - '0' as int)
      else DigitsValue(s[..|s| - 1])
  }

  /** The characters an integer literal can be made of. */
  predicate LiteralChar(c: char) {
    IsSpace(c) || IsDigit(c) || c == '_' || c == '+' || c == '-'
  }

  /** `int(s)` for a string `s`: `None` stands for the `ValueError` it raises.
      An accepted string holds only whitespace, digits, underscores and
      signs, and a negative result comes from a leading `-`. That exactly
      the integer literals are accepted is `ParseIntOfLiteral` together
      with `ParseIntOnlyOfLiteral`. */
  function ParseInt(s: string): (r: Option<int>)
    ensures r.Some? ==> forall i :: 0 <= i < |s| ==> LiteralChar(s[i])
    ensures r.Some? && r.value < 0 ==> |Strip(s)| > 0 && Strip(s)[0] == '-'
  {
    ForeignCharRejected(s);
    ParseStripped(Strip(s))
  }

  /** `int()` of what is left after stripping: an optional sign and a digit
      string. */
  function ParseStripped(t: string): Option<int> {
    if |t| > 0 && (t[0] == '+' || t[0] == '-') then
      if ValidDigits(t[1..]) then
        var n: int := DigitsValue(t[1..]);
        Some(if t[0] == '-' then -n else n)
      else None
    else if ValidDigits(t) then Some(DigitsValue(t))
    else None
  }

  function DigitChar(d: nat): char
    requires d < 10
  {
    ('0' as int + d) as char
  }

  /** The digits of `n` in base 10, most significant first. */
  function Digits(n: nat): string {
    if n < 10 then [DigitChar(n)] else Digits(n / 10) + [DigitChar(n % 10)]
  }

  /** `str(n)` for an integer `n`. */
  function Decimal(n: int): string {
    if n < 0 then "-" + Digits(-n) else Digits(n)
  }

  lemma {:induction false} DigitsRoundTrip(n: nat)
    ensures ValidDigits(Digits(n)) && DigitsValue(Digits(n)) == n
    ensures forall i :: 0 <= i < |Digits(n)| ==> IsDigit(Digits(n)[i])
  {
    if n < 10 {
      assert Digits(n) == [DigitChar(n)];
      assert IsDigit(DigitChar(n));
    } else {
      DigitsRoundTrip(n / 10);
      var s := Digits(n);
      assert s[..|s| - 1] == Digits(n / 10);
      assert forall i :: 0 <= i < |s| ==> IsDigit(s[i]) by {
        forall i | 0 <= i < |s| ensures IsDigit(s[i]) {
          if i < |s| - 1 { assert s[i] == Digits(n / 10)[i]; }
        }
      }
    }
  }

  /** `int(str(n)) == n`: `ParseInt` accepts every decimal rendering. */
  lemma ParseIntOfDecimal(n: int)
    ensures ParseInt(Decimal(n)) == Some(n)
  {
    var m := if n < 0 then -n else n;
    DigitsRoundTrip(m);
    var d := Digits(m);
    assert IsDigit(d[0]) && IsDigit(d[|d| - 1]);
    if n < 0 {
      ParseIntOfNegativeDigits(d);
    } else {
      ParseIntOfPlainDigits(d);
    }
  }

  lemma ParseIntOfPlainDigits(d: string)
    requires ValidDigits(d) && IsDigit(d[0]) && IsDigit(d[|d| - 1])
    ensures ParseInt(d) == Some(DigitsValue(d))
  {
    StripWithoutSpaces(d);
  }

  lemma ParseIntOfNegativeDigits(d: string)
    requires ValidDigits(d) && IsDigit(d[|d| - 1])
    ensures ParseInt("-" + d) == Some(-(DigitsValue(d) as int))
  {
    var s := "-" + d;
    assert s[0] == '-' && s[|s| - 1] == d[|d| - 1];
    StripWithoutSpaces(s);
    assert s[1..] == d;
  }

  lemma StripWithoutSpaces(s: string)
    requires |s| > 0 && !IsSpace(s[0]) && !IsSpace(s[|s| - 1])
    ensures Strip(s) == s
  {
    assert LeadingSpaces(s) == 0 && TrailingSpaces(s) == 0;
  }

  lemma NotDigitsAt(s: string, j: nat)
    requires j < |s| && !IsDigit(s[j]) && s[j] != '_'
    ensures !ValidDigits(s)
  {
    assert !DigitOrSeparator(s, j);
  }

  /** A character that is not whitespace, a digit, an underscore or a sign
      leaves neither of the two shapes `int()` accepts after stripping. */
  lemma ForeignCharRejected(s: string)
    ensures (exists i :: 0 <= i < |s| && !LiteralChar(s[i])) ==>
              var t := Strip(s);
              && !ValidDigits(t)
              && !(|t| > 0 && (t[0] == '+' || t[0] == '-') && ValidDigits(t[1..]))
  {
    if i :| 0 <= i < |s| && !LiteralChar(s[i]) {
      var t := Strip(s);
      var j := i - LeadingSpaces(s);
      assert t[j] == s[i];
      NotDigitsAt(t, j);
      if |t| > 0 && (t[0] == '+' || t[0] == '-') {
        assert j > 0;
        assert t[1..][j - 1] == s[i];
        NotDigitsAt(t[1..], j - 1);
      }
    }
  }

  predicate AllSpaces(w: string) {
    forall i :: 0 <= i < |w| ==> IsSpace(w[i])
  }

  lemma {:induction false} LeadingOfPadded(w: string, rest: string)
    requires AllSpaces(w) && |rest| > 0 && !IsSpace(rest[0])
    ensures LeadingSpaces(w + rest) == |w|
  {
    if |w| > 0 {
      assert (w + rest)[1..] == w[1..] + rest;
      LeadingOfPadded(w[1..], rest);
    } else {
      assert w + rest == rest;
    }
  }

  lemma {:induction false} TrailingOfPadded(rest: string, w: string)
    requires AllSpaces(w) && |rest| > 0 && !IsSpace(rest[|rest| - 1])
    ensures TrailingSpaces(rest + w) == |w|
  {
    var s := rest + w;
    if |w| > 0 {
      assert s[|s| - 1] == w[|w| - 1];
      assert s[..|s| - 1] == rest + w[..|w| - 1];
      TrailingOfPadded(rest, w[..|w| - 1]);
    } else {
      assert s == rest;
    }
  }

  /** Whitespace around a literal is what `Strip` removes, and only that. */
  lemma StripPadded(w1: string, core: string, w2: string)
    requires AllSpaces(w1) && AllSpaces(w2)
    requires |core| > 0 && !IsSpace(core[0]) && !IsSpace(core[|core| - 1])
    ensures Strip(w1 + core + w2) == core
  {
    var s := w1 + core + w2;
    assert s == w1 + (core + w2);
    LeadingOfPadded(w1, core + w2);
    TrailingOfPadded(w1 + core, w2);
    assert s[|w1|..|s| - |w2|] == core;
  }

  /** The converse of `ParseInt`'s contract: every integer literal, with an
      optional sign and surrounded by any whitespace, is accepted, and its
      value is that of its digits with the sign applied. */
  lemma ParseIntOfLiteral(w1: string, sign: string, d: string, w2: string)
    requires AllSpaces(w1) && AllSpaces(w2)
    requires sign == "" || sign == "+" || sign == "-"
    requires ValidDigits(d)
    ensures ParseInt(w1 + (sign + d) + w2) ==
              Some(if sign == "-" then -(DigitsValue(d) as int) else DigitsValue(d) as int)
  {
    var core := sign + d;
    assert DigitOrSeparator(d, 0) && DigitOrSeparator(d, |d| - 1);
    assert core[0] == if sign == "" then d[0] else sign[0];
    assert core[|core| - 1] == d[|d| - 1];
    StripPadded(w1, core, w2);
    ParseIntOfStripped(w1 + core + w2, sign, d);
  }

  /** Every string `ParseInt` accepts is an integer literal: whitespace, an
      optional sign, a digit string and whitespace again. Any other string,
      such as `"++5"`, `"1 2"`, `"5-"`, `"1__0"` or `"_1"`, is rejected. */
  lemma ParseIntOnlyOfLiteral(s: string)
    requires ParseInt(s).Some?
    ensures exists w1, sign, d, w2 ::
              && AllSpaces(w1) && AllSpaces(w2)
              && (sign == "" || sign == "+" || sign == "-")
              && ValidDigits(d)
              && s == w1 + (sign + d) + w2
  {
    AcceptedShape(s);
    StripSplits(s);
    SplitIsLiteral(s, s[..LeadingSpaces(s)], Strip(s), s[|s| - TrailingSpaces(s)..]);
  }

  lemma SplitIsLiteral(s: string, w1: string, t: string, w2: string)
    requires AllSpaces(w1) && AllSpaces(w2) && s == w1 + t + w2
    requires |t| > 0 && (ValidDigits(t) || ((t[0] == '+' || t[0] == '-') && ValidDigits(t[1..])))
    ensures exists w1, sign, d, w2 ::
              && AllSpaces(w1) && AllSpaces(w2)
              && (sign == "" || sign == "+" || sign == "-")
              && ValidDigits(d)
              && s == w1 + (sign + d) + w2
  {
    if ValidDigits(t) {
      assert t == "" + t;
      LiteralParts(s, w1, "", t, w2);
    } else {
      var sign, d := t[..1], t[1..];
      assert t == sign + d;
      LiteralParts(s, w1, sign, d, w2);
    }
  }

  lemma LiteralParts(s: string, w1: string, sign: string, d: string, w2: string)
    requires AllSpaces(w1) && AllSpaces(w2)
    requires sign == "" || sign == "+" || sign == "-"
    requires ValidDigits(d) && s == w1 + (sign + d) + w2
    ensures exists w1, sign, d, w2 ::
              && AllSpaces(w1) && AllSpaces(w2)
              && (sign == "" || sign == "+" || sign == "-")
              && ValidDigits(d)
              && s == w1 + (sign + d) + w2
  {
  }

  /** What is left after stripping an accepted string is a digit string,
      possibly after one sign. */
  lemma AcceptedShape(s: string)
    requires ParseInt(s).Some?
    ensures var t := Strip(s);
      |t| > 0 && (ValidDigits(t) || ((t[0] == '+' || t[0] == '-') && ValidDigits(t[1..])))
  {
  }

  lemma ThreeParts<T>(s: seq<T>, i: nat, j: nat)
    requires i <= j <= |s|
    ensures s == s[..i] + s[i..j] + s[j..]
  {
  }

  /** A string is its leading whitespace, its stripped part and its trailing
      whitespace. */
  lemma StripSplits(s: string)
    requires Strip(s) != []
    ensures AllSpaces(s[..LeadingSpaces(s)]) && AllSpaces(s[|s| - TrailingSpaces(s)..])
    ensures s == s[..LeadingSpaces(s)] + Strip(s) + s[|s| - TrailingSpaces(s)..]
  {
    var lead, trail := LeadingSpaces(s), TrailingSpaces(s);
    ThreeParts(s, lead, |s| - trail);
    assert Strip(s) == s[lead..|s| - trail];
    LeadingAreSpaces(s);
    TrailingAreSpaces(s);
  }

  lemma LeadingAreSpaces(s: string)
    ensures AllSpaces(s[..LeadingSpaces(s)])
  {
    var front := s[..LeadingSpaces(s)];
    forall i | 0 <= i < |front| ensures IsSpace(front[i]) { assert front[i] == s[i]; }
  }

  lemma TrailingAreSpaces(s: string)
    ensures AllSpaces(s[|s| - TrailingSpaces(s)..])
  {
    var k := |s| - TrailingSpaces(s);
    var back := s[k..];
    forall i | 0 <= i < |back| ensures IsSpace(back[i]) { assert back[i] == s[k + i]; }
  }

  lemma ParseIntOfStripped(s: string, sign: string, d: string)
    requires sign == "" || sign == "+" || sign == "-"
    requires ValidDigits(d) && Strip(s) == sign + d
    ensures ParseInt(s) ==
              Some(if sign == "-" then -(DigitsValue(d) as int) else DigitsValue(d) as int)
  {
    ParseStrippedOf(sign, d);
  }

  lemma ParseStrippedOf(sign: string, d: string)
    requires sign == "" || sign == "+" || sign == "-"
    requires ValidDigits(d)
    ensures ParseStripped(sign + d) ==
              Some(if sign == "-" then -(DigitsValue(d) as int) else DigitsValue(d) as int)
  {
    var t := sign + d;
    if sign == "" {
      assert t == d;
      assert DigitOrSeparator(d, 0);
    } else {
      assert t[0] == sign[0] && t[1..] == d;
    }
  }

  /** `int(x)` truncates a float toward zero. */
  function Truncate(r: real): (n: int)
    ensures 0.0 <= r ==> n as real <= r < n as real + 1.0
    ensures r < 0.0 ==> n as real - 1.0 < r <= n as real
  {
    if r >= 0.0 then r.Floor else -((-r).Floor)
  }

  /** Why `int(v)` raises: `ValueError` for a string that is no integer
      literal, `TypeError` for None, a list or a mapping. */
  datatype IntFailure = IntValueError(text: string) | IntTypeError(v: Value)

  /** `int(v)` on a value from YAML, the environment or a default. */
  function ToInt(v: Value): (r: Result<int, IntFailure>)
    ensures v.Int? ==> r == Ok(v.i)
    ensures v.Bool? ==> r == Ok(if v.b then 1 else 0)
    ensures v.Str? ==> (r.Ok? <==> ParseInt(v.s).Some?)
    ensures v.Str? && r.Ok? ==> ParseInt(v.s) == Some(r.value)
    ensures v.Float? ==> r == Ok(Truncate(v.r))
    ensures v.Str? && r.Err? ==> r.error == IntValueError(v.s)
    ensures (v.Null? || v.List? || v.Mapping?) <==> r == Err(IntTypeError(v))
  {
    match v
    case Int(i) => Ok(i)
    case Bool(b) => Ok(if b then 1 else 0)
    case Float(x) => Ok(Truncate(x))
    case Str(s) =>
      (match ParseInt(s)
       case Some(n) => Ok(n)
       case None => Err(IntValueError(s)))
    case _ => Err(IntTypeError(v))
  }

  /** The result of `str(v)`. Python's rendering of a float, a list or a
      mapping is not modelled: such a value is kept as it is. */
  datatype Text = Chars(s: string) | Unrendered(v: Value)

  /** A decimal literal as `str()` writes an integer: an optional `-`, then
      digits without a leading zero; `0` itself is unsigned. */
  predicate CanonicalDecimal(s: string) {
    var d := if |s| > 0 && s[0] == '-' then s[1..] else s;
    && |d| > 0
    && (forall i :: 0 <= i < |d| ==> IsDigit(d[i]))
    && (d[0] == '0' ==> d == "0" && s == d)
  }

  lemma {:induction false} DigitsLeading(n: nat)
    ensures |Digits(n)| > 0 && (Digits(n)[0] == '0' <==> n == 0)
  {
    if n >= 10 {
      DigitsLeading(n / 10);
      assert Digits(n)[0] == Digits(n / 10)[0];
    }
  }

  /** `Decimal(n)` is canonical, and starts with `-` exactly for negatives. */
  lemma DecimalCanonical(n: int)
    ensures CanonicalDecimal(Decimal(n))
    ensures Decimal(n)[0] == '-' <==> n < 0
  {
    var m := if n < 0 then -n else n;
    DigitsRoundTrip(m);
    DigitsLeading(m);
    var d := Digits(m);
    if n < 0 {
      assert Decimal(n)[1..] == d;
    } else {
      assert IsDigit(d[0]);
    }
  }

  /** `str(v)`. */
  function ToStr(v: Value): (t: Text)
    ensures v.Str? ==> t == Chars(v.s)
    ensures v.Int? ==> && t.Chars? && CanonicalDecimal(t.s)
                       && (t.s[0] == '-' <==> v.i < 0)
                       && ParseInt(t.s) == Some(v.i)
    ensures v.Bool? ==> t == Chars(if v.b then "True" else "False")
    ensures v.Null? ==> t == Chars("None")
    ensures v.Float? || v.List? || v.Mapping? ==> t == Unrendered(v)
  {
    match v
    case Str(s) => Chars(s)
    case Int(i) => ParseIntOfDecimal(i); DecimalCanonical(i); Chars(Decimal(i))
    case Bool(b) => Chars(if b then "True" else "False")
    case Null => Chars("None")
    case _ => Unrendered(v)
  }
}
