/**
 * String helpers that stand in for the JavaScript built-ins the solvers use:
 * `String.prototype.split` with a literal separator, `trim` and `trimEnd`, and decimal
 * conversion between integers and text (`Number(...)` and template strings).
 */
module Text {
  import opened Outcomes

  predicate IsDigit(c: char) {
    '0' <= c <= '9'
  }

  predicate AllDigits(s: string) {
    forall i :: 0 <= i < |s| ==> IsDigit(s[i])
  }

  function DigitValue(c: char): nat
    requires IsDigit(c)
  {
    c as int - '0' as int
  }

  function DigitChar(d: nat): (c: char)
    requires d < 10
    ensures IsDigit(c) && DigitValue(c) == d
  {
    ('0' as int + d) as char
  }

  /**
   * Whitespace removed by `trim` and `trimEnd`: JavaScript's WhiteSpace
   * (tab, vertical tab, form feed, no-break space, byte order mark and the
   * space separators) and its LineTerminator characters.
   */
  predicate IsWhitespace(c: char) {
    c == '\t' || c == '\U{000B}' || c == '\U{000C}' || c == ' ' || c == '\U{00A0}' || c == '\U{FEFF}'
    || c == '\U{1680}' || '\U{2000}' <= c <= '\U{200A}' || c == '\U{202F}' || c == '\U{205F}' || c == '\U{3000}'
    || c == '\n' || c == '\r' || c == '\U{2028}' || c == '\U{2029}'
  }

  function TrimEnd(s: string): (r: string)
    ensures |r| <= |s| && r == s[..|r|]
    ensures |r| > 0 ==> !IsWhitespace(r[|r| - 1])
    ensures forall i :: |r| <= i < |s| ==> IsWhitespace(s[i])
  {
    if |s| > 0 && IsWhitespace(s[|s| - 1]) then TrimEnd(s[..|s| - 1]) else s
  }

  function TrimStart(s: string): (r: string)
    ensures |r| <= |s| && r == s[|s| - |r|..]
    ensures |r| > 0 ==> !IsWhitespace(r[0])
    ensures forall i :: 0 <= i < |s| - |r| ==> IsWhitespace(s[i])
  {
    if |s| > 0 && IsWhitespace(s[0]) then TrimStart(s[1..]) else s
  }

  /** `trim`: whitespace removed from both ends. */
  function Trim(s: string): string {
    TrimStart(TrimEnd(s))
  }

  /** Whether `sep` occurs in `s` starting at index `i`. */
  predicate OccursAt(s: string, sep: string, i: nat) {
    i + |sep| <= |s| && s[i..i + |sep|] == sep
  }

  /** The first index at or after `i` at which `sep` occurs in `s`. */
  function FindFrom(s: string, sep: string, i: nat): (r: Option<nat>)
    requires i <= |s|
    ensures r.Some? ==> i <= r.value && OccursAt(s, sep, r.value)
    ensures r.Some? ==> forall j :: i <= j < r.value ==> !OccursAt(s, sep, j)
    ensures r.None? ==> forall j :: i <= j <= |s| ==> !OccursAt(s, sep, j)
    decreases |s| - i
  {
    if i + |sep| > |s| then None
    else if s[i..i + |sep|] == sep then Some(i)
    else FindFrom(s, sep, i + 1)
  }

  /** The first index at which `sep` occurs in `s` (JavaScript `indexOf`). */
  function Find(s: string, sep: string): (r: Option<nat>)
    ensures r.Some? ==> OccursAt(s, sep, r.value)
    ensures r.Some? ==> forall j :: 0 <= j < r.value ==> !OccursAt(s, sep, j)
    ensures r.None? ==> forall j :: 0 <= j <= |s| ==> !OccursAt(s, sep, j)
  {
    FindFrom(s, sep, 0)
  }

  /** `s.split(sep)` for a non-empty literal separator. */
  function Split(s: string, sep: string): (parts: seq<string>)
    requires |sep| > 0
    ensures |parts| >= 1
    decreases |s|
  {
    match Find(s, sep)
    case None => [s]
    case Some(i) => [s[..i]] + Split(s[i + |sep|..], sep)
  }

  /** `parts.join(sep)`. */
  function Join(parts: seq<string>, sep: string): string
    requires |parts| >= 1
  {
    if |parts| == 1 then parts[0] else parts[0] + sep + Join(parts[1..], sep)
  }

  /** Joining two non-empty lists one after the other puts the separator between their joins. */
  lemma {:induction false} JoinAppend(p: seq<string>, q: seq<string>, sep: string)
    requires |p| >= 1 && |q| >= 1
    ensures Join(p + q, sep) == Join(p, sep) + sep + Join(q, sep)
    decreases |p|
  {
    assert (p + q)[0] == p[0];
    if |p| == 1 {
      assert (p + q)[1..] == q;
    } else {
      assert (p + q)[1..] == p[1..] + q;
      JoinAppend(p[1..], q, sep);
      assert Join(p + q, sep) == p[0] + sep + (Join(p[1..], sep) + sep + Join(q, sep));
    }
  }

  lemma {:induction false} SplitJoin(parts: seq<string>, c: char)
    requires |parts| >= 1
    requires forall k :: 0 <= k < |parts| ==> c !in parts[k]
    ensures Split(Join(parts, [c]), [c]) == parts
    decreases |parts|
  {
    var s := Join(parts, [c]);
    if |parts| > 1 {
      var a := parts[0];
      var rest := Join(parts[1..], [c]);
      assert s == a + [c] + rest;
      assert OccursAt(s, [c], |a|) by { assert s[|a|..|a| + 1] == [c]; }
      forall j | 0 <= j < |a| ensures !OccursAt(s, [c], j) {
        assert s[j..j + 1] == [a[j]];
      }
      assert Find(s, [c]) == Some(|a|);
      assert s[..|a|] == a;
      assert s[|a| + 1..] == rest;
      SplitJoin(parts[1..], c);
    } else {
      forall j | 0 <= j < |s| ensures !OccursAt(s, [c], j) {
        assert s[j..j + 1] == [s[j]];
      }
    }
  }

  /** The decimal digits of a natural number, most significant first. */
  function NatToString(n: nat): (s: string)
    ensures |s| >= 1 && AllDigits(s)
  {
    if n < 10 then [DigitChar(n)] else NatToString(n / 10) + [DigitChar(n % 10)]
  }

  /** The value of a string of decimal digits. */
  function DigitsValue(s: string): nat
    requires AllDigits(s)
  {
    if s == [] then 0 else DigitsValue(s[..|s| - 1]) * 10 + DigitValue(s[|s| - 1])
  }

  lemma {:induction false} DigitsValueOfNatToString(n: nat)
    ensures DigitsValue(NatToString(n)) == n
  {
    var s := NatToString(n);
    if n >= 10 {
      assert s[..|s| - 1] == NatToString(n / 10);
      DigitsValueOfNatToString(n / 10);
    }
  }

  /** Decimal rendering of an integer, as a JavaScript template string renders it. */
  function IntToString(i: int): string {
    if i < 0 then "-" + NatToString(-i) else NatToString(i)
  }

  /**
   * `Number(s)` restricted to decimal integers: an optional minus sign and at
   * least one digit. Any other text is `None` here (JavaScript gives NaN).
   */
  function ParseInt(s: string): Option<int> {
    if |s| >= 2 && s[0] == '-' && AllDigits(s[1..]) then Some(-(DigitsValue(s[1..]) as int))
    else if |s| >= 1 && AllDigits(s) then Some(DigitsValue(s))
    else None
  }

  lemma {:induction false} IntToStringRoundTrip(i: int)
    ensures ParseInt(IntToString(i)) == Some(i)
    ensures NumberOf(IntToString(i)) == Some(i)
    ensures ',' !in IntToString(i)
  {
    var digits := NatToString(if i < 0 then -i else i);
    DigitsValueOfNatToString(if i < 0 then -i else i);
    var s := IntToString(i);
    if i < 0 {
      assert s[1..] == digits;
      assert !IsWhitespace(s[|s| - 1]) by { assert s[|s| - 1] == digits[|digits| - 1]; assert IsDigit(digits[|digits| - 1]); }
      assert TrimEnd(s) == s;
      assert !IsWhitespace(s[0]);
      assert TrimStart(s) == s;
      assert !AllDigits(s) by { assert !IsDigit(s[0]); }
      assert SignlessOf(s) == s;
    } else {
      assert IsDigit(digits[0]);
    }
    assert forall k :: 0 <= k < |digits| ==> digits[k] != ',' by {
      forall k | 0 <= k < |digits| ensures digits[k] != ',' {
        assert IsDigit(digits[k]);
      }
    }
  }

  /** A character of the regular-expression class `\w`. */
  predicate IsWordChar(c: char) {
    'a' <= c <= 'z' || 'A' <= c <= 'Z' || IsDigit(c) || c == '_'
  }

  /** Whether `s` matches `\w+`. */
  predicate IsWord(s: string) {
    |s| >= 1 && forall i :: 0 <= i < |s| ==> IsWordChar(s[i])
  }

  /** When a split gives exactly two parts, the text is the two parts around one separator. */
  lemma {:induction false} SplitTwo(s: string, sep: string)
    requires |sep| > 0 && |Split(s, sep)| == 2
    ensures s == Split(s, sep)[0] + sep + Split(s, sep)[1]
  {
    var i := Find(s, sep).value;
    assert Split(s[i + |sep|..], sep) == [Split(s, sep)[1]];
    assert s == s[..i] + s[i..i + |sep|] + s[i + |sep|..];
  }

  /**
   * `Number(token)` on decimal integers: surrounding whitespace is ignored,
   * text that is empty after trimming is 0, and an optional `+` or `-` sign
   * may lead the digits.
   */
  function NumberOf(token: string): (r: Option<int>)
    ensures Trim(token) == [] ==> r == Some(0)
    ensures AllDigits(token) ==> r == Some(DigitsValue(token))
    ensures Trim(token) != [] ==> r == ParseInt(SignlessOf(Trim(token)))
  {
    var t := Trim(token);
    if AllDigits(token) then
      NoWhitespaceTrims(token);
      if token == [] then Some(0) else ParseInt(token)
    else if t == [] then Some(0)
    else ParseInt(SignlessOf(t))
  }

  /** A sign before digits, with whitespace around them: `Number(" -12 ")` is -12 and `Number("+7")` is 7. */
  lemma {:induction false} SignedNumber(d: string, pad: string)
    requires |d| >= 1 && AllDigits(d)
    requires forall i :: 0 <= i < |pad| ==> IsWhitespace(pad[i])
    ensures NumberOf(pad + "-" + d + pad) == Some(-(DigitsValue(d) as int))
    ensures NumberOf(pad + "+" + d + pad) == Some(DigitsValue(d))
  {
    SignedNumberWith('-', d, pad);
    SignedNumberWith('+', d, pad);
  }

  lemma {:induction false} SignedNumberWith(sign: char, d: string, pad: string)
    requires sign == '-' || sign == '+'
    requires |d| >= 1 && AllDigits(d)
    requires forall i :: 0 <= i < |pad| ==> IsWhitespace(pad[i])
    ensures NumberOf(pad + [sign] + d + pad) == Some(if sign == '-' then -(DigitsValue(d) as int) else DigitsValue(d))
  {
    SignedTrims(sign, d, pad);
    SignedParse(sign, d);
  }

  /** A sign before digits reads as the negative or positive value of the digits. */
  lemma {:induction false} SignedParse(sign: char, d: string)
    requires sign == '-' || sign == '+'
    requires |d| >= 1 && AllDigits(d)
    ensures ParseInt(SignlessOf([sign] + d)) == Some(if sign == '-' then -(DigitsValue(d) as int) else DigitsValue(d))
  {
    var t := [sign] + d;
    assert t[1..] == d;
    assert !AllDigits(t) by { assert !IsDigit(t[0]); }
  }

  /** A sign before digits, with whitespace around, trims to the sign and the digits, which are not all digits. */
  lemma {:induction false} SignedTrims(sign: char, d: string, pad: string)
    requires sign == '-' || sign == '+'
    requires |d| >= 1 && AllDigits(d)
    requires forall i :: 0 <= i < |pad| ==> IsWhitespace(pad[i])
    ensures Trim(pad + [sign] + d + pad) == [sign] + d
    ensures !AllDigits(pad + [sign] + d + pad)
  {
    var t := [sign] + d;
    var x := pad + [sign] + d + pad;
    assert x == pad + t + pad;
    assert t[|t| - 1] == d[|d| - 1];
    PadTrims(t, pad);
    assert x[|pad|] == sign;
  }

  /** Whitespace around text that neither starts nor ends in whitespace is trimmed off. */
  lemma {:induction false} PadTrims(t: string, pad: string)
    requires |t| >= 1 && !IsWhitespace(t[0]) && !IsWhitespace(t[|t| - 1])
    requires forall i :: 0 <= i < |pad| ==> IsWhitespace(pad[i])
    ensures Trim(pad + t + pad) == t
  {
    TrimEndPad(pad + t, pad);
    TrimStartPad(t, pad);
  }

  /** Trailing whitespace after text that does not end in whitespace is trimmed off. */
  lemma {:induction false} TrimEndPad(t: string, pad: string)
    requires |t| >= 1 && !IsWhitespace(t[|t| - 1])
    requires forall i :: 0 <= i < |pad| ==> IsWhitespace(pad[i])
    ensures TrimEnd(t + pad) == t
  {
    var s := t + pad;
    var e := TrimEnd(s);
    assert s[|t| - 1] == t[|t| - 1];
    assert forall i :: |t| <= i < |s| ==> IsWhitespace(s[i]) by {
      forall i | |t| <= i < |s| ensures IsWhitespace(s[i]) {
        assert s[i] == pad[i - |t|];
      }
    }
    assert |e| >= |t|;
    assert |e| <= |t| by {
      assert e[|e| - 1] == s[|e| - 1];
    }
    assert e == s[..|t|] == t;
  }

  /** Leading whitespace before text that does not start with whitespace is trimmed off. */
  lemma {:induction false} TrimStartPad(t: string, pad: string)
    requires |t| >= 1 && !IsWhitespace(t[0])
    requires forall i :: 0 <= i < |pad| ==> IsWhitespace(pad[i])
    ensures TrimStart(pad + t) == t
  {
    var s := pad + t;
    var b := TrimStart(s);
    assert s[|pad|] == t[0];
    assert forall i :: 0 <= i < |pad| ==> IsWhitespace(s[i]) by {
      forall i | 0 <= i < |pad| ensures IsWhitespace(s[i]) {
        assert s[i] == pad[i];
      }
    }
    assert |b| >= |t|;
    assert |b| <= |t| by {
      assert b[0] == s[|s| - |b|];
    }
    assert b == s[|pad|..] == t;
  }

  /** A leading `+` before digits, as `Number` accepts it, dropped. */
  function SignlessOf(t: string): (r: string)
    ensures |t| >= 2 && t[0] == '+' && AllDigits(t[1..]) ==> r == t[1..]
    ensures !(|t| >= 1 && t[0] == '+') ==> r == t
  {
    if |t| >= 2 && t[0] == '+' && AllDigits(t[1..]) then t[1..] else t
  }

  /** Text of digits holds no whitespace, so trimming leaves it as it is. */
  lemma {:induction false} NoWhitespaceTrims(s: string)
    requires AllDigits(s)
    ensures Trim(s) == s
  {
    if |s| > 0 {
      assert !IsWhitespace(s[|s| - 1]) by { assert IsDigit(s[|s| - 1]); }
      assert TrimEnd(s) == s;
      assert !IsWhitespace(s[0]) by { assert IsDigit(s[0]); }
      assert TrimStart(s) == s;
    }
  }
}
