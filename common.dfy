/**
 * Character and string primitives that the album code borrows from its string library:
 * the white-space test, trimming, ASCII case folding and the decimal reader.
 */
module Text {

  datatype Option<T> = None | Some(value: T)

  /** The index of the first element satisfying p, or -1 when none does: what every linear
      search of a table in the album code computes. */
  function FirstIndex<T>(s: seq<T>, p: T -> bool): (k: int)
    ensures -1 <= k < |s|
    ensures k >= 0 ==> p(s[k]) && forall j :: 0 <= j < k ==> !p(s[j])
    ensures k < 0 ==> forall j :: 0 <= j < |s| ==> !p(s[j])
  {
    if s == [] then -1
    else if p(s[0]) then 0
    else
      var k := FirstIndex(s[1..], p);
      if k < 0 then -1 else k + 1
  }

  /** QChar::isSpace: the C0 spacing controls 9..13, the space, NEL, NBSP and the Unicode
      space, line and paragraph separators. */
  predicate IsSpace(c: char)
  {
    || ('\t' <= c <= '\r')
    || c == ' ' || c == '\U{85}' || c == '\U{A0}' || c == '\U{1680}'
    || ('\U{2000}' <= c <= '\U{200A}')
    || c == '\U{2028}' || c == '\U{2029}' || c == '\U{202F}' || c == '\U{205F}' || c == '\U{3000}'
  }

  /** The tab and the space: the only characters the album language treats as separators. */
  predicate IsBlank(c: char)
  {
    c == ' ' || c == '\t'
  }

  lemma BlankIsSpace(c: char)
    ensures IsBlank(c) ==> IsSpace(c)
  {
  }

  /** Leading white space removed. */
  function TrimStart(s: string): (r: string)
    ensures |r| <= |s| && r == s[|s| - |r|..]
    ensures r == [] || !IsSpace(r[0])
    ensures forall k :: 0 <= k < |s| - |r| ==> IsSpace(s[k])
  {
    if s == [] || !IsSpace(s[0]) then s else TrimStart(s[1..])
  }

  /** Trailing white space removed (QString::chop in a loop, as the album code does too). */
  function TrimEnd(s: string): (r: string)
    ensures r <= s
    ensures r == [] || !IsSpace(r[|r| - 1])
    ensures forall k :: |r| <= k < |s| ==> IsSpace(s[k])
  {
    if s == [] || !IsSpace(s[|s| - 1]) then s else TrimEnd(s[..|s| - 1])
  }

  /** QString::trimmed. */
  function Trim(s: string): (r: string)
    ensures |r| <= |s|
    ensures r == [] || (!IsSpace(r[0]) && !IsSpace(r[|r| - 1]))
  {
    TrimEnd(TrimStart(s))
  }

  /** The trimmed text is a slice of s with only white space before it and after it. */
  lemma TrimIsSlice(s: string)
    ensures exists i, j :: 0 <= i <= j <= |s| && Trim(s) == s[i..j]
                           && (forall k :: 0 <= k < i ==> IsSpace(s[k]))
                           && (forall k :: j <= k < |s| ==> IsSpace(s[k]))
  {
    var t := TrimStart(s);
    var e := TrimEnd(t);
    SliceOfSuffix(s, t, e);
    assert Trim(s) == s[|s| - |t|..|s| - |t| + |e|];
  }

  /** A suffix t of s, cut back to e by removing white space at its end: e is a slice of s
      with only white space after it. */
  lemma SliceOfSuffix(s: string, t: string, e: string)
    requires |t| <= |s| && t == s[|s| - |t|..] && e <= t
    requires forall k :: |e| <= k < |t| ==> IsSpace(t[k])
    ensures var i := |s| - |t|;
            e == s[i..i + |e|] && forall k :: i + |e| <= k < |s| ==> IsSpace(s[k])
  {
    var i := |s| - |t|;
    forall k | i + |e| <= k < |s|
      ensures IsSpace(s[k])
    {
      assert s[k] == t[k - i];
    }
  }

  lemma {:induction false} TrimStartOfClean(s: string)
    requires s == [] || !IsSpace(s[0])
    ensures TrimStart(s) == s
  {
  }

  lemma {:induction false} TrimEndOfClean(s: string)
    requires s == [] || !IsSpace(s[|s| - 1])
    ensures TrimEnd(s) == s
  {
  }

  /** Trimming is idempotent: a trimmed string is its own trim. */
  lemma TrimIdempotent(s: string)
    ensures Trim(Trim(s)) == Trim(s)
  {
    var t := Trim(s);
    TrimStartOfClean(t);
    TrimEndOfClean(t);
  }

  function UpperChar(c: char): char
  {
    if 'a' <= c <= 'z' then (c as int - 'a' as int + 'A' as int) as char else c
  }

  function LowerChar(c: char): char
  {
    if 'A' <= c <= 'Z' then (c as int - 'A' as int + 'a' as int) as char else c
  }

  /** QString::toUpper, restricted to the ASCII letters. */
  function Upper(s: string): (r: string)
    ensures |r| == |s|
    ensures forall i :: 0 <= i < |s| ==> r[i] == UpperChar(s[i])
  {
    seq(|s|, i requires 0 <= i < |s| => UpperChar(s[i]))
  }

  /** QString::compare(..., Qt::CaseInsensitive) == 0, with ASCII case folding. */
  predicate EqualsIgnoreCase(a: string, b: string)
  {
    |a| == |b| && forall i :: 0 <= i < |a| ==> LowerChar(a[i]) == LowerChar(b[i])
  }

  lemma EqualsIgnoreCaseSymmetric(a: string, b: string)
    ensures EqualsIgnoreCase(a, b) <==> EqualsIgnoreCase(b, a)
  {
  }

  lemma UpperEqualsIgnoreCase(s: string)
    ensures EqualsIgnoreCase(Upper(s), s)
  {
  }

  predicate IsDigit(c: char)
  {
    '0' <= c <= '9'
  }

  predicate AllDigits(s: string)
  {
    forall i :: 0 <= i < |s| ==> IsDigit(s[i])
  }

  /** Value of a string of decimal digits, most significant first. */
  function DigitsValue(s: string): nat
    requires AllDigits(s)
  {
    if s == [] then 0 else 10 * DigitsValue(s[..|s| - 1]) + (s[|s| - 1] as int - '0' as int)
  }

  function Pow10(n: nat): (r: nat)
    ensures r >= 1
  {
    if n == 0 then 1 else 10 * Pow10(n - 1)
  }

  /** Index of the first '.' of s, or |s| when there is none. */
  function DotIndex(s: string): (k: nat)
    ensures k <= |s|
    ensures k < |s| ==> s[k] == '.'
    ensures forall i :: 0 <= i < k ==> s[i] != '.'
  {
    if s == [] then 0 else if s[0] == '.' then 0 else 1 + DotIndex(s[1..])
  }

  /** QString::toDouble for plain decimal numbers: an optional sign, digits, an optional
      fraction. Anything malformed reads as 0, as the library's result does. */
  function ToDouble(s: string): real
  {
    var signed := |s| > 0 && (s[0] == '-' || s[0] == '+');
    var body := if signed then s[1..] else s;
    var dot := DotIndex(body);
    var whole := body[..dot];
    var frac := if dot < |body| then body[dot + 1..] else [];
    if |whole| + |frac| == 0 || !AllDigits(whole) || !AllDigits(frac) then 0.0
    else
      var mag := DigitsValue(whole) as real + DigitsValue(frac) as real / Pow10(|frac|) as real;
      if signed && s[0] == '-' then -mag else mag
  }

  /** Decimal rendering of a natural number. */
  function NatToDigits(n: nat): (s: string)
    ensures |s| > 0 && AllDigits(s)
  {
    if n < 10 then [('0' as int + n) as char]
    else NatToDigits(n / 10) + [('0' as int + n % 10) as char]
  }

  lemma {:induction false} DigitsValueOfNat(n: nat)
    ensures DigitsValue(NatToDigits(n)) == n
  {
    if n >= 10 {
      var s := NatToDigits(n);
      assert s[..|s| - 1] == NatToDigits(n / 10);
      DigitsValueOfNat(n / 10);
    }
  }

  /** Reading back the decimal rendering of a whole number gives the number. */
  lemma ToDoubleOfNat(n: nat)
    ensures ToDouble(NatToDigits(n)) == n as real
  {
    var s := NatToDigits(n);
    assert s[0] != '-' && s[0] != '+';
    assert DotIndex(s) == |s| by {
      forall i | 0 <= i < |s| ensures s[i] != '.' { assert IsDigit(s[i]); }
      DotIndexNone(s);
    }
    assert s[..|s|] == s;
    DigitsValueOfNat(n);
  }

  lemma {:induction false} DotIndexNone(s: string)
    requires forall i :: 0 <= i < |s| ==> s[i] != '.'
    ensures DotIndex(s) == |s|
  {
    if s != [] {
      DotIndexNone(s[1..]);
    }
  }
}
