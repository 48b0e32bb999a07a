/** The Python `str` operations the simulation agents use: `find` (behind `in`, `split`
    and `replace`), the two `split` parts they read, `strip`, `startswith`, `lower`,
    `join`, `replace` and a partial `float()`. */
module Strings {
  import opened Wrappers
  import Seqs

  // ---------------------------------------------------------------------------
  // Occurrences

  /** `m` occurs in `s` starting at index `i`. */
  predicate OccursAt(s: string, m: string, i: int)
  {
    0 <= i && i + |m| <= |s| && s[i..i + |m|] == m
  }

  /** `m` occurs nowhere in `s` (Python `m not in s`). */
  predicate NoOcc(s: string, m: string)
  {
    forall i :: 0 <= i < |s| ==> !OccursAt(s, m, i)
  }

  /** Python `s.find(m)` for a non-empty `m`: the first index where `m` occurs. */
  function Find(s: string, m: string): (r: Option<nat>)
    requires |m| > 0
    ensures r.Some? ==> OccursAt(s, m, r.value) && forall j :: 0 <= j < r.value ==> !OccursAt(s, m, j)
    ensures r.None? <==> NoOcc(s, m)
  {
    FindFrom(s, m, 0)
  }

  /** The scan behind `Find`, from index `i` on. */
  function FindFrom(s: string, m: string, i: nat): (r: Option<nat>)
    requires |m| > 0
    requires forall j :: 0 <= j < i ==> !OccursAt(s, m, j)
    ensures r.Some? ==> OccursAt(s, m, r.value) && forall j :: 0 <= j < r.value ==> !OccursAt(s, m, j)
    ensures r.None? <==> NoOcc(s, m)
    decreases |s| - i
  {
    if i + |m| > |s| then None
    else if s[i..i + |m|] == m then assert OccursAt(s, m, i); Some(i)
    else FindFrom(s, m, i + 1)
  }

  /** Python `s.split(m)[0]`: the text before the first `m`, or all of `s`. */
  function SplitHead(s: string, m: string): (r: string)
    requires |m| > 0
    ensures r <= s
  {
    match Find(s, m)
    case None => s
    case Some(i) => s[..i]
  }

  /** Python `s.split(m)[1]`: the text between the first and the second `m` (or the end);
      `None` where Python raises `IndexError` because `m` does not occur. */
  function SplitSecond(s: string, m: string): (r: Option<string>)
    requires |m| > 0
    ensures r.None? <==> NoOcc(s, m)
  {
    match Find(s, m)
    case None => None
    case Some(i) => Some(SplitHead(s[i + |m|..], m))
  }

  // ---------------------------------------------------------------------------
  // Whitespace

  /** Python `str.isspace` for one character. */
  predicate IsSpace(c: char)
  {
    c == ' ' || ('\t' <= c <= '\r') || ('\U{1C}' <= c <= '\U{1F}') || c == '\U{85}' || c == '\U{A0}'
    || c == '\U{1680}' || ('\U{2000}' <= c <= '\U{200A}') || c == '\U{2028}' || c == '\U{2029}'
    || c == '\U{202F}' || c == '\U{205F}' || c == '\U{3000}'
  }

  predicate AllSpace(s: string)
  {
    forall i :: 0 <= i < |s| ==> IsSpace(s[i])
  }

  /** `s` neither begins nor ends with whitespace. */
  predicate Trimmed(s: string)
  {
    s == [] || (!IsSpace(s[0]) && !IsSpace(s[|s| - 1]))
  }

  function StripLeft(s: string): (r: string)
    ensures |r| <= |s| && r == s[|s| - |r|..]
    ensures r == [] || !IsSpace(r[0])
    ensures AllSpace(s[..|s| - |r|])
  {
    if s != [] && IsSpace(s[0]) then
      var r := StripLeft(s[1..]);
      assert s[1..][..|s| - 1 - |r|] == s[1..|s| - |r|];
      r
    else s
  }

  function StripRight(s: string): (r: string)
    ensures |r| <= |s| && r == s[..|r|]
    ensures r == [] || !IsSpace(r[|r| - 1])
    ensures AllSpace(s[|r|..])
  {
    if s != [] && IsSpace(s[|s| - 1]) then
      var r := StripRight(s[..|s| - 1]);
      assert s[|r|..] == s[..|s| - 1][|r|..] + [s[|s| - 1]];
      r
    else s
  }

  /** Python `s.strip()`: remove leading and trailing whitespace. */
  function Strip(s: string): (r: string)
    ensures Trimmed(r)
  {
    StripRight(StripLeft(s))
  }

  lemma {:induction false} StripLeftPadded(pre: string, s: string)
    requires AllSpace(pre)
    requires s == [] || !IsSpace(s[0])
    ensures StripLeft(pre + s) == s
  {
    if pre != [] {
      assert (pre + s)[1..] == pre[1..] + s;
      StripLeftPadded(pre[1..], s);
    } else {
      assert pre + s == s;
    }
  }

  lemma {:induction false} StripRightPadded(s: string, post: string)
    requires AllSpace(post)
    requires s == [] || !IsSpace(s[|s| - 1])
    ensures StripRight(s + post) == s
  {
    if post != [] {
      assert (s + post)[..|s + post| - 1] == s + post[..|post| - 1];
      StripRightPadded(s, post[..|post| - 1]);
    } else {
      assert s + post == s;
    }
  }

  /** Stripping removes exactly the whitespace padding around a trimmed text. */
  lemma StripPadded(pre: string, s: string, post: string)
    requires AllSpace(pre) && AllSpace(post) && Trimmed(s)
    ensures Strip(pre + s + post) == s
  {
    if s == [] {
      assert pre + s + post == pre + post;
      AllSpaceConcat(pre, post);
      StripLeftPadded(pre + post, []);
      assert pre + post + [] == pre + post;
    } else {
      assert pre + s + post == pre + (s + post);
      StripLeftPadded(pre, s + post);
      StripRightPadded(s, post);
    }
  }

  lemma AllSpaceConcat(a: string, b: string)
    requires AllSpace(a) && AllSpace(b)
    ensures AllSpace(a + b)
  {
    forall i | 0 <= i < |a + b|
      ensures IsSpace((a + b)[i])
    {
      if i >= |a| { assert (a + b)[i] == b[i - |a|]; }
    }
  }

  // ---------------------------------------------------------------------------
  // Other string functions

  /** Python `s.startswith(p)`. */
  predicate StartsWith(s: string, p: string)
  {
    p <= s
  }

  /** Python `s.lower()` on ASCII letters; other characters are unchanged. */
  function Lower(s: string): (r: string)
    ensures |r| == |s|
    ensures forall i :: 0 <= i < |s| ==> r[i] == LowerChar(s[i])
  {
    if s == [] then [] else [LowerChar(s[0])] + Lower(s[1..])
  }

  function LowerChar(c: char): char
  {
    if 'A' <= c <= 'Z' then (c as int + 32) as char else c
  }

  /** Python `sep.join(parts)`. */
  function Join(parts: seq<string>, sep: string): string
  {
    if |parts| == 0 then ""
    else if |parts| == 1 then parts[0]
    else parts[0] + sep + Join(parts[1..], sep)
  }

  /** Python `s.replace(pat, rep)` for a non-empty `pat`: every non-overlapping
      occurrence, scanning left to right, is replaced. */
  function ReplaceAll(s: string, pat: string, rep: string): string
    requires |pat| > 0
    decreases |s|
  {
    match Find(s, pat)
    case None => s
    case Some(i) => s[..i] + rep + ReplaceAll(s[i + |pat|..], pat, rep)
  }

  // ---------------------------------------------------------------------------
  // Decimal numbers

  predicate IsDigit(c: char)
  {
    '0' <= c <= '9'
  }

  predicate AllDigits(s: string)
  {
    forall i :: 0 <= i < |s| ==> IsDigit(s[i])
  }

  function DigitValue(c: char): nat
    requires IsDigit(c)
  {
    c as int - '0' as int
  }

  /** The value of a run of decimal digits, most significant first. */
  function DigitsValue(s: string): nat
    requires AllDigits(s)
  {
    if s == [] then 0 else DigitsValue(s[..|s| - 1]) * 10 + DigitValue(s[|s| - 1])
  }

  /** The value of the digits after a decimal point: `"25"` is 0.25. */
  function FractionValue(s: string): (r: real)
    requires AllDigits(s)
    ensures 0.0 <= r <= 1.0
  {
    if s == [] then 0.0 else (DigitValue(s[0]) as real + FractionValue(s[1..])) / 10.0
  }

  /** An unsigned decimal: digits, optionally a point and more digits, at least one
      digit in all (`"3"`, `"3.5"`, `"3."`, `".5"`). */
  function ParseUnsigned(t: string): Option<real>
  {
    match Find(t, ".")
    case None =>
      if t != [] && AllDigits(t) then Some(DigitsValue(t) as real) else None
    case Some(i) =>
      var a := t[..i];
      var b := t[i + 1..];
      if (a != [] || b != []) && AllDigits(a) && AllDigits(b) then
        Some(DigitsValue(a) as real + FractionValue(b))
      else None
  }

  /** Python `float(s)` on plain decimal notation: surrounding whitespace, an optional
      sign and an unsigned decimal. `None` where Python raises `ValueError`. */
  function ParseFloat(s: string): Option<real>
  {
    ParseSigned(Strip(s))
  }

  /** An optional sign and an unsigned decimal, with nothing around them. */
  function ParseSigned(t: string): Option<real>
  {
    if |t| > 0 && (t[0] == '-' || t[0] == '+') then
      match ParseUnsigned(t[1..])
      case None => None
      case Some(v) => Some(if t[0] == '-' then -v else v)
    else ParseUnsigned(t)
  }

  /** Decimal digits of `n`, as Python's `str(n)` writes them. */
  function ShowNat(n: nat): (r: string)
    ensures r != [] && AllDigits(r)
    ensures DigitsValue(r) == n
  {
    if n < 10 then [DigitChar(n)]
    else
      var r := ShowNat(n / 10) + [DigitChar(n % 10)];
      assert r[..|r| - 1] == ShowNat(n / 10);
      r
  }

  function DigitChar(d: nat): (c: char)
    requires d < 10
    ensures IsDigit(c) && DigitValue(c) == d
  {
    ('0' as int + d) as char
  }

  /** The value of a count of tenths. */
  function Tenths(t: int): real
  {
    t as real / 10.0
  }

  /** A non-negative number of tenths written with one decimal: 35 is `"3.5"`. */
  function ShowUnsignedTenths(a: nat): string
  {
    ShowNat(a / 10) + "." + [DigitChar(a % 10)]
  }

  /** A number of tenths written with one decimal, as Python's `str(round(x, 1))` writes it. */
  function ShowTenths(t: int): string
  {
    if t < 0 then "-" + ShowUnsignedTenths(-t) else ShowUnsignedTenths(t)
  }

  // ---------------------------------------------------------------------------
  // Lemmas

  /** A character of `m` that `s` lacks rules out every occurrence of `m`. */
  lemma CharAbsent(s: string, m: string, c: char)
    requires c in m && c !in s
    ensures NoOcc(s, m)
  {
    forall i | 0 <= i && OccursAt(s, m, i)
      ensures false
    {
    }
  }

  /** Two texts without `m` stay without `m` when joined, provided the characters
      meeting at the join cannot both belong to an occurrence. */
  lemma ConcatNoOcc(x: string, y: string, m: string)
    requires |m| > 0
    requires NoOcc(x, m) && NoOcc(y, m)
    requires x == [] || y == [] || x[|x| - 1] !in m || y[0] !in m
    ensures NoOcc(x + y, m)
  {
    var s := x + y;
    forall i | 0 <= i && OccursAt(s, m, i)
      ensures false
    {
      if i + |m| <= |x| {
        assert x[i..i + |m|] == s[i..i + |m|];
        assert OccursAt(x, m, i);
      } else if i >= |x| {
        assert y[i - |x|..i - |x| + |m|] == s[i..i + |m|];
        assert OccursAt(y, m, i - |x|);
      } else {
        SliceIndex(s, i, i + |m|, |x| - 1 - i);
        SliceIndex(s, i, i + |m|, |x| - i);
      }
    }
  }

  /** Indexing into a slice (stated without preconditions so that it can be used in any branch). */
  lemma SliceIndex<T>(s: seq<T>, i: int, j: int, k: int)
    ensures 0 <= i <= j <= |s| && 0 <= k < j - i ==> s[i..j][k] == s[i + k]
  {
  }

  /** A text shorter than `m` cannot contain it. */
  lemma ShortNoOcc(s: string, m: string)
    requires |s| < |m|
    ensures NoOcc(s, m)
  {
  }

  /** Searching `x + y` when `x` holds no `m` and no occurrence can straddle the join. */
  lemma FindShift(x: string, y: string, m: string)
    requires |m| > 0
    requires NoOcc(x, m)
    requires x == [] || x[|x| - 1] !in m
    ensures Find(y, m).None? ==> Find(x + y, m).None?
    ensures Find(y, m).Some? ==> Find(x + y, m) == Some(|x| + Find(y, m).value)
  {
    NoStraddle(x, y, m);
    OccursRight(x, y, m);
    if Find(y, m).None? {
      FindShiftNone(x, y, m);
    } else {
      FindShiftSome(x, y, m, Find(y, m).value);
    }
  }

  lemma FindShiftNone(x: string, y: string, m: string)
    requires |m| > 0
    requires NoOcc(y, m)
    requires forall i :: 0 <= i < |x| ==> !OccursAt(x + y, m, i)
    requires forall k :: 0 <= k ==> (OccursAt(x + y, m, |x| + k) <==> OccursAt(y, m, k))
    ensures NoOcc(x + y, m)
  {
    var s := x + y;
    forall i | |x| <= i < |s|
      ensures !OccursAt(s, m, i)
    {
      assert !OccursAt(y, m, i - |x|);
    }
  }

  lemma FindShiftSome(x: string, y: string, m: string, k: nat)
    requires |m| > 0
    requires OccursAt(y, m, k) && forall j :: 0 <= j < k ==> !OccursAt(y, m, j)
    requires forall i :: 0 <= i < |x| ==> !OccursAt(x + y, m, i)
    requires forall q :: 0 <= q ==> (OccursAt(x + y, m, |x| + q) <==> OccursAt(y, m, q))
    ensures Find(x + y, m) == Some(|x| + k)
  {
    forall j | |x| <= j < |x| + k
      ensures !OccursAt(x + y, m, j)
    {
      assert !OccursAt(y, m, j - |x|);
    }
    FindFirst(x + y, m, |x| + k);
  }

  /** An occurrence with none before it is the one `Find` reports. */
  lemma FindFirst(s: string, m: string, p: nat)
    requires |m| > 0
    requires OccursAt(s, m, p)
    requires forall j :: 0 <= j < p ==> !OccursAt(s, m, j)
    ensures Find(s, m) == Some(p)
  {
  }

  lemma NoStraddle(x: string, y: string, m: string)
    requires |m| > 0
    requires NoOcc(x, m)
    requires x == [] || x[|x| - 1] !in m
    ensures forall i :: 0 <= i < |x| ==> !OccursAt(x + y, m, i)
  {
    var s := x + y;
    forall i | 0 <= i < |x|
      ensures !OccursAt(s, m, i)
    {
      if i + |m| <= |x| {
        assert x[i..i + |m|] == s[i..i + |m|];
        assert !OccursAt(x, m, i);
      } else {
        SliceIndex(s, i, i + |m|, |x| - 1 - i);
      }
    }
  }

  lemma OccursRight(x: string, y: string, m: string)
    ensures forall k :: 0 <= k ==> (OccursAt(x + y, m, |x| + k) <==> OccursAt(y, m, k))
  {
    var s := x + y;
    forall k | 0 <= k
      ensures OccursAt(s, m, |x| + k) <==> OccursAt(y, m, k)
    {
      if |x| + k + |m| <= |s| {
        assert s[|x| + k..|x| + k + |m|] == y[k..k + |m|];
      }
    }
  }

  /** A text that starts with `m` finds it at index 0. */
  lemma FindAtStart(m: string, y: string)
    requires |m| > 0
    ensures Find(m + y, m) == Some(0)
  {
    assert (m + y)[..|m|] == m;
  }

  /** `replace` leaves a text without the pattern unchanged (so the source's
      `if pat in s` guard before calling it does not change the result). */
  lemma ReplaceAbsent(s: string, pat: string, rep: string)
    requires |pat| > 0 && NoOcc(s, pat)
    ensures ReplaceAll(s, pat, rep) == s
  {
  }


  /** Reading back a number written with one decimal gives the number:
      Python's `float(str(x))` for a value rounded to tenths. */
  lemma ParseShowTenths(t: int)
    ensures ParseFloat(ShowTenths(t)) == Some(Tenths(t))
  {
    StripShowTenths(t);
    ShowTenthsChars(t);
    if t < 0 {
      var u := ShowUnsignedTenths(-t);
      assert ShowTenths(t) == "-" + u;
      ParseUnsignedTenths(-t);
      ParseFloatNegative(u, Tenths(-t));
      NegativeValue(t, -t);
    } else {
      ParseUnsignedTenths(t);
      ParseFloatUnsigned(ShowTenths(t), Tenths(t));
    }
  }

  lemma ParseFloatNegative(u: string, v: real)
    requires Strip("-" + u) == "-" + u
    requires ParseUnsigned(u) == Some(v)
    ensures ParseFloat("-" + u) == Some(-v)
  {
    ParseSignedNegative(u, v);
  }

  lemma ParseSignedNegative(u: string, v: real)
    requires ParseUnsigned(u) == Some(v)
    ensures ParseSigned("-" + u) == Some(-v)
  {
    assert ("-" + u)[1..] == u;
  }

  lemma ParseFloatUnsigned(u: string, v: real)
    requires Strip(u) == u && u != [] && IsDigit(u[0])
    requires ParseUnsigned(u) == Some(v)
    ensures ParseFloat(u) == Some(v)
  {
  }

  lemma NegativeValue(t: int, a: nat)
    requires t < 0 && a == -t
    ensures -Tenths(a) == Tenths(t)
  {
  }

  lemma StripShowTenths(t: int)
    ensures Strip(ShowTenths(t)) == ShowTenths(t)
  {
    var w := ShowTenths(t);
    ShowTenthsChars(t);
    DigitNotSpace(w[|w| - 1]);
    if w[0] != '-' {
      DigitNotSpace(w[0]);
    }
    StripPadded("", w, "");
    assert "" + w + "" == w;
  }

  /** A written rating is digits and one point, after a minus sign when negative; it
      starts with the sign or a digit and ends with a digit. */
  lemma ShowTenthsChars(t: int)
    ensures var w := ShowTenths(t);
      && w != [] && IsDigit(w[|w| - 1])
      && (if t < 0 then w[0] == '-' else IsDigit(w[0]))
      && forall i :: 0 <= i < |w| ==> w[i] == '-' || w[i] == '.' || IsDigit(w[i])
  {
    var a := if t < 0 then -t else t;
    var u := ShowUnsignedTenths(a);
    PointedShape(ShowNat(a / 10), DigitChar(a % 10));
    if t < 0 {
      var w := "-" + u;
      assert w[|w| - 1] == u[|u| - 1];
      forall i | 0 <= i < |w|
        ensures w[i] == '-' || w[i] == '.' || IsDigit(w[i])
      {
        if i > 0 {
          assert w[i] == u[i - 1];
        }
      }
    }
  }

  /** Digits, a point and one more digit. */
  lemma PointedShape(digits: string, d: char)
    requires digits != [] && AllDigits(digits) && IsDigit(d)
    ensures var u := digits + "." + [d];
      && u[0] == digits[0] && u[|u| - 1] == d
      && forall i :: 0 <= i < |u| ==> u[i] == '.' || IsDigit(u[i])
  {
  }

  lemma DigitNotSpace(c: char)
    requires IsDigit(c)
    ensures !IsSpace(c)
  {
  }

  /** `float(str(n))` for a whole number: `"3"` reads back as 3. */
  lemma ParseShowNat(n: nat)
    ensures ParseFloat(ShowNat(n)) == Some(n as real)
  {
    var w := ShowNat(n);
    DigitNotSpace(w[0]);
    DigitNotSpace(w[|w| - 1]);
    StripPadded("", w, "");
    assert "" + w + "" == w;
    assert '.' !in w by {
      forall k | 0 <= k < |w|
        ensures w[k] != '.'
      {
        assert IsDigit(w[k]);
      }
    }
    CharAbsent(w, ".", '.');
    ParseFloatUnsigned(w, n as real);
  }

  lemma ParseUnsignedTenths(a: nat)
    ensures ParseUnsigned(ShowUnsignedTenths(a)) == Some(Tenths(a))
  {
    ParsePointed(ShowNat(a / 10), DigitChar(a % 10));
    TenthsValue(a);
  }

  /** Digits, a point and a digit read as the digits' value plus a tenth of the digit. */
  lemma ParsePointed(digits: string, d: char)
    requires digits != [] && AllDigits(digits) && IsDigit(d)
    ensures ParseUnsigned(digits + "." + [d]) == Some(DigitsValue(digits) as real + DigitValue(d) as real / 10.0)
  {
    var u := digits + "." + [d];
    FindPoint(digits, [d]);
    ParseUnsignedAt(u, |digits|);
    assert u[..|digits|] == digits;
    assert u[|digits| + 1..] == [d];
    assert [d][1..] == [];
  }

  lemma FindPoint(digits: string, rest: string)
    requires AllDigits(digits)
    ensures Find(digits + "." + rest, ".") == Some(|digits|)
  {
    CharAbsent(digits, ".", '.');
    FindShift(digits, "." + rest, ".");
    FindAtStart(".", rest);
    assert digits + "." + rest == digits + ("." + rest);
  }

  lemma ParseUnsignedAt(u: string, i: nat)
    requires Find(u, ".") == Some(i)
    requires i > 0 && AllDigits(u[..i]) && AllDigits(u[i + 1..])
    ensures ParseUnsigned(u) == Some(DigitsValue(u[..i]) as real + FractionValue(u[i + 1..]))
  {
  }

  lemma TenthsValue(a: nat)
    ensures DigitsValue(ShowNat(a / 10)) as real + DigitValue(DigitChar(a % 10)) as real / 10.0 == Tenths(a)
  {
    assert a == 10 * (a / 10) + a % 10;
  }
}
