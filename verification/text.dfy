/** Character and string primitives of the .NET runtime that the translators rely on:
    `char.IsWhiteSpace` and `string.Trim`, ASCII case mapping, `\d` and `\w`,
    `string.Split(' ')`, `int.Parse` on a digit run, integer formatting and
    unchecked 32-bit arithmetic. */
module Text {

  // ---------------------------------------------------------------------------
  // White space and trimming
  // ---------------------------------------------------------------------------

  /** The characters `char.IsWhiteSpace` accepts: the Unicode separators plus
      U+0009..U+000D, U+0085 and U+00A0. */
  predicate IsWhiteSpace(c: char)
  {
    c == ' ' || '\t' <= c <= '\r' || c == '\U{85}' || c == '\U{A0}' || c == '\U{1680}'
    || '\U{2000}' <= c <= '\U{200A}' || c == '\U{2028}' || c == '\U{2029}'
    || c == '\U{202F}' || c == '\U{205F}' || c == '\U{3000}'
  }

  predicate AllWhiteSpace(s: string)
  {
    forall i :: 0 <= i < |s| ==> IsWhiteSpace(s[i])
  }

  /** `string.TrimStart()`: drops the leading white space. */
  function TrimStart(s: string): (r: string)
    ensures |r| <= |s| && r == s[|s| - |r|..]
    ensures AllWhiteSpace(s[..|s| - |r|])
    ensures r == [] || !IsWhiteSpace(r[0])
  {
    if |s| > 0 && IsWhiteSpace(s[0]) then
      var r := TrimStart(s[1..]);
      assert s[1..][..|s| - 1 - |r|] == s[1..|s| - |r|];
      r
    else s
  }

  /** `string.TrimEnd()`: drops the trailing white space. */
  function TrimEnd(s: string): (r: string)
    ensures |r| <= |s| && r == s[..|r|]
    ensures AllWhiteSpace(s[|r|..])
    ensures r == [] || !IsWhiteSpace(r[|r| - 1])
  {
    if |s| > 0 && IsWhiteSpace(s[|s| - 1]) then
      var r := TrimEnd(s[..|s| - 1]);
      assert s[..|s| - 1][|r|..] + [s[|s| - 1]] == s[|r|..];
      r
    else s
  }

  /** `string.Trim()`: the input without its leading and trailing white space. The
      result is a slice of the input, and only white space is dropped on either side. */
  function Trim(s: string): (r: string)
    ensures |r| <= |s|
    ensures exists a, b ::
      0 <= a <= b <= |s| && r == s[a..b] && AllWhiteSpace(s[..a]) && AllWhiteSpace(s[b..])
    ensures r == [] || (!IsWhiteSpace(r[0]) && !IsWhiteSpace(r[|r| - 1]))
  {
    var u := TrimStart(s);
    var r := TrimEnd(u);
    assert r != [] ==> r[0] == u[0];
    var a, b := |s| - |u|, |s| - |u| + |r|;
    assert s[a..b] == u[..|r|];
    assert s[b..] == u[|r|..];
    r
  }

  /** Trimming a trimmed string changes nothing. */
  lemma TrimIdempotent(s: string)
    ensures Trim(Trim(s)) == Trim(s)
  {
  }

  /** A run of white space at the start of `s` ends before any other character. */
  lemma WhiteSpacePrefixEnds(s: string, n: nat, i: nat)
    requires n <= |s| && AllWhiteSpace(s[..n]) && i < |s| && !IsWhiteSpace(s[i])
    ensures n <= i
  {
    forall j | 0 <= j < n
      ensures IsWhiteSpace(s[j])
    {
      assert s[..n][j] == s[j];
    }
  }

  /** A run of white space at the end of `s` starts after any other character. */
  lemma WhiteSpaceSuffixStarts(s: string, n: nat, i: nat)
    requires n <= |s| && AllWhiteSpace(s[n..]) && i < |s| && !IsWhiteSpace(s[i])
    ensures i < n
  {
    forall j | n <= j < |s|
      ensures IsWhiteSpace(s[j])
    {
      assert s[n..][j - n] == s[j];
    }
  }

  /** `TrimStart` removes exactly the white space before a text that starts with
      something else. */
  lemma TrimStartPast(w: string, u: string)
    requires AllWhiteSpace(w) && u != [] && !IsWhiteSpace(u[0])
    ensures TrimStart(w + u) == u
  {
    var s := w + u;
    var cut := |s| - |TrimStart(s)|;
    assert s[|w|] == u[0];
    WhiteSpacePrefixEnds(s, cut, |w|);
    assert s[..|w|] == w;
    if cut < |w| {
      WhiteSpacePrefixEnds(s, |w|, cut);
    }
  }

  /** `TrimEnd` removes exactly the white space after a text that ends with something
      else. */
  lemma TrimEndPast(k: string, w: string)
    requires AllWhiteSpace(w) && k != [] && !IsWhiteSpace(k[|k| - 1])
    ensures TrimEnd(k + w) == k
  {
    var u := k + w;
    var r := TrimEnd(u);
    assert u[|k| - 1] == k[|k| - 1];
    WhiteSpaceSuffixStarts(u, |r|, |k| - 1);
    assert u[|k|..] == w;
  }

  /** Trimming removes exactly the white space around a text that starts and ends
      with something else. */
  lemma TrimSurrounded(w1: string, k: string, w2: string)
    requires AllWhiteSpace(w1) && AllWhiteSpace(w2)
    requires k != [] && !IsWhiteSpace(k[0]) && !IsWhiteSpace(k[|k| - 1])
    ensures Trim(w1 + k + w2) == k
  {
    assert w1 + k + w2 == w1 + (k + w2);
    assert (k + w2)[0] == k[0];
    TrimStartPast(w1, k + w2);
    TrimEndPast(k, w2);
  }

  /** `string.IsNullOrWhiteSpace` of a trimmed string holds exactly when it is empty:
      trimming yields the empty string exactly for all-white-space input. */
  lemma TrimEmptyIffBlank(s: string)
    ensures Trim(s) == [] <==> AllWhiteSpace(s)
  {
    var u := TrimStart(s);
    var k := |s| - |u|;
    if Trim(s) == [] {
      assert AllWhiteSpace(u[0..]);
      assert s == s[..k] + u;
    }
  }

  // ---------------------------------------------------------------------------
  // Case mapping (ASCII only)
  // ---------------------------------------------------------------------------

  function LowerChar(c: char): char
  {
    if 'A' <= c <= 'Z' then (c as int - 'A' as int + 'a' as int) as char else c
  }

  function UpperChar(c: char): char
  {
    if 'a' <= c <= 'z' then (c as int - 'a' as int + 'A' as int) as char else c
  }

  /** `string.ToLower()`, restricted to the ASCII letters. */
  function Lower(s: string): (r: string)
    ensures |r| == |s|
    ensures forall i :: 0 <= i < |s| ==> r[i] == LowerChar(s[i])
  {
    if s == [] then [] else [LowerChar(s[0])] + Lower(s[1..])
  }

  /** `string.ToUpper()`, restricted to the ASCII letters. */
  function Upper(s: string): (r: string)
    ensures |r| == |s|
    ensures forall i :: 0 <= i < |s| ==> r[i] == UpperChar(s[i])
  {
    if s == [] then [] else [UpperChar(s[0])] + Upper(s[1..])
  }

  /** Upper-casing an analog pin name `a` followed by digits only changes the `a`. */
  lemma UpperAnalogPin(n: string)
    requires AllDigits(n)
    ensures Upper("a" + n) == "A" + n
  {
    var s := "a" + n;
    assert UpperChar(s[0]) == 'A';
    forall i | 1 <= i < |s|
      ensures Upper(s)[i] == ("A" + n)[i]
    {
      assert s[i] == n[i - 1];
    }
  }

  predicate IsLower(s: string)
  {
    forall i :: 0 <= i < |s| ==> !('A' <= s[i] <= 'Z')
  }

  /** Lower-casing is idempotent, and leaves strings without capitals alone. */
  lemma LowerFixes(s: string)
    ensures IsLower(Lower(s))
    ensures Lower(Lower(s)) == Lower(s)
    ensures IsLower(s) ==> Lower(s) == s
  {
  }

  lemma LowerConcat(a: string, b: string)
    ensures Lower(a + b) == Lower(a) + Lower(b)
  {
  }

  // ---------------------------------------------------------------------------
  // Character classes of the .NET regular expressions (ASCII only)
  // ---------------------------------------------------------------------------

  /** `\d` */
  predicate IsDigit(c: char)
  {
    '0' <= c <= '9'
  }

  /** `\w` */
  predicate IsWordChar(c: char)
  {
    'a' <= c <= 'z' || 'A' <= c <= 'Z' || IsDigit(c) || c == '_'
  }

  predicate AllDigits(s: string)
  {
    forall i :: 0 <= i < |s| ==> IsDigit(s[i])
  }

  predicate AllWordChars(s: string)
  {
    forall i :: 0 <= i < |s| ==> IsWordChar(s[i])
  }

  /** A non-empty run of `\d`, as `(\d+)` captures it. */
  predicate IsNumeral(s: string)
  {
    |s| > 0 && AllDigits(s)
  }

  /** A non-empty run of `\w`, as `(\w+)` captures it. */
  predicate IsIdentifier(s: string)
  {
    |s| > 0 && AllWordChars(s)
  }

  // ---------------------------------------------------------------------------
  // string.Split(' ')
  // ---------------------------------------------------------------------------

  /** `string.Split(sep)`: the pieces between successive separators, empty pieces kept. */
  function Split(s: string, sep: char): (parts: seq<string>)
    ensures |parts| > 0
    ensures forall k :: 0 <= k < |parts| ==> sep !in parts[k]
  {
    if sep !in s then [s]
    else
      var i := IndexOf(s, sep);
      [s[..i]] + Split(s[i + 1..], sep)
  }

  /** The position of the first `sep` in `s`. */
  function IndexOf(s: string, sep: char): (i: nat)
    requires sep in s
    ensures i < |s| && s[i] == sep && sep !in s[..i]
  {
    if s[0] == sep then 0 else
      assert sep in s[1..] by { var j :| 0 <= j < |s| && s[j] == sep; assert s[1..][j - 1] == sep; }
      var i := 1 + IndexOf(s[1..], sep);
      assert s[..i] == [s[0]] + s[1..][..i - 1];
      i
  }

  /** The pieces glued back together with the separator. */
  function Join(parts: seq<string>, sep: char): string
    requires |parts| > 0
  {
    if |parts| == 1 then parts[0] else parts[0] + [sep] + Join(parts[1..], sep)
  }

  /** Splitting loses nothing: the pieces rejoined give back the input. */
  lemma {:induction false} SplitJoin(s: string, sep: char)
    ensures Join(Split(s, sep), sep) == s
  {
    if sep in s {
      var i := IndexOf(s, sep);
      SplitJoin(s[i + 1..], sep);
      assert s == s[..i] + [sep] + s[i + 1..];
    }
  }

  /** Splitting a piece-by-piece join recovers the pieces. */
  lemma {:induction false} JoinSplit(parts: seq<string>, sep: char)
    requires |parts| > 0
    requires forall k :: 0 <= k < |parts| ==> sep !in parts[k]
    ensures Split(Join(parts, sep), sep) == parts
  {
    if |parts| > 1 {
      var rest := Join(parts[1..], sep);
      var s := parts[0] + [sep] + rest;
      assert Join(parts, sep) == s;
      assert forall k :: 0 <= k < |parts[1..]| ==> parts[1..][k] == parts[k + 1];
      JoinSplit(parts[1..], sep);
      IndexOfAfter(parts[0], rest, sep);
      assert s[..|parts[0]|] == parts[0];
      assert s[|parts[0]| + 1..] == rest;
      assert Split(s, sep) == [parts[0]] + Split(rest, sep);
      assert [parts[0]] + parts[1..] == parts;
    }
  }

  lemma IndexOfAfter(a: string, b: string, sep: char)
    requires sep !in a
    ensures sep in a + [sep] + b && IndexOf(a + [sep] + b, sep) == |a|
  {
    var s := a + [sep] + b;
    assert s[|a|] == sep;
    assert s[..|a|] == a;
  }

  // ---------------------------------------------------------------------------
  // Decimal numerals and 32-bit integers
  // ---------------------------------------------------------------------------

  const Int32Min: int := -0x8000_0000
  const Int32Max: int := 0x7fff_ffff

  predicate IsInt32(x: int)
  {
    Int32Min <= x <= Int32Max
  }

  /** Unchecked C# `int` arithmetic: the two's-complement value congruent to `x` modulo 2^32. */
  function Wrap32(x: int): (r: int)
    ensures IsInt32(r)
    ensures (x - r) % 0x1_0000_0000 == 0
    ensures IsInt32(x) ==> r == x
  {
    var m := x % 0x1_0000_0000;
    if m > Int32Max then m - 0x1_0000_0000 else m
  }

  function DigitValue(c: char): nat
    requires IsDigit(c)
  {
    c as int - '0' as int
  }

  /** The number a digit run denotes (leading zeros allowed). */
  function NumeralValue(s: string): nat
    requires AllDigits(s)
  {
    if s == [] then 0 else NumeralValue(s[..|s| - 1]) * 10 + DigitValue(s[|s| - 1])
  }

  function DigitChar(d: nat): char
    requires d < 10
  {
    (d + '0' as int) as char
  }

  /** The shortest decimal numeral of `n`, as `int.ToString()` writes it. */
  function NatToString(n: nat): (s: string)
    ensures IsNumeral(s)
    ensures |s| > 1 ==> s[0] != '0'
    decreases n
  {
    if n < 10 then [DigitChar(n)] else NatToString(n / 10) + [DigitChar(n % 10)]
  }

  /** `int.ToString()` with the invariant culture: a leading `-` for negative values. */
  function IntToString(x: int): string
  {
    if x < 0 then "-" + NatToString(-x) else NatToString(x)
  }

  /** Formatting then parsing a numeral gives the number back. */
  lemma {:induction false} NatToStringValue(n: nat)
    ensures NumeralValue(NatToString(n)) == n
    decreases n
  {
    if n >= 10 {
      var s := NatToString(n);
      NatToStringValue(n / 10);
      assert s[..|s| - 1] == NatToString(n / 10);
    }
  }

  /** `s` reads back as `x`: a numeral of value `x`, or `-` and a numeral of value `-x`
      when `x` is negative. */
  predicate ReadsAs(s: string, x: int)
  {
    if x < 0 then |s| > 1 && s[0] == '-' && IsNumeral(s[1..]) && NumeralValue(s[1..]) == -x
    else IsNumeral(s) && NumeralValue(s) == x
  }

  /** A formatted integer reads back as itself. */
  lemma IntToStringReads(x: int)
    ensures ReadsAs(IntToString(x), x)
  {
    if x < 0 {
      assert IntToString(x)[1..] == NatToString(-x);
      NatToStringValue(-x);
    } else {
      NatToStringValue(x);
    }
  }

  /** Different integers are formatted differently. */
  lemma IntToStringInjective(a: int, b: int)
    ensures IntToString(a) == IntToString(b) ==> a == b
  {
    if IntToString(a) == IntToString(b) {
      var s := IntToString(a);
      if a < 0 && b < 0 {
        assert NatToString(-a) == s[1..] == NatToString(-b);
        NatToStringValue(-a);
        NatToStringValue(-b);
      } else if a >= 0 && b >= 0 {
        NatToStringValue(a);
        NatToStringValue(b);
      }
    }
  }

  /** A text between a fixed prefix and suffix is determined by the whole. */
  lemma BetweenCancels(p: string, a: string, b: string, q: string)
    ensures p + a + q == p + b + q ==> a == b
  {
    if p + a + q == p + b + q {
      assert a == (p + a + q)[|p|..|p| + |a|];
      assert b == (p + b + q)[|p|..|p| + |b|];
    }
  }

  /** Parsing then formatting a numeral without a superfluous leading zero gives it back. */
  lemma {:induction false} NumeralValueToString(s: string)
    requires IsNumeral(s)
    requires |s| > 1 ==> s[0] != '0'
    ensures NatToString(NumeralValue(s)) == s
    decreases |s|
  {
    var n := NumeralValue(s);
    if |s| == 1 {
    } else {
      var init := s[..|s| - 1];
      assert init[0] == s[0];
      NumeralValueToString(init);
      NumeralPositive(init);
      assert n / 10 == NumeralValue(init);
      assert n % 10 == DigitValue(s[|s| - 1]);
    }
  }

  lemma {:induction false} NumeralPositive(s: string)
    requires IsNumeral(s) && s[0] != '0'
    ensures NumeralValue(s) > 0
    decreases |s|
  {
    if |s| > 1 {
      var init := s[..|s| - 1];
      assert init[0] == s[0];
      NumeralPositive(init);
    }
  }
}
