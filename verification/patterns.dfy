/** The anchored regular expressions of the forward translator, written in a small
    pattern language: literal text, one optional literal (`[s]?`) and capture groups
    over a handful of classes. `Match` is a deterministic matcher; `Spells` is the
    declarative reading of a pattern; `MatchSpells` proves the two agree on every
    well-formed pattern, so the captures a match returns are the only ones possible. */
module Patterns {
  import opened Text

  datatype Option<T> = None | Some(value: T)

  /** What a capture group accepts. */
  datatype Class =
    | Digits                  // (\d+)
    | Word                    // (\w+)
    | AnalogPin               // (a\d+)
    | AnyPlus                 // (.+)   `.` is every character but '\n'
    | AnyStar                 // (.*)
    | OneOf(alts: seq<string>) // (x|y|...)

  datatype Piece =
    | Lit(text: string)   // literal text
    | Opt(text: string)   // optional literal, `[s]?`
    | Cap(cls: Class)     // a capture group

  type Pattern = seq<Piece>

  predicate InClass(c: Class, w: string)
  {
    match c
    case Digits => IsNumeral(w)
    case Word => IsIdentifier(w)
    case AnalogPin => |w| >= 2 && w[0] == 'a' && IsNumeral(w[1..])
    case AnyPlus => |w| > 0 && '\n' !in w
    case AnyStar => '\n' !in w
    case OneOf(alts) => w in alts
  }

  /** `s` is spelled by `p` when the capture groups take the values `caps`, in order. */
  predicate Spells(p: Pattern, s: string, caps: seq<string>)
    decreases |p|
  {
    if p == [] then s == [] && caps == []
    else match p[0]
      case Lit(t) => t <= s && Spells(p[1..], s[|t|..], caps)
      case Opt(t) => (t <= s && Spells(p[1..], s[|t|..], caps)) || Spells(p[1..], s, caps)
      case Cap(c) =>
        |caps| > 0 && caps[0] <= s && InClass(c, caps[0]) && Spells(p[1..], s[|caps[0]|..], caps[1..])
  }

  // ---------------------------------------------------------------------------
  // The deterministic matcher
  // ---------------------------------------------------------------------------

  /** The length of the longest prefix of `s` whose characters all satisfy `f`. */
  function RunLength(s: string, f: char -> bool): (n: nat)
    ensures n <= |s|
    ensures forall i :: 0 <= i < n ==> f(s[i])
    ensures n == |s| || !f(s[n])
  {
    if s == [] || !f(s[0]) then 0 else 1 + RunLength(s[1..], f)
  }

  /** The summed length of the literal pieces of `p`. */
  function FixedLength(p: Pattern): nat
  {
    if p == [] then 0 else (if p[0].Lit? then |p[0].text| else 0) + FixedLength(p[1..])
  }

  /** The length of the first alternative that starts `s`, or 0. */
  function FirstPrefix(alts: seq<string>, s: string): (n: nat)
    ensures n <= |s|
  {
    if alts == [] then 0 else if alts[0] <= s then |alts[0]| else FirstPrefix(alts[1..], s)
  }

  /** How much of `s` the capture group `c`, followed by `rest`, takes. */
  function CaptureLength(c: Class, rest: Pattern, s: string): (n: nat)
    ensures n <= |s|
  {
    match c
    case Digits => RunLength(s, IsDigit)
    case Word => RunLength(s, IsWordChar)
    case AnalogPin => if s != [] && s[0] == 'a' then 1 + RunLength(s[1..], IsDigit) else 0
    case AnyPlus => if FixedLength(rest) <= |s| then |s| - FixedLength(rest) else 0
    case AnyStar => if FixedLength(rest) <= |s| then |s| - FixedLength(rest) else 0
    case OneOf(alts) => FirstPrefix(alts, s)
  }

  /** The number of capture groups of a pattern. */
  function CapCount(p: Pattern): nat
    decreases |p|
  {
    if p == [] then 0 else (if p[0].Cap? then 1 else 0) + CapCount(p[1..])
  }

  /** Matches all of `s` against `p`, returning the captures in order: one per group. */
  function Match(p: Pattern, s: string): (r: Option<seq<string>>)
    ensures r.Some? ==> |r.value| == CapCount(p)
    decreases |p|
  {
    if p == [] then (if s == [] then Some([]) else None)
    else match p[0]
      case Lit(t) => if t <= s then Match(p[1..], s[|t|..]) else None
      case Opt(t) =>
        if t <= s && Match(p[1..], s[|t|..]).Some? then Match(p[1..], s[|t|..]) else Match(p[1..], s)
      case Cap(c) =>
        var n := CaptureLength(c, p[1..], s);
        if !InClass(c, s[..n]) then None
        else match Match(p[1..], s[n..])
          case Some(rest) => Some([s[..n]] + rest)
          case None => None
  }

  // ---------------------------------------------------------------------------
  // Well-formed patterns: every capture ends where the next piece must begin
  // ---------------------------------------------------------------------------

  predicate NoLineFeed(s: string)
  {
    '\n' !in s
  }

  predicate AllLit(p: Pattern)
  {
    forall i :: 0 <= i < |p| ==> p[i].Lit?
  }

  /** No alternative is a proper prefix of another, and none is empty. */
  predicate PrefixFree(alts: seq<string>)
  {
    (forall a :: a in alts ==> a != [] && NoLineFeed(a))
    && (forall a, b :: a in alts && b in alts && a <= b ==> a == b)
  }

  /** A digit run or word run stops at the first character outside its class,
      so the piece after it must begin with such a character. */
  predicate Delimits(c: Class, rest: Pattern)
  {
    match c
    case Digits => rest == [] || (rest[0].Lit? && rest[0].text != [] && !IsDigit(rest[0].text[0]))
    case AnalogPin => rest == [] || (rest[0].Lit? && rest[0].text != [] && !IsDigit(rest[0].text[0]))
    case Word => rest == [] || (rest[0].Lit? && rest[0].text != [] && !IsWordChar(rest[0].text[0]))
    case AnyPlus => AllLit(rest)
    case AnyStar => AllLit(rest)
    case OneOf(alts) => rest == [] && PrefixFree(alts)
  }

  predicate WellFormed(p: Pattern)
    decreases |p|
  {
    p == [] ||
    (WellFormed(p[1..]) &&
      match p[0]
      case Lit(t) => NoLineFeed(t)
      case Opt(t) => |p| == 1 && t != [] && NoLineFeed(t)
      case Cap(c) => Delimits(c, p[1..]))
  }

  // ---------------------------------------------------------------------------
  // Correctness of the matcher
  // ---------------------------------------------------------------------------

  /** Only literal pieces: the spelled text has exactly their summed length. */
  lemma {:induction false} SpellsFixedLength(p: Pattern, s: string, caps: seq<string>)
    requires AllLit(p) && Spells(p, s, caps)
    ensures |s| == FixedLength(p) && caps == []
    decreases |p|
  {
    if p != [] {
      SpellsFixedLength(p[1..], s[|p[0].text|..], caps);
    }
  }

  lemma {:induction false} FirstPrefixFinds(alts: seq<string>, s: string)
    requires PrefixFree(alts) && s in alts
    ensures FirstPrefix(alts, s) == |s|
  {
    assert alts[0] in alts;
    if alts[0] != s {
      assert s in alts[1..];
      assert forall a :: a in alts[1..] ==> a in alts;
      FirstPrefixFinds(alts[1..], s);
    }
  }

  /** A run of class characters followed by a non-class character, or by nothing,
      has exactly the length of the run. */
  lemma RunStops(s: string, w: string, f: char -> bool)
    requires w <= s
    requires forall i :: 0 <= i < |w| ==> f(w[i])
    requires |w| == |s| || !f(s[|w|])
    ensures RunLength(s, f) == |w|
  {
  }

  /** A string spelled by a pattern that opens with a non-empty literal starts with
      that literal's first character. */
  lemma LeadingLiteral(rest: Pattern, tail: string, caps: seq<string>)
    requires rest != [] && rest[0].Lit? && rest[0].text != [] && Spells(rest, tail, caps)
    ensures tail != [] && tail[0] == rest[0].text[0]
  {
  }

  /** A run of `f` characters followed by a character outside `f` (or by a pattern
      whose literal starts with one) has exactly its own length. */
  lemma RunBeforeRest(f: char -> bool, rest: Pattern, s: string, w: string, caps: seq<string>)
    requires w <= s && (forall i :: 0 <= i < |w| ==> f(w[i])) && Spells(rest, s[|w|..], caps)
    requires rest == [] || (rest[0].Lit? && rest[0].text != [] && !f(rest[0].text[0]))
    ensures RunLength(s, f) == |w|
  {
    if rest != [] {
      LeadingLiteral(rest, s[|w|..], caps);
    }
    RunStops(s, w, f);
  }

  lemma AnalogPinForced(rest: Pattern, s: string, w: string, caps: seq<string>)
    requires Delimits(AnalogPin, rest)
    requires w <= s && InClass(AnalogPin, w) && Spells(rest, s[|w|..], caps)
    ensures CaptureLength(AnalogPin, rest, s) == |w|
  {
    assert s[1..][|w| - 1..] == s[|w|..];
    RunBeforeRest(IsDigit, rest, s[1..], w[1..], caps);
  }

  lemma AnyForced(c: Class, rest: Pattern, s: string, w: string, caps: seq<string>)
    requires c == AnyPlus || c == AnyStar
    requires AllLit(rest) && w <= s && Spells(rest, s[|w|..], caps)
    ensures CaptureLength(c, rest, s) == |w|
  {
    SpellsFixedLength(rest, s[|w|..], caps);
  }

  /** Whatever a capture can legally take is what the matcher takes. */
  lemma CaptureForced(c: Class, rest: Pattern, s: string, w: string, caps: seq<string>)
    requires Delimits(c, rest) && WellFormed(rest)
    requires w <= s && InClass(c, w) && Spells(rest, s[|w|..], caps)
    ensures CaptureLength(c, rest, s) == |w|
  {
    match c
    case Digits =>
      RunBeforeRest(IsDigit, rest, s, w, caps);
    case Word =>
      RunBeforeRest(IsWordChar, rest, s, w, caps);
    case AnalogPin =>
      AnalogPinForced(rest, s, w, caps);
    case AnyPlus =>
      AnyForced(c, rest, s, w, caps);
    case AnyStar =>
      AnyForced(c, rest, s, w, caps);
    case OneOf(alts) =>
      assert s == w;
      FirstPrefixFinds(alts, s);
  }

  /** The matcher is sound and complete for the declarative reading: on a well-formed
      pattern it returns exactly the captures that spell the input, and fails exactly
      when none do. */
  lemma {:induction false} MatchSpells(p: Pattern, s: string, caps: seq<string>)
    requires WellFormed(p)
    ensures Match(p, s) == Some(caps) <==> Spells(p, s, caps)
    decreases |p|
  {
    if p != [] {
      match p[0]
      case Lit(t) =>
        if t <= s { MatchSpells(p[1..], s[|t|..], caps); }
      case Opt(t) =>
        MatchSpells(p[1..], s, caps);
        if t <= s { MatchSpells(p[1..], s[|t|..], caps); }
      case Cap(c) =>
        var n := CaptureLength(c, p[1..], s);
        if Match(p, s) == Some(caps) {
          MatchSpells(p[1..], s[n..], caps[1..]);
        }
        if Spells(p, s, caps) {
          CaptureForced(c, p[1..], s, caps[0], caps[1..]);
          assert s[..n] == caps[0];
          MatchSpells(p[1..], s[n..], caps[1..]);
          assert caps == [s[..n]] + caps[1..];
        }
    }
  }

  /** A well-formed pattern reads every input in at most one way. */
  lemma SpellsUnique(p: Pattern, s: string, caps1: seq<string>, caps2: seq<string>)
    requires WellFormed(p) && Spells(p, s, caps1) && Spells(p, s, caps2)
    ensures caps1 == caps2
  {
    MatchSpells(p, s, caps1);
    MatchSpells(p, s, caps2);
  }

  /** Nothing a well-formed pattern spells contains a line feed. */
  lemma {:induction false} SpellsNoLineFeed(p: Pattern, s: string, caps: seq<string>)
    requires WellFormed(p) && Spells(p, s, caps)
    ensures NoLineFeed(s)
    decreases |p|
  {
    if p != [] {
      match p[0]
      case Lit(t) =>
        SpellsNoLineFeed(p[1..], s[|t|..], caps);
        assert s == t + s[|t|..];
      case Opt(t) =>
        if t <= s && Spells(p[1..], s[|t|..], caps) {
          SpellsNoLineFeed(p[1..], s[|t|..], caps);
          assert s == t + s[|t|..];
        } else {
          SpellsNoLineFeed(p[1..], s, caps);
        }
      case Cap(c) =>
        SpellsNoLineFeed(p[1..], s[|caps[0]|..], caps[1..]);
        assert NoLineFeed(caps[0]) by {
          if c.OneOf? { assert caps[0] in c.alts; }
        }
        assert s == caps[0] + s[|caps[0]|..];
    }
  }

  // ---------------------------------------------------------------------------
  // Building a spelling piece by piece
  // ---------------------------------------------------------------------------

  lemma SpellsLit(p: Pattern, t: string, s: string, caps: seq<string>)
    requires p != [] && p[0] == Lit(t) && Spells(p[1..], s, caps)
    ensures Spells(p, t + s, caps)
  {
    assert (t + s)[|t|..] == s;
  }

  lemma SpellsCap(p: Pattern, c: Class, w: string, s: string, caps: seq<string>)
    requires p != [] && p[0] == Cap(c) && InClass(c, w) && Spells(p[1..], s, caps)
    ensures Spells(p, w + s, [w] + caps)
  {
    assert (w + s)[|w|..] == s;
    assert ([w] + caps)[1..] == caps;
  }

  /** `t(w)`, the commonest shape of command. */
  lemma SpellsLitCap(t: string, c: Class, w: string)
    requires InClass(c, w)
    ensures Spells([Lit(t), Cap(c)], t + w, [w])
  {
    var p := [Lit(t), Cap(c)];
    assert p[1..][1..] == [];
    SpellsCap(p[1..], c, w, [], []);
    assert w + [] == w && [w] + [] == [w];
    SpellsLit(p, t, w, [w]);
  }

  /** `t(w)u` */
  lemma SpellsLitCapLit(t: string, c: Class, w: string, u: string)
    requires InClass(c, w)
    ensures Spells([Lit(t), Cap(c), Lit(u)], t + w + u, [w])
  {
    var p := [Lit(t), Cap(c), Lit(u)];
    assert p[1..][1..] == [Lit(u)];
    assert Spells([Lit(u)], u, []) by { assert [Lit(u)][1..] == []; assert u[|u|..] == []; }
    SpellsCap(p[1..], c, w, u, []);
    assert [w] + [] == [w];
    SpellsLit(p, t, w + u, [w]);
    assert t + (w + u) == t + w + u;
  }

  /** `(w1)u(w2)` */
  lemma SpellsCapLitCap(c1: Class, w1: string, u: string, c2: Class, w2: string)
    requires InClass(c1, w1) && InClass(c2, w2)
    ensures Spells([Cap(c1), Lit(u), Cap(c2)], w1 + (u + w2), [w1, w2])
  {
    var q := [Cap(c1), Lit(u), Cap(c2)];
    SpellsLitCap(u, c2, w2);
    assert q[1..] == [Lit(u), Cap(c2)];
    SpellsCap(q, c1, w1, u + w2, [w2]);
    assert [w1] + [w2] == [w1, w2];
  }

  /** `t(w1)u(w2)` */
  lemma SpellsLitCapLitCap(t: string, c1: Class, w1: string, u: string, c2: Class, w2: string)
    requires InClass(c1, w1) && InClass(c2, w2)
    ensures Spells([Lit(t), Cap(c1), Lit(u), Cap(c2)], t + w1 + u + w2, [w1, w2])
  {
    var p := [Lit(t), Cap(c1), Lit(u), Cap(c2)];
    SpellsCapLitCap(c1, w1, u, c2, w2);
    assert p[1..] == [Cap(c1), Lit(u), Cap(c2)];
    SpellsLit(p, t, w1 + (u + w2), [w1, w2]);
    assert t + (w1 + (u + w2)) == t + w1 + u + w2;
  }

  /** `t(w)u[o]?`, with the optional literal present or absent. */
  lemma SpellsLitCapLitOpt(t: string, c: Class, w: string, u: string, o: string, present: bool)
    requires InClass(c, w)
    ensures Spells([Lit(t), Cap(c), Lit(u), Opt(o)], t + w + u + (if present then o else ""), [w])
  {
    var p := [Lit(t), Cap(c), Lit(u), Opt(o)];
    var tail := u + (if present then o else "");
    var q := p[1..][1..];
    assert q == [Lit(u), Opt(o)];
    assert q[1..] == [Opt(o)] && q[1..][1..] == [];
    if present {
      assert o[|o|..] == [];
      assert Spells(q[1..], o, []);
    } else {
      assert Spells(q[1..], "", []);
    }
    SpellsLit(q, u, if present then o else "", []);
    SpellsCap(p[1..], c, w, tail, []);
    assert [w] + [] == [w];
    SpellsLit(p, t, w + tail, [w]);
    assert t + (w + tail) == t + w + u + (if present then o else "");
  }

  /** A literal followed by a digit group rejects a line whose text after the
      literal does not begin with a digit. */
  lemma LitDigitsRejectNonDigit(p: Pattern, t: string, s: string)
    requires |p| >= 2 && p[0] == Lit(t) && p[1] == Cap(Digits) && t <= s
    requires |s| == |t| || !IsDigit(s[|t|])
    ensures Match(p, s) == None
  {
    assert Match(p, s) == Match(p[1..], s[|t|..]);
    assert p[1..][0] == Cap(Digits);
    assert RunLength(s[|t|..], IsDigit) == 0;
  }

  /** A literal, a digit group and a second literal reject a line that reads the first
      literal, a numeral and then text the second literal does not start. */
  lemma LitDigitsLitReject(p: Pattern, t: string, n: string, v: string, u: string)
    requires |p| >= 3 && p[0] == Lit(t) && p[1] == Cap(Digits) && p[2] == Lit(v)
    requires IsNumeral(n) && (u == [] || !IsDigit(u[0])) && !(v <= u)
    ensures Match(p, t + n + u) == None
  {
    var s := t + n + u;
    var q := p[1..];
    assert s[|t|..] == n + u;
    assert Match(p, s) == Match(q, n + u);
    RunStops(n + u, n, IsDigit);
    assert CaptureLength(Digits, q[1..], n + u) == |n|;
    assert (n + u)[..|n|] == n && (n + u)[|n|..] == u;
    assert q[1..][0] == Lit(v);
    assert Match(q[1..], u) == None;
  }

  /** The first capture group of `p` is a `(\w+)`. */
  predicate FirstCapWord(p: Pattern)
    decreases |p|
  {
    p != [] && (p[0] == Cap(Word) || (!p[0].Cap? && FirstCapWord(p[1..])))
  }

  /** When the first group of a pattern is `(\w+)`, a successful match captures a
      non-empty run of word characters first. */
  lemma {:induction false} MatchFirstCapWord(p: Pattern, s: string)
    requires FirstCapWord(p) && Match(p, s).Some?
    ensures |Match(p, s).value| > 0 && IsIdentifier(Match(p, s).value[0])
    decreases |p|
  {
    match p[0]
    case Lit(t) =>
      MatchFirstCapWord(p[1..], s[|t|..]);
    case Opt(t) =>
      if t <= s && Match(p[1..], s[|t|..]).Some? {
        MatchFirstCapWord(p[1..], s[|t|..]);
      } else {
        MatchFirstCapWord(p[1..], s);
      }
    case Cap(c) =>
  }

  // ---------------------------------------------------------------------------
  // Anchoring: Regex.Match(line, "^...$")
  // ---------------------------------------------------------------------------

  /** In .NET, `$` matches at the end of the input and also just before a final '\n':
      the text `^...$` has to cover. */
  function Anchored(s: string): (r: string)
    ensures r == s || (s == r + "\n")
  {
    if s != [] && s[|s| - 1] == '\n' then s[..|s| - 1] else s
  }

  /** `Regex.Match(s, "^" + p + "$")`, returning the groups 1, 2, ... in order. */
  function AnchoredMatch(p: Pattern, s: string): Option<seq<string>>
  {
    Match(p, Anchored(s))
  }

  /** An anchored match succeeds with `caps` exactly when `p` spells the whole input,
      or the whole input but a final line feed. */
  lemma AnchoredMatchSpells(p: Pattern, s: string, caps: seq<string>)
    requires WellFormed(p)
    ensures AnchoredMatch(p, s) == Some(caps) <==>
      (Spells(p, s, caps) || (s != [] && s[|s| - 1] == '\n' && Spells(p, s[..|s| - 1], caps)))
  {
    MatchSpells(p, Anchored(s), caps);
    if s != [] && s[|s| - 1] == '\n' && Spells(p, s, caps) {
      SpellsNoLineFeed(p, s, caps);
    }
  }

  /** A pattern that starts with literal text rejects every input that disagrees
      with that text at some position. */
  lemma LeadingTextRejects(p: Pattern, s: string, i: nat)
    requires p != [] && p[0].Lit? && i < |p[0].text| && i < |s| && p[0].text[i] != s[i]
    ensures Match(p, s) == None
  {
  }
}
