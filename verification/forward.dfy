/** The new-project translator: the `SimplifiedToArduino` local to `CreateNewProject`
    together with the `HandleExtendedCommands` it falls through to. The line is
    lower-cased, then tried against an ordered table of rules; the first rule whose
    matcher accepts it renders its template from the captured groups, and a line no
    rule accepts becomes a marked comment. */
module Forward {
  import opened Text
  import opened Patterns

  /** How a rule recognises a line: `lowerLine == text`, or `Regex.Match(lowerLine, "^p$")`. */
  datatype Matcher = Equals(text: string) | Regex(pattern: Pattern)

  /** One piece of an interpolated output string. Groups are numbered from 1, as
      `match.Groups[n]` numbers them. */
  datatype Chunk =
    | Verbatim(text: string)
    | Group(n: nat)          // the captured text, unchanged
    | GroupUpper(n: nat)     // `.Value.ToUpper()`
    | GroupEscaped(n: nat)   // `.Value.Replace("\"", "\\\"")`
    | GroupLevel(n: nat)     // `"LOW"` when the capture is "low", else `"HIGH"`
    | GroupMillis(n: nat)    // `int.Parse(.Value) * 1000`

  datatype Rule = Rule(matcher: Matcher, template: seq<Chunk>)

  /** What a call returns, or the `OverflowException` that `int.Parse` throws
      on a numeral above `int.MaxValue`. */
  datatype Outcome = Returned(code: string) | OverflowThrown

  const UnknownPrefix := "// Unknown command: "

  // ---------------------------------------------------------------------------
  // Matching and rendering one rule
  // ---------------------------------------------------------------------------

  function Captures(m: Matcher, line: string): Option<seq<string>>
  {
    match m
    case Equals(t) => if line == t then Some([]) else None
    case Regex(p) => AnchoredMatch(p, line)
  }

  predicate Hit(r: Rule, line: string)
  {
    Captures(r.matcher, line).Some?
  }

  /** The captures a rule yields on a line that its matcher accepts; `[]` otherwise. */
  function CapturesOf(r: Rule, line: string): seq<string>
  {
    match Captures(r.matcher, line)
    case Some(caps) => caps
    case None => []
  }

  /** What the rule produces for a line its matcher accepts. */
  function Apply(r: Rule, line: string): Outcome
  {
    Render(r.template, CapturesOf(r, line))
  }

  /** `match.Groups[n].Value`: an absent group reads as the empty string. */
  function GroupValue(caps: seq<string>, n: nat): string
  {
    if 1 <= n <= |caps| then caps[n - 1] else ""
  }

  /** `s.Replace("\"", "\\\"")` */
  function EscapeQuotes(s: string): (r: string)
    ensures |r| >= |s|
  {
    if s == [] then []
    else (if s[0] == '"' then "\\\"" else [s[0]]) + EscapeQuotes(s[1..])
  }

  /** Reading back a `\"` escape as `"`; every other character stands for itself. */
  function UnescapeQuotes(s: string): string
  {
    if s == [] then []
    else if |s| >= 2 && s[0] == '\\' && s[1] == '"' then "\"" + UnescapeQuotes(s[2..])
    else [s[0]] + UnescapeQuotes(s[1..])
  }

  /** Escaping loses nothing: reading the escapes back gives the captured text. */
  lemma {:induction false} EscapeRoundTrip(s: string)
    ensures UnescapeQuotes(EscapeQuotes(s)) == s
  {
    if s != [] {
      EscapeRoundTrip(s[1..]);
      var e := EscapeQuotes(s[1..]);
      if s[0] == '"' {
        assert EscapeQuotes(s) == "\\\"" + e;
        assert ("\\\"" + e)[2..] == e;
      } else {
        assert EscapeQuotes(s) == [s[0]] + e;
        assert ([s[0]] + e)[1..] == e;
        if s[0] == '\\' && e != [] {
          assert e[0] == '\\' || e[0] == s[1];
        }
      }
    }
  }

  /** After escaping, every quote is preceded by a backslash. */
  lemma {:induction false} EscapedQuotesArePreceded(s: string, i: nat)
    requires i < |EscapeQuotes(s)| && EscapeQuotes(s)[i] == '"'
    ensures i > 0 && EscapeQuotes(s)[i - 1] == '\\'
  {
    var head := if s[0] == '"' then "\\\"" else [s[0]];
    assert EscapeQuotes(s) == head + EscapeQuotes(s[1..]);
    if i >= |head| {
      EscapedQuotesArePreceded(s[1..], i - |head|);
    }
  }

  /** The delay of `wait N second(s)`: `int.Parse` of the numeral, times 1000 in
      unchecked 32-bit arithmetic. */
  function Millis(numeral: string): (r: Outcome)
    ensures AllDigits(numeral) ==> (r.Returned? <==> NumeralValue(numeral) <= Int32Max)
    ensures AllDigits(numeral) && NumeralValue(numeral) * 1000 <= Int32Max
      ==> r == Returned(NatToString(NumeralValue(numeral) * 1000))
    ensures AllDigits(numeral) && r.Returned? ==>
      ReadsAs(r.code, Wrap32(NumeralValue(numeral) * 1000))
  {
    if !AllDigits(numeral) then OverflowThrown  // never reached: a `\d+` group is all digits
    else if NumeralValue(numeral) > Int32Max then OverflowThrown
    else
      var millis := Wrap32(NumeralValue(numeral) * 1000);
      IntToStringReads(millis);
      Returned(IntToString(millis))
  }

  function RenderChunk(c: Chunk, caps: seq<string>): Outcome
  {
    match c
    case Verbatim(t) => Returned(t)
    case Group(n) => Returned(GroupValue(caps, n))
    case GroupUpper(n) => Returned(Upper(GroupValue(caps, n)))
    case GroupEscaped(n) => Returned(EscapeQuotes(GroupValue(caps, n)))
    case GroupLevel(n) => Returned(if GroupValue(caps, n) == "low" then "LOW" else "HIGH")
    case GroupMillis(n) => Millis(GroupValue(caps, n))
  }

  /** Two pieces of an interpolated string, left then right: an exception in either aborts it. */
  function Then(x: Outcome, y: Outcome): (r: Outcome)
    ensures r.Returned? <==> x.Returned? && y.Returned?
    ensures r.Returned? ==> r.code == x.code + y.code
  {
    if x.Returned? && y.Returned? then Returned(x.code + y.code) else OverflowThrown
  }

  /** The interpolated string. */
  function Render(template: seq<Chunk>, caps: seq<string>): Outcome
  {
    if template == [] then Returned("") else Then(RenderChunk(template[0], caps), Render(template[1..], caps))
  }

  /** Rendering two templates one after the other is rendering them joined. */
  lemma {:induction false} RenderAppend(a: seq<Chunk>, b: seq<Chunk>, caps: seq<string>)
    ensures Render(a + b, caps) == Then(Render(a, caps), Render(b, caps))
    decreases |a|
  {
    if a == [] {
      assert a + b == b;
    } else {
      assert (a + b)[0] == a[0] && (a + b)[1..] == a[1..] + b;
      RenderAppend(a[1..], b, caps);
      ThenAssociative(RenderChunk(a[0], caps), Render(a[1..], caps), Render(b, caps));
    }
  }

  /** Joining three pieces does not depend on which two are joined first. */
  lemma ThenAssociative(x: Outcome, y: Outcome, z: Outcome)
    ensures Then(x, Then(y, z)) == Then(Then(x, y), z)
  {
    if x.Returned? && y.Returned? && z.Returned? {
      assert x.code + (y.code + z.code) == (x.code + y.code) + z.code;
    }
  }

  lemma Render3(a: Chunk, b: Chunk, c: Chunk, caps: seq<string>)
    ensures Render([a, b, c], caps) == Then(RenderChunk(a, caps), Then(RenderChunk(b, caps), RenderChunk(c, caps)))
  {
    var t := [a, b, c];
    assert t[1..][1..] == [c];
    assert Render([c], caps) == Then(RenderChunk(c, caps), Returned(""));
  }

  lemma Render5(a: Chunk, b: Chunk, c: Chunk, d: Chunk, e: Chunk, caps: seq<string>)
    ensures Render([a, b, c, d, e], caps) == Then(RenderChunk(a, caps), Then(RenderChunk(b, caps),
      Then(RenderChunk(c, caps), Then(RenderChunk(d, caps), RenderChunk(e, caps)))))
  {
    var t := [a, b, c, d, e];
    assert t[1..][1..] == [c, d, e];
    Render3(c, d, e, caps);
  }

  /** The first piece of a rendered string is where it starts. */
  lemma RenderStartsWithHead(template: seq<Chunk>, caps: seq<string>)
    requires template != [] && Render(template, caps).Returned?
    ensures RenderChunk(template[0], caps).Returned?
    ensures RenderChunk(template[0], caps).code <= Render(template, caps).code
  {
  }

  // ---------------------------------------------------------------------------
  // First match wins
  // ---------------------------------------------------------------------------

  /** The index of the first rule, from `from` on, that accepts `line`. */
  function FirstMatchFrom(rules: seq<Rule>, from: nat, line: string): (r: Option<nat>)
    ensures r.Some? ==>
      (from <= r.value < |rules| && Hit(rules[r.value], line)
       && forall i :: from <= i < r.value ==> !Hit(rules[i], line))
    ensures r.None? ==> forall i :: from <= i < |rules| ==> !Hit(rules[i], line)
    decreases |rules| - from
  {
    if from >= |rules| then None
    else if Hit(rules[from], line) then Some(from)
    else FirstMatchFrom(rules, from + 1, line)
  }

  function FirstMatch(rules: seq<Rule>, line: string): Option<nat>
  {
    FirstMatchFrom(rules, 0, line)
  }

  /** Applies the first rule that accepts `line`; `otherwise` when none does. */
  function Dispatch(rules: seq<Rule>, line: string, otherwise: Outcome): Outcome
  {
    match FirstMatch(rules, line)
    case None => otherwise
    case Some(k) => Apply(rules[k], line)
  }

  /** `HandleExtendedCommands(lowerLine)`: the extended rules, then the unknown-command comment. */
  function HandleExtendedCommands(lowerLine: string): (r: Outcome)
    ensures r.Returned?
  {
    ExtendedNeverThrow();
    DispatchReturns(ExtendedRules, lowerLine, Returned(UnknownPrefix + lowerLine));
    Dispatch(ExtendedRules, lowerLine, Returned(UnknownPrefix + lowerLine))
  }

  /** `SimplifiedToArduino(line)` of `CreateNewProject`: the basic rules on the
      lower-cased line, then the extended ones. */
  function SimplifiedToArduino(line: string): (r: Outcome)
    ensures r.OverflowThrown? ==> FirstMatch(BasicRules, Lower(line)) == Some(5)
  {
    var lowerLine := Lower(line);
    BasicThrowsOnlyInSeconds(lowerLine, HandleExtendedCommands(lowerLine));
    Dispatch(BasicRules, lowerLine, HandleExtendedCommands(lowerLine))
  }

  /** Makes `Some(k)` the first match from the facts that define it. */
  lemma FirstMatchIs(rules: seq<Rule>, k: nat, line: string)
    requires k < |rules| && Hit(rules[k], line)
    requires forall i :: 0 <= i < k ==> !Hit(rules[i], line)
    ensures FirstMatch(rules, line) == Some(k)
  {
  }

  /** A rule whose pattern spells the line, with no earlier rule accepting it, is the
      one applied, and it sees exactly the captures of that spelling. */
  lemma Selects(rules: seq<Rule>, k: nat, line: string, caps: seq<string>, otherwise: Outcome)
    requires k < |rules| && rules[k].matcher.Regex? && WellFormed(rules[k].matcher.pattern)
    requires Spells(rules[k].matcher.pattern, line, caps)
    requires forall i :: 0 <= i < k ==> !Hit(rules[i], line)
    ensures FirstMatch(rules, line) == Some(k)
    ensures Dispatch(rules, line, otherwise) == Render(rules[k].template, caps)
  {
    AnchoredMatchSpells(rules[k].matcher.pattern, line, caps);
    FirstMatchIs(rules, k, line);
  }

  /** When no rule accepts the line, the dispatch falls through. */
  lemma NoneSelects(rules: seq<Rule>, line: string, otherwise: Outcome)
    requires forall i :: 0 <= i < |rules| ==> !Hit(rules[i], line)
    ensures FirstMatch(rules, line) == None
    ensures Dispatch(rules, line, otherwise) == otherwise
  {
  }

  /** Trying the rules of `a + b` in order is trying those of `a`, then, when none
      of them accepts the line, those of `b`. */
  lemma DispatchConcat(a: seq<Rule>, b: seq<Rule>, line: string, otherwise: Outcome)
    ensures Dispatch(a + b, line, otherwise) == Dispatch(a, line, Dispatch(b, line, otherwise))
  {
    var ab := a + b;
    match FirstMatch(a, line)
    case Some(k) =>
      assert forall i :: 0 <= i < k ==> ab[i] == a[i];
      FirstMatchIs(ab, k, line);
    case None =>
      assert forall i :: 0 <= i < |a| ==> ab[i] == a[i];
      match FirstMatch(b, line)
      case Some(j) =>
        assert forall i :: |a| <= i < |a| + j ==> ab[i] == b[i - |a|];
        FirstMatchIs(ab, |a| + j, line);
      case None =>
        assert forall i :: |a| <= i < |ab| ==> ab[i] == b[i - |a|];
        NoneSelects(ab, line, otherwise);
  }

  /** The rules of the groups, one group after the other. */
  function Flatten(groups: seq<seq<Rule>>): (rules: seq<Rule>)
    ensures |groups| > 0 ==> rules == groups[0] + Flatten(groups[1..])
  {
    if groups == [] then [] else groups[0] + Flatten(groups[1..])
  }

  /** Tries the groups from the one at `i` on, each falling through to the next. */
  function DispatchFrom(groups: seq<seq<Rule>>, i: nat, line: string, otherwise: Outcome): Outcome
    decreases |groups| - i
  {
    if i >= |groups| then otherwise
    else Dispatch(groups[i], line, DispatchFrom(groups, i + 1, line, otherwise))
  }

  /** Trying the flattened table is trying its groups in turn. */
  lemma {:induction false} DispatchFlatten(groups: seq<seq<Rule>>, i: nat, line: string, otherwise: Outcome)
    requires i <= |groups|
    ensures Dispatch(Flatten(groups[i..]), line, otherwise) == DispatchFrom(groups, i, line, otherwise)
    decreases |groups| - i
  {
    if i < |groups| {
      assert groups[i..][0] == groups[i] && groups[i..][1..] == groups[i + 1..];
      DispatchFlatten(groups, i + 1, line, otherwise);
      DispatchConcat(groups[i], Flatten(groups[i + 1..]), line, otherwise);
    } else {
      assert Flatten(groups[i..]) == [];
    }
  }

  /** `HandleExtendedCommands`, group by group. */
  lemma ExtendedInGroups(lowerLine: string)
    ensures HandleExtendedCommands(lowerLine)
      == DispatchFrom(ExtendedGroups, 0, lowerLine, Returned(UnknownPrefix + lowerLine))
  {
    assert ExtendedGroups[0..] == ExtendedGroups;
    DispatchFlatten(ExtendedGroups, 0, lowerLine, Returned(UnknownPrefix + lowerLine));
  }

  /** The groups of the extended table, by position. */
  lemma ExtendedGroupsAre()
    ensures |ExtendedGroups| == 11
    ensures ExtendedGroups[0] == ServoRules && ExtendedGroups[1] == PinRules
    ensures ExtendedGroups[2] == SerialWaitRules && ExtendedGroups[3] == TimerVariableRules
    ensures ExtendedGroups[4] == ConditionRules && ExtendedGroups[5] == LoopLogicRules
    ensures ExtendedGroups[6] == MathButtonRules && ExtendedGroups[7] == ListToneFunctionRules
    ensures ExtendedGroups[8] == PumpRules && ExtendedGroups[9] == MapRandomRules
    ensures ExtendedGroups[10] == TimeInterruptRules
  {
  }

  /** A group that no rule of accepts the line is passed over. */
  lemma SkipGroup(groups: seq<seq<Rule>>, i: nat, line: string, otherwise: Outcome)
    requires i < |groups| && FirstMatch(groups[i], line) == None
    ensures DispatchFrom(groups, i, line, otherwise) == DispatchFrom(groups, i + 1, line, otherwise)
  {
  }

  // ---------------------------------------------------------------------------
  // Facts about every rule of a table
  // ---------------------------------------------------------------------------

  predicate Every(rules: seq<Rule>, p: Rule -> bool)
  {
    forall j :: 0 <= j < |rules| ==> p(rules[j])
  }

  /** Every rule with index in `i .. k` satisfies `p`; on a table written out in full
      this is checked one rule at a time. */
  predicate EveryFrom(rules: seq<Rule>, i: nat, k: nat, p: Rule -> bool)
    decreases k - i
  {
    i >= k || (i < |rules| && p(rules[i]) && EveryFrom(rules, i + 1, k, p))
  }

  lemma {:induction false} EveryFromAll(rules: seq<Rule>, i: nat, k: nat, p: Rule -> bool)
    requires EveryFrom(rules, i, k, p)
    ensures i < k ==> k <= |rules|
    ensures forall j :: i <= j < k ==> p(rules[j])
    decreases k - i
  {
    if i < k {
      EveryFromAll(rules, i + 1, k, p);
    }
  }

  /** Every group from the one at `i` on satisfies `p` rule by rule. */
  predicate GroupsEvery(groups: seq<seq<Rule>>, i: nat, p: Rule -> bool)
    decreases |groups| - i
  {
    i >= |groups| || (Every(groups[i], p) && GroupsEvery(groups, i + 1, p))
  }

  lemma {:induction false} FlattenEvery(groups: seq<seq<Rule>>, i: nat, p: Rule -> bool)
    requires i <= |groups| && GroupsEvery(groups, i, p)
    ensures Every(Flatten(groups[i..]), p)
    decreases |groups| - i
  {
    if i < |groups| {
      assert groups[i..][0] == groups[i] && groups[i..][1..] == groups[i + 1..];
      FlattenEvery(groups, i + 1, p);
      var a, b := groups[i], Flatten(groups[i + 1..]);
      forall j | 0 <= j < |a + b|
        ensures p((a + b)[j])
      {
        if j >= |a| {
          assert (a + b)[j] == b[j - |a|];
        }
      }
    }
  }

  /** What holds of every rule of every extended group holds of every extended rule. */
  lemma ExtendedEvery(p: Rule -> bool)
    requires Every(ServoRules, p) && Every(PinRules, p) && Every(SerialWaitRules, p)
    requires Every(TimerVariableRules, p) && Every(ConditionRules, p) && Every(LoopLogicRules, p)
    requires Every(MathButtonRules, p) && Every(ListToneFunctionRules, p) && Every(PumpRules, p)
    requires Every(MapRandomRules, p) && Every(TimeInterruptRules, p)
    ensures Every(ExtendedRules, p)
  {
    ExtendedGroupsAre();
    assert GroupsEvery(ExtendedGroups, 11, p);
    assert GroupsEvery(ExtendedGroups, 10, p);
    assert GroupsEvery(ExtendedGroups, 9, p);
    assert GroupsEvery(ExtendedGroups, 8, p);
    assert GroupsEvery(ExtendedGroups, 7, p);
    assert GroupsEvery(ExtendedGroups, 6, p);
    assert GroupsEvery(ExtendedGroups, 5, p);
    assert GroupsEvery(ExtendedGroups, 4, p);
    assert GroupsEvery(ExtendedGroups, 3, p);
    assert GroupsEvery(ExtendedGroups, 2, p);
    assert GroupsEvery(ExtendedGroups, 1, p);
    assert GroupsEvery(ExtendedGroups, 0, p);
    assert ExtendedGroups[0..] == ExtendedGroups;
    FlattenEvery(ExtendedGroups, 0, p);
  }

  // ---------------------------------------------------------------------------
  // Only `int.Parse` throws
  // ---------------------------------------------------------------------------

  /** The template has no `int.Parse` piece, so rendering it cannot throw. */
  predicate NeverThrows(r: Rule)
  {
    forall i :: 0 <= i < |r.template| ==> !r.template[i].GroupMillis?
  }

  lemma {:induction false} RenderReturns(template: seq<Chunk>, caps: seq<string>)
    requires forall i :: 0 <= i < |template| ==> !template[i].GroupMillis?
    ensures Render(template, caps).Returned?
    decreases |template|
  {
    if template != [] {
      assert !template[0].GroupMillis?;
      assert forall i :: 0 <= i < |template[1..]| ==> template[1..][i] == template[i + 1];
      RenderReturns(template[1..], caps);
    }
  }

  /** A table of rules that never throw, with a fall-back that does not throw, never throws. */
  lemma DispatchReturns(rules: seq<Rule>, line: string, otherwise: Outcome)
    requires Every(rules, NeverThrows) && otherwise.Returned?
    ensures Dispatch(rules, line, otherwise).Returned?
  {
    if FirstMatch(rules, line).Some? {
      var k := FirstMatch(rules, line).value;
      assert NeverThrows(rules[k]);
      RenderReturns(rules[k].template, CapturesOf(rules[k], line));
    }
  }

  lemma ServoPinNeverThrow()
    ensures Every(ServoRules, NeverThrows) && Every(PinRules, NeverThrows)
  {
  }

  lemma SerialTimerNeverThrow()
    ensures Every(SerialWaitRules, NeverThrows) && Every(TimerVariableRules, NeverThrows)
  {
  }

  lemma ConditionLoopNeverThrow()
    ensures Every(ConditionRules, NeverThrows) && Every(LoopLogicRules, NeverThrows)
  {
  }

  lemma MathListNeverThrow()
    ensures Every(MathButtonRules, NeverThrows) && Every(ListToneFunctionRules, NeverThrows)
  {
  }

  lemma PumpMapTimeNeverThrow()
    ensures Every(PumpRules, NeverThrows) && Every(MapRandomRules, NeverThrows)
    ensures Every(TimeInterruptRules, NeverThrows)
  {
  }

  /** No extended rule parses a number. */
  lemma ExtendedNeverThrow()
    ensures Every(ExtendedRules, NeverThrows)
  {
    ServoPinNeverThrow();
    SerialTimerNeverThrow();
    ConditionLoopNeverThrow();
    MathListNeverThrow();
    PumpMapTimeNeverThrow();
    ExtendedEvery(NeverThrows);
  }

  /** Of the basic rules, only the `wait N second(s)` rule parses a number. */
  lemma BasicNeverThrowBut5()
    ensures |BasicRules| == 11
    ensures forall k :: 0 <= k < 5 ==> NeverThrows(BasicRules[k])
    ensures forall k :: 6 <= k < 11 ==> NeverThrows(BasicRules[k])
  {
  }

  /** So the basic table throws only when that rule is the one applied. */
  lemma BasicThrowsOnlyInSeconds(line: string, otherwise: Outcome)
    requires otherwise.Returned?
    ensures Dispatch(BasicRules, line, otherwise).OverflowThrown? ==> FirstMatch(BasicRules, line) == Some(5)
  {
    if FirstMatch(BasicRules, line).Some? {
      var k := FirstMatch(BasicRules, line).value;
      if k != 5 {
        BasicNeverThrowBut5();
        RenderReturns(BasicRules[k].template, CapturesOf(BasicRules[k], line));
      }
    }
  }

  // ---------------------------------------------------------------------------
  // Ruling rules out by the text a line starts with
  // ---------------------------------------------------------------------------

  /** `t` and `pre` differ at some position both have, from `i` on. */
  predicate DisagreeFrom(t: string, pre: string, i: nat)
    decreases |t| - i
  {
    i < |t| && i < |pre| && (t[i] != pre[i] || DisagreeFrom(t, pre, i + 1))
  }

  lemma {:induction false} DisagreeAt(t: string, pre: string, i: nat) returns (j: nat)
    requires DisagreeFrom(t, pre, i)
    ensures i <= j < |t| && j < |pre| && t[j] != pre[j]
    decreases |t| - i
  {
    if t[i] != pre[i] {
      j := i;
    } else {
      j := DisagreeAt(t, pre, i + 1);
    }
  }

  /** `t` agrees with `pre` from `i` to its end. */
  predicate AgreeFrom(t: string, pre: string, i: nat)
    decreases |t| - i
  {
    i >= |t| || (i < |pre| && t[i] == pre[i] && AgreeFrom(t, pre, i + 1))
  }

  lemma {:induction false} AgreeIsPrefix(t: string, pre: string, i: nat)
    requires AgreeFrom(t, pre, i) && i <= |t| && i <= |pre|
    ensures |t| <= |pre| && t[i..] == pre[i..|t|]
    decreases |t| - i
  {
    if i < |t| {
      AgreeIsPrefix(t, pre, i + 1);
      assert t[i..] == [t[i]] + t[i + 1..];
      assert pre[i..|t|] == [pre[i]] + pre[i + 1..|t|];
    }
  }

  /** A matcher that no line starting with `pre` satisfies: its leading text disagrees
      with `pre`, or its leading text is followed in `pre` by a non-digit where a digit
      group must begin. */
  predicate Excludes(m: Matcher, pre: string)
  {
    match m
    case Equals(t) => DisagreeFrom(t, pre, 0)
    case Regex(p) =>
      |p| > 0 && p[0].Lit? &&
      (DisagreeFrom(p[0].text, pre, 0)
       || (|p| > 1 && p[1] == Cap(Digits) && |p[0].text| < |pre| && AgreeFrom(p[0].text, pre, 0)
           && !IsDigit(pre[|p[0].text|])))
  }

  lemma ExcludesSound(m: Matcher, pre: string, line: string)
    requires Excludes(m, pre) && pre <= line && NoLineFeed(pre)
    ensures Captures(m, line) == None
  {
    match m
    case Equals(t) =>
      var j := DisagreeAt(t, pre, 0);
      assert line[j] == pre[j];
    case Regex(p) =>
      var a := Anchored(line);
      if a != line {
        assert pre[|pre| - 1] != '\n';
        assert pre <= a;
      }
      var t := p[0].text;
      if DisagreeFrom(t, pre, 0) {
        var j := DisagreeAt(t, pre, 0);
        assert a[j] == pre[j];
        LeadingTextRejects(p, a, j);
      } else {
        AgreeIsPrefix(t, pre, 0);
        assert a[|t|] == pre[|t|];
        LitDigitsRejectNonDigit(p, t, a);
      }
  }

  /** A matcher that no line `pre + n + post` with a numeral `n` satisfies: excluded by
      `pre` already, or reading `pre`, a digit group and a literal that `post` does not start with. */
  predicate ExcludesNumbered(m: Matcher, pre: string, post: string)
  {
    Excludes(m, pre) ||
    (m.Regex? && |m.pattern| > 2 && m.pattern[0].Lit? && |m.pattern[0].text| == |pre|
     && AgreeFrom(m.pattern[0].text, pre, 0) && m.pattern[1] == Cap(Digits) && m.pattern[2].Lit?
     && (DisagreeFrom(m.pattern[2].text, post, 0) || |post| < |m.pattern[2].text|))
  }

  /** The shape of a line that holds one numeral: `pre`, the numeral, then `post`. */
  predicate NumberedLine(line: string, pre: string, n: string, post: string)
  {
    line == pre + n + post && IsNumeral(n) && NoLineFeed(pre) && NoLineFeed(post)
    && (post == [] || !IsDigit(post[0]))
  }

  lemma ExcludesNumberedSound(m: Matcher, line: string, pre: string, n: string, post: string)
    requires ExcludesNumbered(m, pre, post) && NumberedLine(line, pre, n, post)
    ensures Captures(m, line) == None
  {
    if Excludes(m, pre) {
      ExcludesSound(m, pre, line);
    } else {
      var p := m.pattern;
      var v := p[2].text;
      AgreeIsPrefix(p[0].text, pre, 0);
      assert p[0] == Lit(pre);
      if DisagreeFrom(v, post, 0) {
        var j := DisagreeAt(v, post, 0);
      }
      assert line[|line| - 1] != '\n';
      LitDigitsLitReject(p, pre, n, v, post);
    }
  }

  /** Every rule with index in `i .. k` is excluded by `pre`. */
  predicate ExcludedFrom(rules: seq<Rule>, i: nat, k: nat, pre: string)
    decreases k - i
  {
    i >= k || (i < |rules| && Excludes(rules[i].matcher, pre) && ExcludedFrom(rules, i + 1, k, pre))
  }

  lemma {:induction false} ExcludedMisses(rules: seq<Rule>, i: nat, k: nat, pre: string, line: string)
    requires ExcludedFrom(rules, i, k, pre) && pre <= line && NoLineFeed(pre)
    ensures i < k ==> k <= |rules|
    ensures forall j :: i <= j < k ==> !Hit(rules[j], line)
    decreases k - i
  {
    if i < k {
      ExcludesSound(rules[i].matcher, pre, line);
      ExcludedMisses(rules, i + 1, k, pre, line);
    }
  }

  /** Exclusion of two adjacent index ranges is exclusion of their union. */
  lemma {:induction false} ExcludedJoin(rules: seq<Rule>, i: nat, j: nat, k: nat, pre: string)
    requires i <= j && ExcludedFrom(rules, i, j, pre) && ExcludedFrom(rules, j, k, pre)
    ensures ExcludedFrom(rules, i, k, pre)
    decreases j - i
  {
    if i < j {
      ExcludedJoin(rules, i + 1, j, k, pre);
    }
  }

  /** Every rule with index in `i .. k` is excluded for `pre`, a numeral and `post`. */
  predicate NumberedExcludedFrom(rules: seq<Rule>, i: nat, k: nat, pre: string, post: string)
    decreases k - i
  {
    i >= k || (i < |rules| && ExcludesNumbered(rules[i].matcher, pre, post)
               && NumberedExcludedFrom(rules, i + 1, k, pre, post))
  }

  lemma {:induction false} NumberedExcludedMisses(rules: seq<Rule>, i: nat, k: nat, line: string,
                                                  pre: string, n: string, post: string)
    requires NumberedExcludedFrom(rules, i, k, pre, post) && NumberedLine(line, pre, n, post)
    ensures i < k ==> k <= |rules|
    ensures forall j :: i <= j < k ==> !Hit(rules[j], line)
    decreases k - i
  {
    if i < k {
      ExcludesNumberedSound(rules[i].matcher, line, pre, n, post);
      NumberedExcludedMisses(rules, i + 1, k, line, pre, n, post);
    }
  }

  lemma {:induction false} NumberedExcludedJoin(rules: seq<Rule>, i: nat, j: nat, k: nat, pre: string, post: string)
    requires i <= j && NumberedExcludedFrom(rules, i, j, pre, post) && NumberedExcludedFrom(rules, j, k, pre, post)
    ensures NumberedExcludedFrom(rules, i, k, pre, post)
    decreases j - i
  {
    if i < j {
      NumberedExcludedJoin(rules, i + 1, j, k, pre, post);
    }
  }

  /** The rule at `k` answers a line that it spells and that starts with a text
      excluding every earlier rule. */
  lemma SelectsAfter(rules: seq<Rule>, k: nat, pre: string, line: string, caps: seq<string>, otherwise: Outcome)
    requires k < |rules| && rules[k].matcher.Regex? && WellFormed(rules[k].matcher.pattern)
    requires Spells(rules[k].matcher.pattern, line, caps)
    requires ExcludedFrom(rules, 0, k, pre) && pre <= line && NoLineFeed(pre)
    ensures Dispatch(rules, line, otherwise) == Render(rules[k].template, caps)
  {
    ExcludedMisses(rules, 0, k, pre, line);
    Selects(rules, k, line, caps, otherwise);
  }

  lemma SelectsAfterNumbered(rules: seq<Rule>, k: nat, line: string, pre: string, n: string, post: string,
                             caps: seq<string>, otherwise: Outcome)
    requires k < |rules| && rules[k].matcher.Regex? && WellFormed(rules[k].matcher.pattern)
    requires Spells(rules[k].matcher.pattern, line, caps)
    requires NumberedExcludedFrom(rules, 0, k, pre, post) && NumberedLine(line, pre, n, post)
    ensures Dispatch(rules, line, otherwise) == Render(rules[k].template, caps)
  {
    NumberedExcludedMisses(rules, 0, k, line, pre, n, post);
    Selects(rules, k, line, caps, otherwise);
  }

  /** A line whose start excludes every rule falls through. */
  lemma NoneAfter(rules: seq<Rule>, pre: string, line: string, otherwise: Outcome)
    requires ExcludedFrom(rules, 0, |rules|, pre) && pre <= line && NoLineFeed(pre)
    ensures FirstMatch(rules, line) == None
    ensures Dispatch(rules, line, otherwise) == otherwise
  {
    ExcludedMisses(rules, 0, |rules|, pre, line);
    NoneSelects(rules, line, otherwise);
  }

  lemma NoneAfterNumbered(rules: seq<Rule>, line: string, pre: string, n: string, post: string, otherwise: Outcome)
    requires NumberedExcludedFrom(rules, 0, |rules|, pre, post) && NumberedLine(line, pre, n, post)
    ensures FirstMatch(rules, line) == None
    ensures Dispatch(rules, line, otherwise) == otherwise
  {
    NumberedExcludedMisses(rules, 0, |rules|, line, pre, n, post);
    NoneSelects(rules, line, otherwise);
  }

  // ---------------------------------------------------------------------------
  // The rule table, in the order the source tries the patterns
  // ---------------------------------------------------------------------------

  /** The patterns `SimplifiedToArduino` itself tries. */
  const BasicRules: seq<Rule> := [
    Rule(Regex([Lit("say \""), Cap(AnyStar), Lit("\"")]),                                                    // 0
      [Verbatim("Serial.println(\""), GroupEscaped(1), Verbatim("\");")]),
    Rule(Regex([Lit("turn on pin "), Cap(Digits)]),                                                          // 1
      [Verbatim("digitalWrite("), Group(1), Verbatim(", HIGH);")]),
    Rule(Regex([Lit("turn off pin "), Cap(Digits)]),                                                         // 2
      [Verbatim("digitalWrite("), Group(1), Verbatim(", LOW);")]),
    Rule(Regex([Lit("set pin "), Cap(Digits), Lit(" to output")]),                                          // 3
      [Verbatim("pinMode("), Group(1), Verbatim(", OUTPUT);")]),
    Rule(Regex([Lit("set pin "), Cap(Digits), Lit(" to input")]),                                           // 4
      [Verbatim("pinMode("), Group(1), Verbatim(", INPUT);")]),
    Rule(Regex([Lit("wait "), Cap(Digits), Lit(" second"), Opt("s")]),                                      // 5
      [Verbatim("delay("), GroupMillis(1), Verbatim(");")]),
    Rule(Regex([Lit("wait "), Cap(Digits), Lit(" millisecond"), Opt("s")]),                                 // 6
      [Verbatim("delay("), Group(1), Verbatim(");")]),
    Rule(Regex([Lit("analog write pin "), Cap(Digits), Lit(" to "), Cap(Digits)]),                          // 7
      [Verbatim("analogWrite("), Group(1), Verbatim(", "), Group(2), Verbatim(");")]),
    Rule(Regex([Lit("read analog pin "), Cap(AnalogPin)]),                                                  // 8
      [Verbatim("analogRead("), GroupUpper(1), Verbatim(");")]),
    Rule(Regex([Lit("read digital pin "), Cap(Digits)]),                                                    // 9
      [Verbatim("digitalRead("), Group(1), Verbatim(");")]),
    Rule(Regex([Lit("if pin "), Cap(Digits), Lit(" is "), Cap(OneOf(["pressed", "high", "low"]))]),        // 10
      [Verbatim("if (digitalRead("), Group(1), Verbatim(") == "), GroupLevel(2), Verbatim(") {")])
  ]

  /** The patterns of `HandleExtendedCommands`, in the order it tries them: the
      groups below, one after the other. */
  const ExtendedRules: seq<Rule> := Flatten(ExtendedGroups)

  const ExtendedGroups: seq<seq<Rule>> := [
    ServoRules, PinRules, SerialWaitRules, TimerVariableRules, ConditionRules, LoopLogicRules,
    MathButtonRules, ListToneFunctionRules, PumpRules, MapRandomRules, TimeInterruptRules
  ]

  /** Servo motors. */
  const ServoRules: seq<Rule> := [
    Rule(Equals("include servo library"),                                                                   // 0
      [Verbatim("#include <Servo.h>")]),
    Rule(Regex([Lit("create servo called "), Cap(Word)]),                                                   // 1
      [Verbatim("Servo "), Group(1), Verbatim(";")]),
    Rule(Regex([Lit("attach "), Cap(Word), Lit(" to pin "), Cap(Digits)]),                                  // 2
      [Group(1), Verbatim(".attach("), Group(2), Verbatim(");")]),
    Rule(Regex([Lit("move "), Cap(Word), Lit(" to "), Cap(Digits)]),                                        // 3
      [Group(1), Verbatim(".write("), Group(2), Verbatim(");")])
  ]

  /** Digital and analog pins. */
  const PinRules: seq<Rule> := [
    Rule(Regex([Lit("turn on pin "), Cap(Digits)]),                                                         // 0
      [Verbatim("digitalWrite("), Group(1), Verbatim(", HIGH);")]),
    Rule(Regex([Lit("turn off pin "), Cap(Digits)]),                                                        // 1
      [Verbatim("digitalWrite("), Group(1), Verbatim(", LOW);")]),
    Rule(Regex([Lit("toggle pin "), Cap(Digits)]),                                                          // 2
      [Verbatim("digitalWrite("), Group(1), Verbatim(", !digitalRead("), Group(1), Verbatim("));")]),
    Rule(Regex([Lit("set pin "), Cap(Digits), Lit(" as input")]),                                           // 3
      [Verbatim("pinMode("), Group(1), Verbatim(", INPUT);")]),
    Rule(Regex([Lit("set pin "), Cap(Digits), Lit(" as input pullup")]),                                    // 4
      [Verbatim("pinMode("), Group(1), Verbatim(", INPUT_PULLUP);")]),
    Rule(Regex([Lit("set pin "), Cap(Digits), Lit(" as output")]),                                          // 5
      [Verbatim("pinMode("), Group(1), Verbatim(", OUTPUT);")]),
    Rule(Regex([Lit("read analog from pin "), Cap(Digits)]),                                                // 6
      [Verbatim("analogRead("), Group(1), Verbatim(");")]),
    Rule(Regex([Lit("write analog "), Cap(Digits), Lit(" to pin "), Cap(Digits)]),                          // 7
      [Verbatim("analogWrite("), Group(2), Verbatim(", "), Group(1), Verbatim(");")])
  ]

  /** Serial output and waiting. */
  const SerialWaitRules: seq<Rule> := [
    Rule(Regex([Lit("start serial at "), Cap(Digits)]),                                                     // 0
      [Verbatim("Serial.begin("), Group(1), Verbatim(");")]),
    Rule(Regex([Lit("print line \""), Cap(AnyPlus), Lit("\"")]),                                            // 1
      [Verbatim("Serial.println(\""), Group(1), Verbatim("\");")]),
    Rule(Regex([Lit("print line "), Cap(Word)]),                                                            // 2
      [Verbatim("Serial.println("), Group(1), Verbatim(");")]),
    Rule(Regex([Lit("wait "), Cap(Digits)]),                                                                // 3
      [Verbatim("delay("), Group(1), Verbatim(");")]),
    Rule(Regex([Lit("wait for "), Cap(Digits), Lit(" seconds")]),                                           // 4
      [Verbatim("delay("), Group(1), Verbatim(" * 1000);")])
  ]

  /** Timers and variables. */
  const TimerVariableRules: seq<Rule> := [
    Rule(Regex([Lit("set timer to current millis")]),                                                       // 0
      [Verbatim("unsigned long timer = millis();")]),
    Rule(Regex([Lit("if millis minus timer is greater than "), Cap(Digits)]),                               // 1
      [Verbatim("if (millis() - timer > "), Group(1), Verbatim(") {")]),
    Rule(Regex([Lit("set "), Cap(Word), Lit(" to "), Cap(Digits)]),                                         // 2
      [Verbatim("int "), Group(1), Verbatim(" = "), Group(2), Verbatim(";")]),
    Rule(Regex([Lit("change "), Cap(Word), Lit(" by "), Cap(Digits)]),                                      // 3
      [Group(1), Verbatim(" += "), Group(2), Verbatim(";")])
  ]

  /** Conditions. */
  const ConditionRules: seq<Rule> := [
    Rule(Regex([Lit("if "), Cap(Word), Lit(" is equal to "), Cap(Digits)]),                                 // 0
      [Verbatim("if ("), Group(1), Verbatim(" == "), Group(2), Verbatim(") {")]),
    Rule(Regex([Lit("if "), Cap(Word), Lit(" is greater than "), Cap(Digits)]),                             // 1
      [Verbatim("if ("), Group(1), Verbatim(" > "), Group(2), Verbatim(") {")]),
    Rule(Regex([Lit("if "), Cap(Word), Lit(" is less than "), Cap(Digits)]),                                // 2
      [Verbatim("if ("), Group(1), Verbatim(" < "), Group(2), Verbatim(") {")]),
    Rule(Regex([Lit("else")]),                                                                              // 3
      [Verbatim("} else {")]),
    Rule(Regex([Lit("end")]),                                                                               // 4
      [Verbatim("}")])
  ]

  /** Loops and logic. */
  const LoopLogicRules: seq<Rule> := [
    Rule(Regex([Lit("repeat "), Cap(Digits), Lit(" times")]),                                               // 0
      [Verbatim("for (int i = 0; i < "), Group(1), Verbatim("; i++) {")]),
    Rule(Regex([Lit("forever")]),                                                                           // 1
      [Verbatim("while (true) {")]),
    Rule(Regex([Cap(Word), Lit(" and "), Cap(Word)]),                                                       // 2
      [Verbatim("("), Group(1), Verbatim(" && "), Group(2), Verbatim(")")]),
    Rule(Regex([Cap(Word), Lit(" or "), Cap(Word)]),                                                        // 3
      [Verbatim("("), Group(1), Verbatim(" || "), Group(2), Verbatim(")")]),
    Rule(Regex([Lit("not "), Cap(Word)]),                                                                   // 4
      [Verbatim("!"), Group(1)])
  ]

  /** Math functions and buttons. */
  const MathButtonRules: seq<Rule> := [
    Rule(Regex([Lit("absolute of "), Cap(Word)]),                                                           // 0
      [Verbatim("abs("), Group(1), Verbatim(");")]),
    Rule(Regex([Lit("square root of "), Cap(Word)]),                                                        // 1
      [Verbatim("sqrt("), Group(1), Verbatim(");")]),
    Rule(Regex([Lit("read button on pin "), Cap(Digits)]),                                                  // 2
      [Verbatim("digitalRead("), Group(1), Verbatim(");")]),
    Rule(Regex([Lit("while button on pin "), Cap(Digits), Lit(" is pressed")]),                             // 3
      [Verbatim("while (digitalRead("), Group(1), Verbatim(") == HIGH) {")])
  ]

  /** Lists, tones and functions. */
  const ListToneFunctionRules: seq<Rule> := [
    Rule(Regex([Lit("create list "), Cap(Word), Lit(" with size "), Cap(Digits)]),                          // 0
      [Verbatim("int "), Group(1), Verbatim("["), Group(2), Verbatim("];")]),
    Rule(Regex([Lit("set "), Cap(Word), Lit("["), Cap(Digits), Lit("] to "), Cap(Digits)]),                 // 1
      [Group(1), Verbatim("["), Group(2), Verbatim("] = "), Group(3), Verbatim(";")]),
    Rule(Regex([Lit("play tone on pin "), Cap(Digits), Lit(" at "), Cap(Digits), Lit(" hz for "), Cap(Digits), Lit(" ms")]), // 2
      [Verbatim("tone("), Group(1), Verbatim(", "), Group(2), Verbatim(", "), Group(3), Verbatim(");")]),
    Rule(Regex([Lit("define function "), Cap(Word)]),                                                       // 3
      [Verbatim("void "), Group(1), Verbatim("() {")]),
    Rule(Regex([Lit("call "), Cap(Word)]),                                                                  // 4
      [Group(1), Verbatim("();")])
  ]

  /** The hydropump relay. */
  const PumpRules: seq<Rule> := [
    Rule(Regex([Lit("set pin "), Cap(Digits), Lit(" as pump output")]),                                     // 0
      [Verbatim("pinMode("), Group(1), Verbatim(", OUTPUT);")]),
    Rule(Regex([Lit("turn on hydropump at pin "), Cap(Digits)]),                                            // 1
      [Verbatim("digitalWrite("), Group(1), Verbatim(", HIGH);")]),
    Rule(Regex([Lit("turn off hydropump at pin "), Cap(Digits)]),                                           // 2
      [Verbatim("digitalWrite("), Group(1), Verbatim(", LOW);")])
  ]

  /** Mapping and random numbers. */
  const MapRandomRules: seq<Rule> := [
    Rule(Regex([Lit("map "), Cap(Word), Lit(" from "), Cap(Digits), Lit("-"), Cap(Digits), Lit(" to "), Cap(Digits), Lit("-"), Cap(Digits)]),// 0
      [Verbatim("map("), Group(1), Verbatim(", "), Group(2), Verbatim(", "), Group(3), Verbatim(", "), Group(4), Verbatim(", "), Group(5), Verbatim(");")]),
    Rule(Regex([Lit("random number between "), Cap(Digits), Lit(" and "), Cap(Digits)]),                    // 1
      [Verbatim("random("), Group(1), Verbatim(", "), Group(2), Verbatim(");")])
  ]

  /** Time and interrupts. */
  const TimeInterruptRules: seq<Rule> := [
    Rule(Regex([Lit("if time passed is more than "), Cap(Digits), Lit("ms")]),                              // 0
      [Verbatim("if (millis() > "), Group(1), Verbatim(") {")]),
    Rule(Regex([Lit("current time in milliseconds")]),                                                      // 1
      [Verbatim("millis();")]),
    Rule(Regex([Lit("stop interrupts")]),                                                                   // 2
      [Verbatim("noInterrupts();")]),
    Rule(Regex([Lit("start interrupts")]),                                                                  // 3
      [Verbatim("interrupts();")])
  ]
}
