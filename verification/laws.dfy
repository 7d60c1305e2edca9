/** Properties of the new-project translator as a whole: it looks only at the
    lower-cased line, it falls back to the unknown-command comment exactly when no
    rule accepts the line, and the pin rules that the extended table repeats from
    the basic one can never answer. */
module ForwardLaws {
  import opened Text
  import opened Patterns
  import opened Forward

  // ---------------------------------------------------------------------------
  // Case does not matter
  // ---------------------------------------------------------------------------

  /** The translation depends on the lower-cased line only: `WAIT 2 SECONDS` and
      `wait 2 seconds` translate alike. */
  lemma CaseInsensitive(line: string)
    ensures SimplifiedToArduino(line) == SimplifiedToArduino(Lower(line))
  {
    LowerFixes(line);
  }

  /** Two lines that agree up to case translate alike. */
  lemma SameLowerSameCode(a: string, b: string)
    requires Lower(a) == Lower(b)
    ensures SimplifiedToArduino(a) == SimplifiedToArduino(b)
  {
  }

  // ---------------------------------------------------------------------------
  // What a rule renders never reads like the unknown-command comment
  // ---------------------------------------------------------------------------

  /** The template of `r` starts with text that is not `/`, or with the first group
      of a pattern whose first group is a `(\w+)` run. */
  predicate HeadSafe(r: Rule)
  {
    |r.template| > 0 &&
    match r.template[0]
    case Verbatim(v) => v != [] && v[0] != '/'
    case Group(n) => n == 1 && r.matcher.Regex? && FirstCapWord(r.matcher.pattern)
    case GroupUpper(_) => false
    case GroupEscaped(_) => false
    case GroupLevel(_) => false
    case GroupMillis(_) => false
  }

  /** A rule with a safe head renders, when it renders at all, a non-empty text that
      does not start with `/`. */
  lemma HeadSafeApply(r: Rule, line: string)
    requires HeadSafe(r) && Hit(r, line)
    ensures Apply(r, line).Returned? ==> Apply(r, line).code != [] && Apply(r, line).code[0] != '/'
  {
    var caps := CapturesOf(r, line);
    if Apply(r, line).Returned? {
      RenderStartsWithHead(r.template, caps);
      if r.template[0].Group? {
        MatchFirstCapWord(r.matcher.pattern, Anchored(line));
        assert IsWordChar(caps[0][0]);
      }
    }
  }

  /** A table whose rules all have safe heads answers a line that one of them accepts
      with a non-empty text that does not start with `/`. */
  lemma DispatchSafe(rules: seq<Rule>, line: string, otherwise: Outcome)
    requires Every(rules, HeadSafe) && FirstMatch(rules, line).Some?
    ensures Dispatch(rules, line, otherwise).Returned? ==>
      Dispatch(rules, line, otherwise).code != [] && Dispatch(rules, line, otherwise).code[0] != '/'
  {
    HeadSafeApply(rules[FirstMatch(rules, line).value], line);
  }

  lemma BasicSafe0()
    ensures forall j :: 0 <= j < 6 ==> HeadSafe(BasicRules[j])
  {
    assert EveryFrom(BasicRules, 0, 6, HeadSafe);
    EveryFromAll(BasicRules, 0, 6, HeadSafe);
  }

  lemma BasicSafe1()
    ensures forall j :: 6 <= j < 11 ==> HeadSafe(BasicRules[j])
  {
    assert EveryFrom(BasicRules, 6, 11, HeadSafe);
    EveryFromAll(BasicRules, 6, 11, HeadSafe);
  }

  lemma BasicSafe()
    ensures Every(BasicRules, HeadSafe)
  {
    BasicSafe0();
    BasicSafe1();
  }

  lemma ServoSafe()
    ensures Every(ServoRules, HeadSafe)
  {
    assert EveryFrom(ServoRules, 0, 4, HeadSafe);
    EveryFromAll(ServoRules, 0, 4, HeadSafe);
  }

  lemma PinSafe0()
    ensures forall j :: 0 <= j < 4 ==> HeadSafe(PinRules[j])
  {
    assert EveryFrom(PinRules, 0, 4, HeadSafe);
    EveryFromAll(PinRules, 0, 4, HeadSafe);
  }

  lemma PinSafe1()
    ensures forall j :: 4 <= j < 8 ==> HeadSafe(PinRules[j])
  {
    assert EveryFrom(PinRules, 4, 8, HeadSafe);
    EveryFromAll(PinRules, 4, 8, HeadSafe);
  }

  lemma PinSafe()
    ensures Every(PinRules, HeadSafe)
  {
    PinSafe0();
    PinSafe1();
  }

  lemma SerialWaitSafe()
    ensures Every(SerialWaitRules, HeadSafe)
  {
    assert EveryFrom(SerialWaitRules, 0, 5, HeadSafe);
    EveryFromAll(SerialWaitRules, 0, 5, HeadSafe);
  }

  lemma TimerVariableSafe()
    ensures Every(TimerVariableRules, HeadSafe)
  {
    assert EveryFrom(TimerVariableRules, 0, 4, HeadSafe);
    EveryFromAll(TimerVariableRules, 0, 4, HeadSafe);
  }

  lemma ConditionSafe()
    ensures Every(ConditionRules, HeadSafe)
  {
    assert EveryFrom(ConditionRules, 0, 5, HeadSafe);
    EveryFromAll(ConditionRules, 0, 5, HeadSafe);
  }

  lemma LoopLogicSafe()
    ensures Every(LoopLogicRules, HeadSafe)
  {
    assert EveryFrom(LoopLogicRules, 0, 5, HeadSafe);
    EveryFromAll(LoopLogicRules, 0, 5, HeadSafe);
  }

  lemma MathButtonSafe()
    ensures Every(MathButtonRules, HeadSafe)
  {
    assert EveryFrom(MathButtonRules, 0, 4, HeadSafe);
    EveryFromAll(MathButtonRules, 0, 4, HeadSafe);
  }

  lemma ListToneFunctionSafe()
    ensures Every(ListToneFunctionRules, HeadSafe)
  {
    assert EveryFrom(ListToneFunctionRules, 0, 5, HeadSafe);
    EveryFromAll(ListToneFunctionRules, 0, 5, HeadSafe);
  }

  lemma PumpSafe()
    ensures Every(PumpRules, HeadSafe)
  {
    assert EveryFrom(PumpRules, 0, 3, HeadSafe);
    EveryFromAll(PumpRules, 0, 3, HeadSafe);
  }

  lemma MapRandomSafe()
    ensures Every(MapRandomRules, HeadSafe)
  {
    assert EveryFrom(MapRandomRules, 0, 2, HeadSafe);
    EveryFromAll(MapRandomRules, 0, 2, HeadSafe);
  }

  lemma TimeInterruptSafe()
    ensures Every(TimeInterruptRules, HeadSafe)
  {
    assert EveryFrom(TimeInterruptRules, 0, 4, HeadSafe);
    EveryFromAll(TimeInterruptRules, 0, 4, HeadSafe);
  }

  /** Every extended rule has a safe head. */
  lemma ExtendedSafe()
    ensures Every(ExtendedRules, HeadSafe)
  {
    ServoSafe();
    PinSafe();
    SerialWaitSafe();
    TimerVariableSafe();
    ConditionSafe();
    LoopLogicSafe();
    MathButtonSafe();
    ListToneFunctionSafe();
    PumpSafe();
    MapRandomSafe();
    TimeInterruptSafe();
    ExtendedEvery(HeadSafe);
  }

  // ---------------------------------------------------------------------------
  // The fall-back
  // ---------------------------------------------------------------------------

  /** When some rule, basic or extended, accepts the lower-cased line, the text it
      produces is not empty and does not start with `/`. */
  lemma RuleAnswerNotComment(line: string)
    requires FirstMatch(BasicRules, Lower(line)).Some? || FirstMatch(ExtendedRules, Lower(line)).Some?
    ensures SimplifiedToArduino(line).Returned? ==>
      SimplifiedToArduino(line).code != [] && SimplifiedToArduino(line).code[0] != '/'
  {
    var s := Lower(line);
    if FirstMatch(BasicRules, s).Some? {
      BasicSafe();
      DispatchSafe(BasicRules, s, HandleExtendedCommands(s));
    } else {
      ExtendedSafe();
      DispatchSafe(ExtendedRules, s, Returned(UnknownPrefix + s));
    }
  }

  /** The line becomes `// Unknown command: ` followed by the lower-cased line exactly
      when no rule, basic or extended, accepts the lower-cased line. */
  lemma UnknownIffNoRule(line: string)
    ensures SimplifiedToArduino(line) == Returned(UnknownPrefix + Lower(line))
        <==> FirstMatch(BasicRules, Lower(line)) == None && FirstMatch(ExtendedRules, Lower(line)) == None
  {
    var s := Lower(line);
    assert (UnknownPrefix + s)[0] == '/';
    if FirstMatch(BasicRules, s).Some? || FirstMatch(ExtendedRules, s).Some? {
      RuleAnswerNotComment(line);
    }
  }

  // ---------------------------------------------------------------------------
  // Shadowed rules
  // ---------------------------------------------------------------------------

  /** The extended table repeats the basic `turn on pin` and `turn off pin` rules, and
      it is only consulted when no basic rule accepts the line: the repeats never
      accept a line they are tried on. */
  lemma PinRepeatsNeverFire(line: string)
    ensures PinRules[0] == BasicRules[1] && PinRules[1] == BasicRules[2]
    ensures FirstMatch(BasicRules, Lower(line)) == None ==>
      !Hit(PinRules[0], Lower(line)) && !Hit(PinRules[1], Lower(line))
  {
  }
}
