/** Every pattern of the new-project translator's two tables is well formed, so the
    deterministic matcher agrees with the declarative reading of every rule. The few
    shapes the patterns take are proved well formed once, for any texts. For each group
    of rules, `...Texts` lemmas check the group's texts for line feeds, one lemma per rule
    fits its pattern to a shape, and the group is assembled from those; keeping the steps
    apart keeps each proof small. */
module ForwardTables {
  import opened Patterns
  import opened Forward
  import opened ForwardCommands

  /** A rule that is a regular expression has a well-formed pattern. */
  predicate RuleWellFormed(r: Rule)
  {
    r.matcher.Regex? ==> WellFormed(r.matcher.pattern)
  }

  // ---------------------------------------------------------------------------
  // The shapes of the patterns, for any texts
  // ---------------------------------------------------------------------------

  /** The greedy runs the tables capture: `(\d+)` and `(\w+)`. */
  predicate Run(c: Class)
  {
    c == Digits || c == Word
  }

  /** The text `b` starts with a character the run `c` cannot take, so the run stops
      where `b` begins. */
  predicate Ends(c: Class, b: string)
  {
    Run(c) && Delimits(c, [Lit(b)])
  }

  lemma LitCapThen(a: string, c: Class, rest: Pattern)
    requires NoLineFeed(a) && WellFormed(rest) && Run(c)
    requires rest == [] || (rest[0].Lit? && Ends(c, rest[0].text))
    ensures WellFormed([Lit(a), Cap(c)] + rest)
  {
    var p := [Lit(a), Cap(c)] + rest;
    assert p[1..] == [Cap(c)] + rest;
    assert p[1..][1..] == rest;
  }

  lemma ShapeL(a: string)
    requires NoLineFeed(a)
    ensures WellFormed([Lit(a)])
  {
    assert [Lit(a)][1..] == [];
  }

  lemma ShapeLC(a: string, c: Class)
    requires NoLineFeed(a) && Run(c)
    ensures WellFormed([Lit(a), Cap(c)])
  {
    LitCapThen(a, c, []);
    assert [Lit(a), Cap(c)] + [] == [Lit(a), Cap(c)];
  }

  lemma ShapeLCL(a: string, c: Class, b: string)
    requires NoLineFeed(a) && NoLineFeed(b) && Ends(c, b)
    ensures WellFormed([Lit(a), Cap(c), Lit(b)])
  {
    ShapeL(b);
    LitCapThen(a, c, [Lit(b)]);
    assert [Lit(a), Cap(c)] + [Lit(b)] == [Lit(a), Cap(c), Lit(b)];
  }

  lemma ShapeLCLC(a: string, c: Class, b: string, d: Class)
    requires NoLineFeed(a) && NoLineFeed(b) && Ends(c, b) && Run(d)
    ensures WellFormed([Lit(a), Cap(c), Lit(b), Cap(d)])
  {
    ShapeLC(b, d);
    LitCapThen(a, c, [Lit(b), Cap(d)]);
    assert [Lit(a), Cap(c)] + [Lit(b), Cap(d)] == [Lit(a), Cap(c), Lit(b), Cap(d)];
  }

  lemma ShapeCLC(c: Class, b: string, d: Class)
    requires NoLineFeed(b) && Ends(c, b) && Run(d)
    ensures WellFormed([Cap(c), Lit(b), Cap(d)])
  {
    ShapeLC(b, d);
    assert [Cap(c), Lit(b), Cap(d)][1..] == [Lit(b), Cap(d)];
  }

  lemma ShapeLCLCLC(a: string, c: Class, b: string, d: Class, e: string, f: Class)
    requires NoLineFeed(a) && NoLineFeed(b) && NoLineFeed(e)
    requires Ends(c, b) && Ends(d, e) && Run(f)
    ensures WellFormed([Lit(a), Cap(c), Lit(b), Cap(d), Lit(e), Cap(f)])
  {
    ShapeLCLC(b, d, e, f);
    LitCapThen(a, c, [Lit(b), Cap(d), Lit(e), Cap(f)]);
    assert [Lit(a), Cap(c)] + [Lit(b), Cap(d), Lit(e), Cap(f)]
        == [Lit(a), Cap(c), Lit(b), Cap(d), Lit(e), Cap(f)];
  }

  lemma ShapeLCLCL(a: string, c: Class, b: string, d: Class, e: string)
    requires NoLineFeed(a) && NoLineFeed(b) && NoLineFeed(e)
    requires Ends(c, b) && Ends(d, e)
    ensures WellFormed([Lit(a), Cap(c), Lit(b), Cap(d), Lit(e)])
  {
    ShapeLCL(b, d, e);
    LitCapThen(a, c, [Lit(b), Cap(d), Lit(e)]);
    assert [Lit(a), Cap(c)] + [Lit(b), Cap(d), Lit(e)] == [Lit(a), Cap(c), Lit(b), Cap(d), Lit(e)];
  }

  lemma ShapeLCLCLCL(a: string, c: Class, b: string, d: Class, e: string, f: Class, g: string)
    requires NoLineFeed(a) && NoLineFeed(b) && NoLineFeed(e) && NoLineFeed(g)
    requires Ends(c, b) && Ends(d, e) && Ends(f, g)
    ensures WellFormed([Lit(a), Cap(c), Lit(b), Cap(d), Lit(e), Cap(f), Lit(g)])
  {
    ShapeLCLCL(b, d, e, f, g);
    LitCapThen(a, c, [Lit(b), Cap(d), Lit(e), Cap(f), Lit(g)]);
    assert [Lit(a), Cap(c)] + [Lit(b), Cap(d), Lit(e), Cap(f), Lit(g)]
        == [Lit(a), Cap(c), Lit(b), Cap(d), Lit(e), Cap(f), Lit(g)];
  }

  lemma ShapeLCLCLCLC(a: string, c: Class, b: string, d: Class, e: string, f: Class,
                     g: string, h: Class)
    requires NoLineFeed(a) && NoLineFeed(b) && NoLineFeed(e) && NoLineFeed(g)
    requires Ends(c, b) && Ends(d, e) && Ends(f, g) && Run(h)
    ensures WellFormed([Lit(a), Cap(c), Lit(b), Cap(d), Lit(e), Cap(f), Lit(g), Cap(h)])
  {
    ShapeLCLCLC(b, d, e, f, g, h);
    LitCapThen(a, c, [Lit(b), Cap(d), Lit(e), Cap(f), Lit(g), Cap(h)]);
    assert [Lit(a), Cap(c)] + [Lit(b), Cap(d), Lit(e), Cap(f), Lit(g), Cap(h)]
        == [Lit(a), Cap(c), Lit(b), Cap(d), Lit(e), Cap(f), Lit(g), Cap(h)];
  }

  lemma ShapeLCLCLCLCLC(a: string, c: Class, b: string, d: Class, e: string, f: Class,
                        g: string, h: Class, i: string, j: Class)
    requires NoLineFeed(a) && NoLineFeed(b) && NoLineFeed(e) && NoLineFeed(g) && NoLineFeed(i)
    requires Ends(c, b) && Ends(d, e) && Ends(f, g) && Ends(h, i) && Run(j)
    ensures WellFormed([Lit(a), Cap(c), Lit(b), Cap(d), Lit(e), Cap(f), Lit(g), Cap(h), Lit(i), Cap(j)])
  {
    var p := [Lit(a), Cap(c), Lit(b), Cap(d), Lit(e), Cap(f), Lit(g), Cap(h), Lit(i), Cap(j)];
    ShapeLCLCLCLC(b, d, e, f, g, h, i, j);
    assert p[1..][1..] == [Lit(b), Cap(d), Lit(e), Cap(f), Lit(g), Cap(h), Lit(i), Cap(j)];
  }

  // ---------------------------------------------------------------------------
  // The patterns the source tries in `SimplifiedToArduino` itself
  // ---------------------------------------------------------------------------

  lemma BasicTexts0()
    ensures NoLineFeed("set pin ") && NoLineFeed(" to output") && NoLineFeed(" to input")
  {
  }

  lemma BasicTexts1()
    ensures NoLineFeed("read digital pin ")
  {
  }

  lemma Basic0WellFormed()
    ensures RuleWellFormed(BasicRules[0])
  {
    SayWellFormed();
  }

  lemma Basic1WellFormed()
    ensures RuleWellFormed(BasicRules[1])
  {
    TurnOnPinWellFormed();
  }

  lemma Basic2WellFormed()
    ensures RuleWellFormed(BasicRules[2])
  {
    TurnOffPinWellFormed();
  }

  lemma Basic3WellFormed()
    ensures RuleWellFormed(BasicRules[3])
  {
    BasicTexts0();
    ShapeLCL("set pin ", Digits, " to output");
  }

  lemma Basic4WellFormed()
    ensures RuleWellFormed(BasicRules[4])
  {
    BasicTexts0();
    ShapeLCL("set pin ", Digits, " to input");
  }

  lemma Basic5WellFormed()
    ensures RuleWellFormed(BasicRules[5])
  {
    WaitSecondsWellFormed();
  }

  lemma Basic6WellFormed()
    ensures RuleWellFormed(BasicRules[6])
  {
    WaitMillisecondsWellFormed();
  }

  lemma Basic7WellFormed()
    ensures RuleWellFormed(BasicRules[7])
  {
    AnalogWritePinWellFormed();
  }

  lemma Basic8WellFormed()
    ensures RuleWellFormed(BasicRules[8])
  {
    ReadAnalogPinWellFormed();
  }

  lemma Basic9WellFormed()
    ensures RuleWellFormed(BasicRules[9])
  {
    BasicTexts1();
    ShapeLC("read digital pin ", Digits);
  }

  lemma Basic10WellFormed()
    ensures RuleWellFormed(BasicRules[10])
  {
    IfPinWellFormed();
  }

  lemma BasicLowWellFormed()
    ensures EveryFrom(BasicRules, 0, 6, RuleWellFormed)
  {
    Basic0WellFormed();
    Basic1WellFormed();
    Basic2WellFormed();
    Basic3WellFormed();
    Basic4WellFormed();
    Basic5WellFormed();
  }

  lemma BasicHighWellFormed()
    ensures EveryFrom(BasicRules, 6, 11, RuleWellFormed)
  {
    Basic6WellFormed();
    Basic7WellFormed();
    Basic8WellFormed();
    Basic9WellFormed();
    Basic10WellFormed();
  }

  lemma BasicWellFormed()
    ensures Every(BasicRules, RuleWellFormed)
  {
    BasicLowWellFormed();
    BasicHighWellFormed();
    EveryFromAll(BasicRules, 0, 6, RuleWellFormed);
    EveryFromAll(BasicRules, 6, 11, RuleWellFormed);
  }

  // ---------------------------------------------------------------------------
  // The patterns of `HandleExtendedCommands`, group by group
  // ---------------------------------------------------------------------------

  lemma ServoTexts0()
    ensures NoLineFeed("create servo called ") && NoLineFeed("attach ") && NoLineFeed(" to pin ")
  {
  }

  lemma ServoTexts1()
    ensures NoLineFeed("move ") && NoLineFeed(" to ")
  {
  }

  lemma Servo1WellFormed()
    ensures RuleWellFormed(ServoRules[1])
  {
    ServoTexts0();
    ShapeLC("create servo called ", Word);
  }

  lemma Servo2WellFormed()
    ensures RuleWellFormed(ServoRules[2])
  {
    ServoTexts0();
    ShapeLCLC("attach ", Word, " to pin ", Digits);
  }

  lemma Servo3WellFormed()
    ensures RuleWellFormed(ServoRules[3])
  {
    ServoTexts1();
    ShapeLCLC("move ", Word, " to ", Digits);
  }

  lemma ServoWellFormed()
    ensures Every(ServoRules, RuleWellFormed)
  {
    Servo1WellFormed();
    Servo2WellFormed();
    Servo3WellFormed();
    assert EveryFrom(ServoRules, 0, 4, RuleWellFormed);
    EveryFromAll(ServoRules, 0, 4, RuleWellFormed);
  }

  lemma PinTexts0()
    ensures NoLineFeed("turn on pin ") && NoLineFeed("turn off pin ") && NoLineFeed("set pin ")
  {
  }

  lemma PinTexts1()
    ensures NoLineFeed(" as input") && NoLineFeed(" as input pullup") && NoLineFeed(" as output")
  {
  }

  lemma PinTexts2()
    ensures NoLineFeed("read analog from pin ")
  {
  }

  lemma Pin0WellFormed()
    ensures RuleWellFormed(PinRules[0])
  {
    PinTexts0();
    ShapeLC("turn on pin ", Digits);
  }

  lemma Pin1WellFormed()
    ensures RuleWellFormed(PinRules[1])
  {
    PinTexts0();
    ShapeLC("turn off pin ", Digits);
  }

  lemma Pin2WellFormed()
    ensures RuleWellFormed(PinRules[2])
  {
    ToggleWellFormed();
  }

  lemma Pin3WellFormed()
    ensures RuleWellFormed(PinRules[3])
  {
    PinTexts0();
    PinTexts1();
    ShapeLCL("set pin ", Digits, " as input");
  }

  lemma Pin4WellFormed()
    ensures RuleWellFormed(PinRules[4])
  {
    PinTexts0();
    PinTexts1();
    ShapeLCL("set pin ", Digits, " as input pullup");
  }

  lemma Pin5WellFormed()
    ensures RuleWellFormed(PinRules[5])
  {
    PinTexts0();
    PinTexts1();
    ShapeLCL("set pin ", Digits, " as output");
  }

  lemma Pin6WellFormed()
    ensures RuleWellFormed(PinRules[6])
  {
    PinTexts2();
    ShapeLC("read analog from pin ", Digits);
  }

  lemma Pin7WellFormed()
    ensures RuleWellFormed(PinRules[7])
  {
    WriteAnalogWellFormed();
  }

  lemma PinLowWellFormed()
    ensures EveryFrom(PinRules, 0, 4, RuleWellFormed)
  {
    Pin0WellFormed();
    Pin1WellFormed();
    Pin2WellFormed();
    Pin3WellFormed();
  }

  lemma PinHighWellFormed()
    ensures EveryFrom(PinRules, 4, 8, RuleWellFormed)
  {
    Pin4WellFormed();
    Pin5WellFormed();
    Pin6WellFormed();
    Pin7WellFormed();
  }

  lemma PinWellFormed()
    ensures Every(PinRules, RuleWellFormed)
  {
    PinLowWellFormed();
    PinHighWellFormed();
    EveryFromAll(PinRules, 0, 4, RuleWellFormed);
    EveryFromAll(PinRules, 4, 8, RuleWellFormed);
  }

  lemma SerialWaitTexts()
    ensures NoLineFeed("start serial at ") && NoLineFeed("print line ")
  {
  }

  lemma SerialWait0WellFormed()
    ensures RuleWellFormed(SerialWaitRules[0])
  {
    SerialWaitTexts();
    ShapeLC("start serial at ", Digits);
  }

  lemma SerialWait1WellFormed()
    ensures RuleWellFormed(SerialWaitRules[1])
  {
    PrintLineQuotedWellFormed();
  }

  lemma SerialWait2WellFormed()
    ensures RuleWellFormed(SerialWaitRules[2])
  {
    SerialWaitTexts();
    ShapeLC("print line ", Word);
  }

  lemma SerialWait3WellFormed()
    ensures RuleWellFormed(SerialWaitRules[3])
  {
    BareWaitWellFormed();
  }

  lemma SerialWait4WellFormed()
    ensures RuleWellFormed(SerialWaitRules[4])
  {
    WaitForSecondsWellFormed();
  }

  lemma SerialWaitLowWellFormed()
    ensures EveryFrom(SerialWaitRules, 0, 3, RuleWellFormed)
  {
    SerialWait0WellFormed();
    SerialWait1WellFormed();
    SerialWait2WellFormed();
  }

  lemma SerialWaitHighWellFormed()
    ensures EveryFrom(SerialWaitRules, 3, 5, RuleWellFormed)
  {
    SerialWait3WellFormed();
    SerialWait4WellFormed();
  }

  lemma SerialWaitWellFormed()
    ensures Every(SerialWaitRules, RuleWellFormed)
  {
    SerialWaitLowWellFormed();
    SerialWaitHighWellFormed();
    EveryFromAll(SerialWaitRules, 0, 3, RuleWellFormed);
    EveryFromAll(SerialWaitRules, 3, 5, RuleWellFormed);
  }

  lemma TimerVariableTexts0()
    ensures NoLineFeed("set timer to current millis")
  {
  }

  lemma TimerVariableTexts1()
    ensures NoLineFeed("if millis minus timer is greater than ")
  {
  }

  lemma TimerVariableTexts2()
    ensures NoLineFeed("set ") && NoLineFeed(" to ") && NoLineFeed("change ")
    ensures NoLineFeed(" by ")
  {
  }

  lemma TimerVariable0WellFormed()
    ensures RuleWellFormed(TimerVariableRules[0])
  {
    TimerVariableTexts0();
    ShapeL("set timer to current millis");
  }

  lemma TimerVariable1WellFormed()
    ensures RuleWellFormed(TimerVariableRules[1])
  {
    TimerVariableTexts1();
    ShapeLC("if millis minus timer is greater than ", Digits);
  }

  lemma TimerVariable2WellFormed()
    ensures RuleWellFormed(TimerVariableRules[2])
  {
    TimerVariableTexts2();
    ShapeLCLC("set ", Word, " to ", Digits);
  }

  lemma TimerVariable3WellFormed()
    ensures RuleWellFormed(TimerVariableRules[3])
  {
    TimerVariableTexts2();
    ShapeLCLC("change ", Word, " by ", Digits);
  }

  lemma TimerVariableWellFormed()
    ensures Every(TimerVariableRules, RuleWellFormed)
  {
    TimerVariable0WellFormed();
    TimerVariable1WellFormed();
    TimerVariable2WellFormed();
    TimerVariable3WellFormed();
    assert EveryFrom(TimerVariableRules, 0, 4, RuleWellFormed);
    EveryFromAll(TimerVariableRules, 0, 4, RuleWellFormed);
  }

  lemma ConditionTexts0()
    ensures NoLineFeed("if ") && NoLineFeed(" is equal to ") && NoLineFeed(" is greater than ")
  {
  }

  lemma ConditionTexts1()
    ensures NoLineFeed(" is less than ") && NoLineFeed("else") && NoLineFeed("end")
  {
  }

  lemma Condition0WellFormed()
    ensures RuleWellFormed(ConditionRules[0])
  {
    ConditionTexts0();
    ShapeLCLC("if ", Word, " is equal to ", Digits);
  }

  lemma Condition1WellFormed()
    ensures RuleWellFormed(ConditionRules[1])
  {
    ConditionTexts0();
    ShapeLCLC("if ", Word, " is greater than ", Digits);
  }

  lemma Condition2WellFormed()
    ensures RuleWellFormed(ConditionRules[2])
  {
    ConditionTexts0();
    ConditionTexts1();
    ShapeLCLC("if ", Word, " is less than ", Digits);
  }

  lemma Condition3WellFormed()
    ensures RuleWellFormed(ConditionRules[3])
  {
    ConditionTexts1();
    ShapeL("else");
  }

  lemma Condition4WellFormed()
    ensures RuleWellFormed(ConditionRules[4])
  {
    ConditionTexts1();
    ShapeL("end");
  }

  lemma ConditionLowWellFormed()
    ensures EveryFrom(ConditionRules, 0, 3, RuleWellFormed)
  {
    Condition0WellFormed();
    Condition1WellFormed();
    Condition2WellFormed();
  }

  lemma ConditionHighWellFormed()
    ensures EveryFrom(ConditionRules, 3, 5, RuleWellFormed)
  {
    Condition3WellFormed();
    Condition4WellFormed();
  }

  lemma ConditionWellFormed()
    ensures Every(ConditionRules, RuleWellFormed)
  {
    ConditionLowWellFormed();
    ConditionHighWellFormed();
    EveryFromAll(ConditionRules, 0, 3, RuleWellFormed);
    EveryFromAll(ConditionRules, 3, 5, RuleWellFormed);
  }

  lemma LoopLogicTexts()
    ensures NoLineFeed("repeat ") && NoLineFeed(" times") && NoLineFeed("forever")
    ensures NoLineFeed(" and ") && NoLineFeed(" or ") && NoLineFeed("not ")
  {
  }

  lemma LoopLogic0WellFormed()
    ensures RuleWellFormed(LoopLogicRules[0])
  {
    LoopLogicTexts();
    ShapeLCL("repeat ", Digits, " times");
  }

  lemma LoopLogic1WellFormed()
    ensures RuleWellFormed(LoopLogicRules[1])
  {
    LoopLogicTexts();
    ShapeL("forever");
  }

  lemma LoopLogic2WellFormed()
    ensures RuleWellFormed(LoopLogicRules[2])
  {
    LoopLogicTexts();
    ShapeCLC(Word, " and ", Word);
  }

  lemma LoopLogic3WellFormed()
    ensures RuleWellFormed(LoopLogicRules[3])
  {
    LoopLogicTexts();
    ShapeCLC(Word, " or ", Word);
  }

  lemma LoopLogic4WellFormed()
    ensures RuleWellFormed(LoopLogicRules[4])
  {
    LoopLogicTexts();
    ShapeLC("not ", Word);
  }

  lemma LoopLogicLowWellFormed()
    ensures EveryFrom(LoopLogicRules, 0, 3, RuleWellFormed)
  {
    LoopLogic0WellFormed();
    LoopLogic1WellFormed();
    LoopLogic2WellFormed();
  }

  lemma LoopLogicHighWellFormed()
    ensures EveryFrom(LoopLogicRules, 3, 5, RuleWellFormed)
  {
    LoopLogic3WellFormed();
    LoopLogic4WellFormed();
  }

  lemma LoopLogicWellFormed()
    ensures Every(LoopLogicRules, RuleWellFormed)
  {
    LoopLogicLowWellFormed();
    LoopLogicHighWellFormed();
    EveryFromAll(LoopLogicRules, 0, 3, RuleWellFormed);
    EveryFromAll(LoopLogicRules, 3, 5, RuleWellFormed);
  }

  lemma MathButtonTexts0()
    ensures NoLineFeed("absolute of ") && NoLineFeed("square root of ")
  {
  }

  lemma MathButtonTexts1()
    ensures NoLineFeed("read button on pin ")
  {
  }

  lemma MathButtonTexts2()
    ensures NoLineFeed("while button on pin ") && NoLineFeed(" is pressed")
  {
  }

  lemma MathButton0WellFormed()
    ensures RuleWellFormed(MathButtonRules[0])
  {
    MathButtonTexts0();
    ShapeLC("absolute of ", Word);
  }

  lemma MathButton1WellFormed()
    ensures RuleWellFormed(MathButtonRules[1])
  {
    MathButtonTexts0();
    ShapeLC("square root of ", Word);
  }

  lemma MathButton2WellFormed()
    ensures RuleWellFormed(MathButtonRules[2])
  {
    MathButtonTexts1();
    ShapeLC("read button on pin ", Digits);
  }

  lemma MathButton3WellFormed()
    ensures RuleWellFormed(MathButtonRules[3])
  {
    MathButtonTexts2();
    ShapeLCL("while button on pin ", Digits, " is pressed");
  }

  lemma MathButtonWellFormed()
    ensures Every(MathButtonRules, RuleWellFormed)
  {
    MathButton0WellFormed();
    MathButton1WellFormed();
    MathButton2WellFormed();
    MathButton3WellFormed();
    assert EveryFrom(MathButtonRules, 0, 4, RuleWellFormed);
    EveryFromAll(MathButtonRules, 0, 4, RuleWellFormed);
  }

  lemma ListToneFunctionTexts0()
    ensures NoLineFeed("create list ") && NoLineFeed(" with size ") && NoLineFeed("set ")
    ensures NoLineFeed("[") && NoLineFeed("] to ")
  {
  }

  lemma ListToneFunctionTexts1()
    ensures NoLineFeed("play tone on pin ") && NoLineFeed(" at ") && NoLineFeed(" hz for ")
    ensures NoLineFeed(" ms")
  {
  }

  lemma ListToneFunctionTexts2()
    ensures NoLineFeed("define function ") && NoLineFeed("call ")
  {
  }

  lemma ListToneFunction0WellFormed()
    ensures RuleWellFormed(ListToneFunctionRules[0])
  {
    ListToneFunctionTexts0();
    ShapeLCLC("create list ", Word, " with size ", Digits);
  }

  lemma ListToneFunction1WellFormed()
    ensures RuleWellFormed(ListToneFunctionRules[1])
  {
    ListToneFunctionTexts0();
    ShapeLCLCLC("set ", Word, "[", Digits, "] to ", Digits);
  }

  lemma ListToneFunction2WellFormed()
    ensures RuleWellFormed(ListToneFunctionRules[2])
  {
    ListToneFunctionTexts1();
    ShapeLCLCLCL("play tone on pin ", Digits, " at ", Digits, " hz for ", Digits, " ms");
  }

  lemma ListToneFunction3WellFormed()
    ensures RuleWellFormed(ListToneFunctionRules[3])
  {
    ListToneFunctionTexts2();
    ShapeLC("define function ", Word);
  }

  lemma ListToneFunction4WellFormed()
    ensures RuleWellFormed(ListToneFunctionRules[4])
  {
    ListToneFunctionTexts2();
    ShapeLC("call ", Word);
  }

  lemma ListToneFunctionLowWellFormed()
    ensures EveryFrom(ListToneFunctionRules, 0, 3, RuleWellFormed)
  {
    ListToneFunction0WellFormed();
    ListToneFunction1WellFormed();
    ListToneFunction2WellFormed();
  }

  lemma ListToneFunctionHighWellFormed()
    ensures EveryFrom(ListToneFunctionRules, 3, 5, RuleWellFormed)
  {
    ListToneFunction3WellFormed();
    ListToneFunction4WellFormed();
  }

  lemma ListToneFunctionWellFormed()
    ensures Every(ListToneFunctionRules, RuleWellFormed)
  {
    ListToneFunctionLowWellFormed();
    ListToneFunctionHighWellFormed();
    EveryFromAll(ListToneFunctionRules, 0, 3, RuleWellFormed);
    EveryFromAll(ListToneFunctionRules, 3, 5, RuleWellFormed);
  }

  lemma PumpTexts0()
    ensures NoLineFeed("set pin ") && NoLineFeed(" as pump output")
  {
  }

  lemma PumpTexts1()
    ensures NoLineFeed("turn on hydropump at pin ")
  {
  }

  lemma PumpTexts2()
    ensures NoLineFeed("turn off hydropump at pin ")
  {
  }

  lemma Pump0WellFormed()
    ensures RuleWellFormed(PumpRules[0])
  {
    PumpTexts0();
    ShapeLCL("set pin ", Digits, " as pump output");
  }

  lemma Pump1WellFormed()
    ensures RuleWellFormed(PumpRules[1])
  {
    PumpTexts1();
    ShapeLC("turn on hydropump at pin ", Digits);
  }

  lemma Pump2WellFormed()
    ensures RuleWellFormed(PumpRules[2])
  {
    PumpTexts2();
    ShapeLC("turn off hydropump at pin ", Digits);
  }

  lemma PumpWellFormed()
    ensures Every(PumpRules, RuleWellFormed)
  {
    Pump0WellFormed();
    Pump1WellFormed();
    Pump2WellFormed();
    assert EveryFrom(PumpRules, 0, 3, RuleWellFormed);
    EveryFromAll(PumpRules, 0, 3, RuleWellFormed);
  }

  lemma MapRandomTexts0()
    ensures NoLineFeed("map ") && NoLineFeed(" from ") && NoLineFeed("-")
    ensures NoLineFeed(" to ")
  {
  }

  lemma MapRandomTexts1()
    ensures NoLineFeed("random number between ") && NoLineFeed(" and ")
  {
  }

  lemma MapRandom0WellFormed()
    ensures RuleWellFormed(MapRandomRules[0])
  {
    MapRandomTexts0();
    ShapeLCLCLCLCLC("map ", Word, " from ", Digits, "-", Digits, " to ", Digits, "-", Digits);
  }

  lemma MapRandom1WellFormed()
    ensures RuleWellFormed(MapRandomRules[1])
  {
    MapRandomTexts1();
    ShapeLCLC("random number between ", Digits, " and ", Digits);
  }

  lemma MapRandomWellFormed()
    ensures Every(MapRandomRules, RuleWellFormed)
  {
    MapRandom0WellFormed();
    MapRandom1WellFormed();
    assert EveryFrom(MapRandomRules, 0, 2, RuleWellFormed);
    EveryFromAll(MapRandomRules, 0, 2, RuleWellFormed);
  }

  lemma TimeInterruptTexts0()
    ensures NoLineFeed("if time passed is more than ") && NoLineFeed("ms")
  {
  }

  lemma TimeInterruptTexts1()
    ensures NoLineFeed("current time in milliseconds")
  {
  }

  lemma TimeInterruptTexts2()
    ensures NoLineFeed("stop interrupts") && NoLineFeed("start interrupts")
  {
  }

  lemma TimeInterrupt0WellFormed()
    ensures RuleWellFormed(TimeInterruptRules[0])
  {
    TimeInterruptTexts0();
    ShapeLCL("if time passed is more than ", Digits, "ms");
  }

  lemma TimeInterrupt1WellFormed()
    ensures RuleWellFormed(TimeInterruptRules[1])
  {
    TimeInterruptTexts1();
    ShapeL("current time in milliseconds");
  }

  lemma TimeInterrupt2WellFormed()
    ensures RuleWellFormed(TimeInterruptRules[2])
  {
    TimeInterruptTexts2();
    ShapeL("stop interrupts");
  }

  lemma TimeInterrupt3WellFormed()
    ensures RuleWellFormed(TimeInterruptRules[3])
  {
    TimeInterruptTexts2();
    ShapeL("start interrupts");
  }

  lemma TimeInterruptWellFormed()
    ensures Every(TimeInterruptRules, RuleWellFormed)
  {
    TimeInterrupt0WellFormed();
    TimeInterrupt1WellFormed();
    TimeInterrupt2WellFormed();
    TimeInterrupt3WellFormed();
    assert EveryFrom(TimeInterruptRules, 0, 4, RuleWellFormed);
    EveryFromAll(TimeInterruptRules, 0, 4, RuleWellFormed);
  }

  lemma ExtendedWellFormed()
    ensures Every(ExtendedRules, RuleWellFormed)
  {
    ServoWellFormed();
    PinWellFormed();
    SerialWaitWellFormed();
    TimerVariableWellFormed();
    ConditionWellFormed();
    LoopLogicWellFormed();
    MathButtonWellFormed();
    ListToneFunctionWellFormed();
    PumpWellFormed();
    MapRandomWellFormed();
    TimeInterruptWellFormed();
    ExtendedEvery(RuleWellFormed);
  }

  /** In a table whose rules are all well formed, the matcher accepts a line with given
      captures exactly when the rule's pattern spells the line (or the line but a final
      line feed, which .NET's `$` lets through). */
  lemma RuleCaptures(rules: seq<Rule>, k: nat, line: string, caps: seq<string>)
    requires Every(rules, RuleWellFormed)
    requires k < |rules| && rules[k].matcher.Regex?
    ensures Captures(rules[k].matcher, line) == Some(caps) <==>
      (Spells(rules[k].matcher.pattern, line, caps)
       || (line != [] && line[|line| - 1] == '\n'
           && Spells(rules[k].matcher.pattern, line[..|line| - 1], caps)))
  {
    assert RuleWellFormed(rules[k]);
    AnchoredMatchSpells(rules[k].matcher.pattern, line, caps);
  }

  /** Every rule of both tables is read as its pattern says. */
  lemma TablesWellFormed()
    ensures Every(BasicRules, RuleWellFormed) && Every(ExtendedRules, RuleWellFormed)
  {
    BasicWellFormed();
    ExtendedWellFormed();
  }
}
