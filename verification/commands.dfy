/** What the new-project translator emits for the commands whose output is worth
    pinning down. Each command has three lemmas: which rule of its table answers the line
    (for any fall-through value), what that rule's template renders, and, combining the
    two, what `SimplifiedToArduino` returns for every casing of the line and every value
    of its parameters. */
module ForwardCommands {
  import opened Text
  import opened Patterns
  import opened Forward

  // ---------------------------------------------------------------------------
  // Commands answered by the basic rules
  // ---------------------------------------------------------------------------

  lemma SayWellFormed()
    ensures BasicRules[0].matcher.Regex? && WellFormed(BasicRules[0].matcher.pattern)
  {
    assert BasicRules[0].matcher.pattern == [Lit("say \""), Cap(AnyStar), Lit("\"")];
  }

  lemma SaySpelled(s: string, t: string)
    requires NoLineFeed(t) && s == "say \"" + t + "\""
    ensures BasicRules[0].matcher.Regex?
    ensures Spells(BasicRules[0].matcher.pattern, s, [t])
  {
    assert BasicRules[0].matcher.pattern == [Lit("say \""), Cap(AnyStar), Lit("\"")];
    SpellsLitCapLit("say \"", AnyStar, t, "\"");
  }

  lemma SayMatch(s: string, t: string, otherwise: Outcome)
    requires NoLineFeed(t) && s == "say \"" + t + "\""
    ensures Dispatch(BasicRules, s, otherwise) == Render(BasicRules[0].template, [t])
  {
    SayWellFormed();
    SaySpelled(s, t);
    Selects(BasicRules, 0, s, [t], otherwise);
  }

  lemma SayRender(t: string)
    ensures Render(BasicRules[0].template, [t]) == Returned("Serial.println(\"" + EscapeQuotes(t) + "\");")
  {
    assert BasicRules[0].template == [Verbatim("Serial.println(\""), GroupEscaped(1), Verbatim("\");")];
    Render3(Verbatim("Serial.println(\""), GroupEscaped(1), Verbatim("\");"), [t]);
  }

  /** `say "..."` prints the text, lower-cased like the rest of the line, with every `"`
      escaped as `\"`. */
  lemma Say(line: string, t: string)
    requires NoLineFeed(t) && Lower(line) == "say \"" + t + "\""
    ensures SimplifiedToArduino(line) == Returned("Serial.println(\"" + EscapeQuotes(t) + "\");")
  {
    var s := Lower(line);
    SayMatch(s, t, HandleExtendedCommands(s));
    SayRender(t);
  }

  lemma TurnOnPinWellFormed()
    ensures BasicRules[1].matcher.Regex? && WellFormed(BasicRules[1].matcher.pattern)
  {
    assert BasicRules[1].matcher.pattern == [Lit("turn on pin "), Cap(Digits)];
  }

  lemma TurnOnPinSpelled(s: string, n: string)
    requires IsNumeral(n) && s == "turn on pin " + n
    ensures BasicRules[1].matcher.Regex?
    ensures Spells(BasicRules[1].matcher.pattern, s, [n])
  {
    assert BasicRules[1].matcher.pattern == [Lit("turn on pin "), Cap(Digits)];
    SpellsLitCap("turn on pin ", Digits, n);
  }

  /** No line starting with `tu` is accepted by rule 0 of `BasicRules`. */
  lemma TurnOnPinSkipsBasic(s: string)
    requires "tu" <= s
    ensures forall j :: 0 <= j < 1 ==> !Hit(BasicRules[j], s)
  {
    ExcludedMisses(BasicRules, 0, 1, "tu", s);
  }

  lemma TurnOnPinMatch(s: string, n: string, otherwise: Outcome)
    requires IsNumeral(n) && s == "turn on pin " + n
    ensures Dispatch(BasicRules, s, otherwise) == Render(BasicRules[1].template, [n])
  {
    TurnOnPinWellFormed();
    TurnOnPinSpelled(s, n);
    TurnOnPinSkipsBasic(s);
    Selects(BasicRules, 1, s, [n], otherwise);
  }

  lemma TurnOnPinRender(n: string)
    requires IsNumeral(n)
    ensures Render(BasicRules[1].template, [n]) == Returned("digitalWrite(" + n + ", HIGH);")
  {
    assert BasicRules[1].template == [Verbatim("digitalWrite("), Group(1), Verbatim(", HIGH);")];
    Render3(Verbatim("digitalWrite("), Group(1), Verbatim(", HIGH);"), [n]);
  }

  /** `turn on pin N` drives the pin high. */
  lemma TurnOnPin(line: string, n: string)
    requires IsNumeral(n) && Lower(line) == "turn on pin " + n
    ensures SimplifiedToArduino(line) == Returned("digitalWrite(" + n + ", HIGH);")
  {
    var s := Lower(line);
    TurnOnPinMatch(s, n, HandleExtendedCommands(s));
    TurnOnPinRender(n);
  }

  lemma TurnOffPinWellFormed()
    ensures BasicRules[2].matcher.Regex? && WellFormed(BasicRules[2].matcher.pattern)
  {
    assert BasicRules[2].matcher.pattern == [Lit("turn off pin "), Cap(Digits)];
  }

  lemma TurnOffPinSpelled(s: string, n: string)
    requires IsNumeral(n) && s == "turn off pin " + n
    ensures BasicRules[2].matcher.Regex?
    ensures Spells(BasicRules[2].matcher.pattern, s, [n])
  {
    assert BasicRules[2].matcher.pattern == [Lit("turn off pin "), Cap(Digits)];
    SpellsLitCap("turn off pin ", Digits, n);
  }

  /** No line starting with `turn of` is accepted by rules 0 to 1 of `BasicRules`. */
  lemma TurnOffPinSkipsBasic(s: string)
    requires "turn of" <= s
    ensures forall j :: 0 <= j < 2 ==> !Hit(BasicRules[j], s)
  {
    ExcludedMisses(BasicRules, 0, 2, "turn of", s);
  }

  lemma TurnOffPinMatch(s: string, n: string, otherwise: Outcome)
    requires IsNumeral(n) && s == "turn off pin " + n
    ensures Dispatch(BasicRules, s, otherwise) == Render(BasicRules[2].template, [n])
  {
    TurnOffPinWellFormed();
    TurnOffPinSpelled(s, n);
    TurnOffPinSkipsBasic(s);
    Selects(BasicRules, 2, s, [n], otherwise);
  }

  lemma TurnOffPinRender(n: string)
    requires IsNumeral(n)
    ensures Render(BasicRules[2].template, [n]) == Returned("digitalWrite(" + n + ", LOW);")
  {
    assert BasicRules[2].template == [Verbatim("digitalWrite("), Group(1), Verbatim(", LOW);")];
    Render3(Verbatim("digitalWrite("), Group(1), Verbatim(", LOW);"), [n]);
  }

  /** `turn off pin N` drives the pin low. */
  lemma TurnOffPin(line: string, n: string)
    requires IsNumeral(n) && Lower(line) == "turn off pin " + n
    ensures SimplifiedToArduino(line) == Returned("digitalWrite(" + n + ", LOW);")
  {
    var s := Lower(line);
    TurnOffPinMatch(s, n, HandleExtendedCommands(s));
    TurnOffPinRender(n);
  }

  lemma WaitSecondsRender(n: string)
    requires IsNumeral(n)
    ensures NumeralValue(n) <= Int32Max ==>
      Render(BasicRules[5].template, [n]) == Returned("delay(" + IntToString(Wrap32(NumeralValue(n) * 1000)) + ");")
    ensures NumeralValue(n) > Int32Max ==> Render(BasicRules[5].template, [n]) == OverflowThrown
  {
    assert BasicRules[5].template == [Verbatim("delay("), GroupMillis(1), Verbatim(");")];
    Render3(Verbatim("delay("), GroupMillis(1), Verbatim(");"), [n]);
    assert GroupValue([n], 1) == n;
    assert RenderChunk(GroupMillis(1), [n]) == Millis(n);
  }

  /** No line starting with `wai` is accepted by rules 0 to 4 of `BasicRules`. */
  lemma WaitSecondsSkipsBasic(s: string)
    requires "wai" <= s
    ensures forall j :: 0 <= j < 5 ==> !Hit(BasicRules[j], s)
  {
    ExcludedMisses(BasicRules, 0, 5, "wai", s);
  }

  lemma WaitSecondsWellFormed()
    ensures BasicRules[5].matcher.Regex? && WellFormed(BasicRules[5].matcher.pattern)
  {
    assert BasicRules[5].matcher.pattern == [Lit("wait "), Cap(Digits), Lit(" second"), Opt("s")];
  }

  lemma WaitSecondsSpelled(s: string, n: string, plural: bool)
    requires IsNumeral(n) && s == "wait " + n + " second" + (if plural then "s" else "")
    ensures BasicRules[5].matcher.Regex?
    ensures Spells(BasicRules[5].matcher.pattern, s, [n])
  {
    assert BasicRules[5].matcher.pattern == [Lit("wait "), Cap(Digits), Lit(" second"), Opt("s")];
    SpellsLitCapLitOpt("wait ", Digits, n, " second", "s", plural);
  }

  lemma WaitSecondsMatch(s: string, n: string, plural: bool, otherwise: Outcome)
    requires IsNumeral(n) && s == "wait " + n + " second" + (if plural then "s" else "")
    ensures Dispatch(BasicRules, s, otherwise) == Render(BasicRules[5].template, [n])
  {
    WaitSecondsWellFormed();
    WaitSecondsSpelled(s, n, plural);
    WaitSecondsSkipsBasic(s);
    Selects(BasicRules, 5, s, [n], otherwise);
  }

  /** `wait N second(s)` emits a delay of N * 1000 computed in unchecked 32-bit
      arithmetic; a numeral above `int.MaxValue` makes `int.Parse` throw. */
  lemma WaitSeconds(line: string, n: string, plural: bool)
    requires IsNumeral(n) && Lower(line) == "wait " + n + " second" + (if plural then "s" else "")
    ensures NumeralValue(n) <= Int32Max ==>
      SimplifiedToArduino(line) == Returned("delay(" + IntToString(Wrap32(NumeralValue(n) * 1000)) + ");")
    ensures NumeralValue(n) > Int32Max ==> SimplifiedToArduino(line) == OverflowThrown
  {
    var s := Lower(line);
    WaitSecondsMatch(s, n, plural, HandleExtendedCommands(s));
    WaitSecondsRender(n);
  }

  /** Up to 2147483 seconds the delay is exactly N * 1000 milliseconds. */
  lemma WaitSecondsExact(line: string, n: string, plural: bool)
    requires IsNumeral(n) && Lower(line) == "wait " + n + " second" + (if plural then "s" else "")
    requires NumeralValue(n) * 1000 <= Int32Max
    ensures SimplifiedToArduino(line) == Returned("delay(" + NatToString(NumeralValue(n) * 1000) + ");")
  {
    WaitSeconds(line, n, plural);
  }

  /** The emitted delay is N * 1000 exactly when N * 1000 fits in an `int`; from
      2147484 seconds on, the product wraps. */
  lemma WaitSecondsExactIffFits(line: string, n: string, plural: bool)
    requires IsNumeral(n) && Lower(line) == "wait " + n + " second" + (if plural then "s" else "")
    requires NumeralValue(n) <= Int32Max
    ensures SimplifiedToArduino(line) == Returned("delay(" + IntToString(NumeralValue(n) * 1000) + ");")
        <==> NumeralValue(n) * 1000 <= Int32Max
  {
    var v := NumeralValue(n) * 1000;
    WaitSeconds(line, n, plural);
    if SimplifiedToArduino(line) == Returned("delay(" + IntToString(v) + ");") {
      BetweenCancels("delay(", IntToString(Wrap32(v)), IntToString(v), ");");
      IntToStringInjective(Wrap32(v), v);
    }
  }

  lemma WaitMillisecondsWellFormed()
    ensures BasicRules[6].matcher.Regex? && WellFormed(BasicRules[6].matcher.pattern)
  {
    assert BasicRules[6].matcher.pattern == [Lit("wait "), Cap(Digits), Lit(" millisecond"), Opt("s")];
  }

  lemma WaitMillisecondsSpelled(s: string, n: string, plural: bool)
    requires IsNumeral(n) && s == "wait " + n + " millisecond" + (if plural then "s" else "")
    ensures BasicRules[6].matcher.Regex?
    ensures Spells(BasicRules[6].matcher.pattern, s, [n])
  {
    assert BasicRules[6].matcher.pattern == [Lit("wait "), Cap(Digits), Lit(" millisecond"), Opt("s")];
    SpellsLitCapLitOpt("wait ", Digits, n, " millisecond", "s", plural);
  }

  /** Rules 0 to 4 of `BasicRules` need a start other than `wait `. */
  lemma WaitMillisecondsExcluded0()
    ensures NumberedExcludedFrom(BasicRules, 0, 5, "wait ", " millisecond")
    ensures NumberedExcludedFrom(BasicRules, 0, 5, "wait ", " milliseconds")
  {
  }

  /** Rule 5 of `BasicRules` needs ` second` after the number. */
  lemma WaitMillisecondsExcluded1()
    ensures NumberedExcludedFrom(BasicRules, 5, 6, "wait ", " millisecond")
    ensures NumberedExcludedFrom(BasicRules, 5, 6, "wait ", " milliseconds")
  {
  }

  lemma MillisecondsNoLineFeed()
    ensures NoLineFeed("wait ") && NoLineFeed(" millisecond") && NoLineFeed(" milliseconds")
  {
  }

  /** No line `wait N millisecond(s)` with a numeral N is accepted by a rule of
      `BasicRules` before the millisecond rule. */
  lemma WaitMillisecondsSkipsBasic(s: string, n: string, post: string)
    requires post == " millisecond" || post == " milliseconds"
    requires IsNumeral(n) && s == "wait " + n + post
    ensures forall j :: 0 <= j < 6 ==> !Hit(BasicRules[j], s)
  {
    WaitMillisecondsExcluded0();
    WaitMillisecondsExcluded1();
    NumberedExcludedJoin(BasicRules, 0, 5, 6, "wait ", post);
    MillisecondsNoLineFeed();
    assert NumberedLine(s, "wait ", n, post);
    NumberedExcludedMisses(BasicRules, 0, 6, s, "wait ", n, post);
  }

  lemma WaitMillisecondsMatch(s: string, n: string, plural: bool, otherwise: Outcome)
    requires IsNumeral(n) && s == "wait " + n + " millisecond" + (if plural then "s" else "")
    ensures Dispatch(BasicRules, s, otherwise) == Render(BasicRules[6].template, [n])
  {
    WaitMillisecondsWellFormed();
    WaitMillisecondsSpelled(s, n, plural);
    if plural {
      assert s == "wait " + n + " milliseconds";
      WaitMillisecondsSkipsBasic(s, n, " milliseconds");
    } else {
      WaitMillisecondsSkipsBasic(s, n, " millisecond");
    }
    Selects(BasicRules, 6, s, [n], otherwise);
  }

  lemma WaitMillisecondsRender(n: string)
    requires IsNumeral(n)
    ensures Render(BasicRules[6].template, [n]) == Returned("delay(" + n + ");")
  {
    assert BasicRules[6].template == [Verbatim("delay("), Group(1), Verbatim(");")];
    Render3(Verbatim("delay("), Group(1), Verbatim(");"), [n]);
  }

  /** `wait N millisecond(s)` copies N unchanged; the `second` rule before it needs
      `second` after the number. */
  lemma WaitMilliseconds(line: string, n: string, plural: bool)
    requires IsNumeral(n) && Lower(line) == "wait " + n + " millisecond" + (if plural then "s" else "")
    ensures SimplifiedToArduino(line) == Returned("delay(" + n + ");")
  {
    var s := Lower(line);
    WaitMillisecondsMatch(s, n, plural, HandleExtendedCommands(s));
    WaitMillisecondsRender(n);
  }

  lemma AnalogWritePinWellFormed()
    ensures BasicRules[7].matcher.Regex? && WellFormed(BasicRules[7].matcher.pattern)
  {
    assert BasicRules[7].matcher.pattern == [Lit("analog write pin "), Cap(Digits), Lit(" to "), Cap(Digits)];
  }

  lemma AnalogWritePinSpelled(s: string, pin: string, value: string)
    requires IsNumeral(pin) && IsNumeral(value) && s == "analog write pin " + pin + " to " + value
    ensures BasicRules[7].matcher.Regex?
    ensures Spells(BasicRules[7].matcher.pattern, s, [pin, value])
  {
    assert BasicRules[7].matcher.pattern == [Lit("analog write pin "), Cap(Digits), Lit(" to "), Cap(Digits)];
    SpellsLitCapLitCap("analog write pin ", Digits, pin, " to ", Digits, value);
  }

  /** No line starting with `a` is accepted by rules 0 to 4 of `BasicRules`. */
  lemma AnalogWritePinSkipsBasic0(s: string)
    requires "a" <= s
    ensures forall j :: 0 <= j < 5 ==> !Hit(BasicRules[j], s)
  {
    ExcludedMisses(BasicRules, 0, 5, "a", s);
  }

  /** No line starting with `a` is accepted by rules 5 to 6 of `BasicRules`. */
  lemma AnalogWritePinSkipsBasic1(s: string)
    requires "a" <= s
    ensures forall j :: 5 <= j < 7 ==> !Hit(BasicRules[j], s)
  {
    ExcludedMisses(BasicRules, 5, 7, "a", s);
  }

  lemma AnalogWritePinMatch(s: string, pin: string, value: string, otherwise: Outcome)
    requires IsNumeral(pin) && IsNumeral(value) && s == "analog write pin " + pin + " to " + value
    ensures Dispatch(BasicRules, s, otherwise) == Render(BasicRules[7].template, [pin, value])
  {
    AnalogWritePinWellFormed();
    AnalogWritePinSpelled(s, pin, value);
    AnalogWritePinSkipsBasic0(s);
    AnalogWritePinSkipsBasic1(s);
    Selects(BasicRules, 7, s, [pin, value], otherwise);
  }

  lemma AnalogWritePinRender(pin: string, value: string)
    requires IsNumeral(pin) && IsNumeral(value)
    ensures Render(BasicRules[7].template, [pin, value]) == Returned("analogWrite(" + pin + ", " + value + ");")
  {
    assert BasicRules[7].template == [Verbatim("analogWrite("), Group(1), Verbatim(", "), Group(2), Verbatim(");")];
    Render5(Verbatim("analogWrite("), Group(1), Verbatim(", "), Group(2), Verbatim(");"), [pin, value]);
  }

  /** `analog write pin P to V` keeps the captures in order: pin, then value. */
  lemma AnalogWritePin(line: string, pin: string, value: string)
    requires IsNumeral(pin) && IsNumeral(value) && Lower(line) == "analog write pin " + pin + " to " + value
    ensures SimplifiedToArduino(line) == Returned("analogWrite(" + pin + ", " + value + ");")
  {
    var s := Lower(line);
    AnalogWritePinMatch(s, pin, value, HandleExtendedCommands(s));
    AnalogWritePinRender(pin, value);
  }

  lemma ReadAnalogPinWellFormed()
    ensures BasicRules[8].matcher.Regex? && WellFormed(BasicRules[8].matcher.pattern)
  {
    assert BasicRules[8].matcher.pattern == [Lit("read analog pin "), Cap(AnalogPin)];
  }

  lemma ReadAnalogPinSpelled(s: string, n: string)
    requires IsNumeral(n) && s == "read analog pin a" + n
    ensures BasicRules[8].matcher.Regex?
    ensures Spells(BasicRules[8].matcher.pattern, s, ["a" + n])
  {
    assert BasicRules[8].matcher.pattern == [Lit("read analog pin "), Cap(AnalogPin)];
    assert ("a" + n)[1..] == n;
    SpellsLitCap("read analog pin ", AnalogPin, "a" + n);
    assert s == "read analog pin " + ("a" + n);
  }

  /** No line starting with `read a` is accepted by rules 0 to 4 of `BasicRules`. */
  lemma ReadAnalogPinSkipsBasic0(s: string)
    requires "read a" <= s
    ensures forall j :: 0 <= j < 5 ==> !Hit(BasicRules[j], s)
  {
    ExcludedMisses(BasicRules, 0, 5, "read a", s);
  }

  /** No line starting with `read a` is accepted by rules 5 to 7 of `BasicRules`. */
  lemma ReadAnalogPinSkipsBasic1(s: string)
    requires "read a" <= s
    ensures forall j :: 5 <= j < 8 ==> !Hit(BasicRules[j], s)
  {
    ExcludedMisses(BasicRules, 5, 8, "read a", s);
  }

  lemma ReadAnalogPinMatch(s: string, n: string, otherwise: Outcome)
    requires IsNumeral(n) && s == "read analog pin a" + n
    ensures Dispatch(BasicRules, s, otherwise) == Render(BasicRules[8].template, ["a" + n])
  {
    ReadAnalogPinWellFormed();
    ReadAnalogPinSpelled(s, n);
    ReadAnalogPinSkipsBasic0(s);
    ReadAnalogPinSkipsBasic1(s);
    Selects(BasicRules, 8, s, ["a" + n], otherwise);
  }

  lemma ReadAnalogPinRender(n: string)
    requires IsNumeral(n)
    ensures Render(BasicRules[8].template, ["a" + n]) == Returned("analogRead(A" + n + ");")
  {
    assert BasicRules[8].template == [Verbatim("analogRead("), GroupUpper(1), Verbatim(");")];
    Render3(Verbatim("analogRead("), GroupUpper(1), Verbatim(");"), ["a" + n]);
    UpperAnalogPin(n);
    assert RenderChunk(GroupUpper(1), ["a" + n]) == Returned("A" + n);
    AnalogReadCall(n);
  }

  /** `read analog pin aK` upper-cases the pin name to `AK`. */
  lemma ReadAnalogPin(line: string, n: string)
    requires IsNumeral(n) && Lower(line) == "read analog pin a" + n
    ensures SimplifiedToArduino(line) == Returned("analogRead(A" + n + ");")
  {
    var s := Lower(line);
    ReadAnalogPinMatch(s, n, HandleExtendedCommands(s));
    ReadAnalogPinRender(n);
  }

  /** The call text that `read analog pin aK` renders to, split where the template splits it. */
  lemma AnalogReadCall(n: string)
    ensures "analogRead(" + (("A" + n) + ");") == "analogRead(A" + n + ");"
  {
    assert "analogRead(" + "A" == "analogRead(A";
  }

  /** The alternatives of `(pressed|high|low)` are not prefixes of one another. */
  lemma LevelsPrefixFree()
    ensures PrefixFree(["pressed", "high", "low"])
  {
    var alts := ["pressed", "high", "low"];
    forall a, b | a in alts && b in alts && a <= b
      ensures a == b
    {
      assert a[0] == b[0];
      assert a == "pressed" || a == "high" || a == "low";
    }
  }

  lemma IfPinWellFormed()
    ensures BasicRules[10].matcher.Regex? && WellFormed(BasicRules[10].matcher.pattern)
  {
    LevelsPrefixFree();
    assert BasicRules[10].matcher.pattern == [Lit("if pin "), Cap(Digits), Lit(" is "), Cap(OneOf(["pressed", "high", "low"]))];
  }

  lemma IfPinSpelled(s: string, n: string, level: string)
    requires IsNumeral(n) && level in ["pressed", "high", "low"] && s == "if pin " + n + " is " + level
    ensures BasicRules[10].matcher.Regex?
    ensures Spells(BasicRules[10].matcher.pattern, s, [n, level])
  {
    assert BasicRules[10].matcher.pattern == [Lit("if pin "), Cap(Digits), Lit(" is "), Cap(OneOf(["pressed", "high", "low"]))];
    LevelsPrefixFree();
    SpellsLitCapLitCap("if pin ", Digits, n, " is ", OneOf(["pressed", "high", "low"]), level);
  }

  /** No line starting with `if` is accepted by rules 0 to 4 of `BasicRules`. */
  lemma IfPinSkipsBasic0(s: string)
    requires "if" <= s
    ensures forall j :: 0 <= j < 5 ==> !Hit(BasicRules[j], s)
  {
    ExcludedMisses(BasicRules, 0, 5, "if", s);
  }

  /** No line starting with `if` is accepted by rules 5 to 9 of `BasicRules`. */
  lemma IfPinSkipsBasic1(s: string)
    requires "if" <= s
    ensures forall j :: 5 <= j < 10 ==> !Hit(BasicRules[j], s)
  {
    ExcludedMisses(BasicRules, 5, 10, "if", s);
  }

  lemma IfPinMatch(s: string, n: string, level: string, otherwise: Outcome)
    requires IsNumeral(n) && level in ["pressed", "high", "low"] && s == "if pin " + n + " is " + level
    ensures Dispatch(BasicRules, s, otherwise) == Render(BasicRules[10].template, [n, level])
  {
    IfPinWellFormed();
    IfPinSpelled(s, n, level);
    IfPinSkipsBasic0(s);
    IfPinSkipsBasic1(s);
    Selects(BasicRules, 10, s, [n, level], otherwise);
  }

  lemma IfPinRender(n: string, level: string)
    requires IsNumeral(n) && level in ["pressed", "high", "low"]
    ensures Render(BasicRules[10].template, [n, level]) == Returned("if (digitalRead(" + n + ") == " + (if level == "low" then "LOW" else "HIGH") + ") {")
  {
    assert BasicRules[10].template == [Verbatim("if (digitalRead("), Group(1), Verbatim(") == "), GroupLevel(2), Verbatim(") {")];
    Render5(Verbatim("if (digitalRead("), Group(1), Verbatim(") == "), GroupLevel(2), Verbatim(") {"), [n, level]);
  }

  /** `if pin N is low` compares with `LOW`; `pressed` and `high` both compare with
      `HIGH`. */
  lemma IfPin(line: string, n: string, level: string)
    requires IsNumeral(n) && level in ["pressed", "high", "low"] && Lower(line) == "if pin " + n + " is " + level
    ensures SimplifiedToArduino(line) == Returned("if (digitalRead(" + n + ") == " + (if level == "low" then "LOW" else "HIGH") + ") {")
  {
    var s := Lower(line);
    IfPinMatch(s, n, level, HandleExtendedCommands(s));
    IfPinRender(n, level);
  }

  // ---------------------------------------------------------------------------
  // Commands answered by the extended rules
  // ---------------------------------------------------------------------------

  lemma ToggleWellFormed()
    ensures PinRules[2].matcher.Regex? && WellFormed(PinRules[2].matcher.pattern)
  {
    assert PinRules[2].matcher.pattern == [Lit("toggle pin "), Cap(Digits)];
  }

  lemma ToggleSpelled(s: string, n: string)
    requires IsNumeral(n) && s == "toggle pin " + n
    ensures PinRules[2].matcher.Regex?
    ensures Spells(PinRules[2].matcher.pattern, s, [n])
  {
    assert PinRules[2].matcher.pattern == [Lit("toggle pin "), Cap(Digits)];
    SpellsLitCap("toggle pin ", Digits, n);
  }

  /** No line starting with `to` is accepted by rules 0 to 1 of `PinRules`. */
  lemma ToggleSkipsPin(s: string)
    requires "to" <= s
    ensures forall j :: 0 <= j < 2 ==> !Hit(PinRules[j], s)
  {
    ExcludedMisses(PinRules, 0, 2, "to", s);
  }

  lemma ToggleMatch(s: string, n: string, otherwise: Outcome)
    requires IsNumeral(n) && s == "toggle pin " + n
    ensures Dispatch(PinRules, s, otherwise) == Render(PinRules[2].template, [n])
  {
    ToggleWellFormed();
    ToggleSpelled(s, n);
    ToggleSkipsPin(s);
    Selects(PinRules, 2, s, [n], otherwise);
  }

  lemma ToggleRender(n: string)
    requires IsNumeral(n)
    ensures Render(PinRules[2].template, [n]) == Returned("digitalWrite(" + n + ", !digitalRead(" + n + "));")
  {
    assert PinRules[2].template == [Verbatim("digitalWrite("), Group(1), Verbatim(", !digitalRead("), Group(1), Verbatim("));")];
    Render5(Verbatim("digitalWrite("), Group(1), Verbatim(", !digitalRead("), Group(1), Verbatim("));"), [n]);
  }

  /** No servo rule accepts a line that starts with `to`, `wr`, `p` or `wait f`. */
  lemma ServoSkips(pre: string, s: string)
    requires pre in ["to", "wr", "p", "wait f"] && pre <= s
    ensures forall j :: 0 <= j < 4 ==> !Hit(ServoRules[j], s)
  {
    if pre == "to" {
      ExcludedMisses(ServoRules, 0, 4, "to", s);
    } else if pre == "wr" {
      ExcludedMisses(ServoRules, 0, 4, "wr", s);
    } else if pre == "p" {
      ExcludedMisses(ServoRules, 0, 4, "p", s);
    } else {
      ExcludedMisses(ServoRules, 0, 4, "wait f", s);
    }
  }

  lemma ToggleExtended(s: string, n: string)
    requires IsNumeral(n) && s == "toggle pin " + n
    ensures HandleExtendedCommands(s) == Returned("digitalWrite(" + n + ", !digitalRead(" + n + "));")
  {
    var u := Returned(UnknownPrefix + s);
    ExtendedInGroups(s);
    ExtendedGroupsAre();
    ServoSkips("to", s);
    NoneSelects(ServoRules, s, u);
    SkipGroup(ExtendedGroups, 0, s, u);
    ToggleMatch(s, n, DispatchFrom(ExtendedGroups, 2, s, u));
    ToggleRender(n);
  }

  /** No line starting with `to` is accepted by rules 0 to 4 of `BasicRules`. */
  lemma ToggleSkipsBasic0(s: string)
    requires "to" <= s
    ensures forall j :: 0 <= j < 5 ==> !Hit(BasicRules[j], s)
  {
    ExcludedMisses(BasicRules, 0, 5, "to", s);
  }

  /** No line starting with `to` is accepted by rules 5 to 9 of `BasicRules`. */
  lemma ToggleSkipsBasic1(s: string)
    requires "to" <= s
    ensures forall j :: 5 <= j < 10 ==> !Hit(BasicRules[j], s)
  {
    ExcludedMisses(BasicRules, 5, 10, "to", s);
  }

  /** No line starting with `to` is accepted by rule 10 of `BasicRules`. */
  lemma ToggleSkipsBasic2(s: string)
    requires "to" <= s
    ensures forall j :: 10 <= j < 11 ==> !Hit(BasicRules[j], s)
  {
    ExcludedMisses(BasicRules, 10, 11, "to", s);
  }

  /** `toggle pin N` writes the negation of the pin's reading back to it, naming N twice. */
  lemma Toggle(line: string, n: string)
    requires IsNumeral(n) && Lower(line) == "toggle pin " + n
    ensures SimplifiedToArduino(line) == Returned("digitalWrite(" + n + ", !digitalRead(" + n + "));")
  {
    var s := Lower(line);
    ToggleSkipsBasic0(s);
    ToggleSkipsBasic1(s);
    ToggleSkipsBasic2(s);
    NoneSelects(BasicRules, s, HandleExtendedCommands(s));
    ToggleExtended(s, n);
  }

  lemma WriteAnalogWellFormed()
    ensures PinRules[7].matcher.Regex? && WellFormed(PinRules[7].matcher.pattern)
  {
    assert PinRules[7].matcher.pattern == [Lit("write analog "), Cap(Digits), Lit(" to pin "), Cap(Digits)];
  }

  lemma WriteAnalogSpelled(s: string, value: string, pin: string)
    requires IsNumeral(value) && IsNumeral(pin) && s == "write analog " + value + " to pin " + pin
    ensures PinRules[7].matcher.Regex?
    ensures Spells(PinRules[7].matcher.pattern, s, [value, pin])
  {
    assert PinRules[7].matcher.pattern == [Lit("write analog "), Cap(Digits), Lit(" to pin "), Cap(Digits)];
    SpellsLitCapLitCap("write analog ", Digits, value, " to pin ", Digits, pin);
  }

  /** No line starting with `wr` is accepted by rules 0 to 4 of `PinRules`. */
  lemma WriteAnalogSkipsPin0(s: string)
    requires "wr" <= s
    ensures forall j :: 0 <= j < 5 ==> !Hit(PinRules[j], s)
  {
    ExcludedMisses(PinRules, 0, 5, "wr", s);
  }

  /** No line starting with `wr` is accepted by rules 5 to 6 of `PinRules`. */
  lemma WriteAnalogSkipsPin1(s: string)
    requires "wr" <= s
    ensures forall j :: 5 <= j < 7 ==> !Hit(PinRules[j], s)
  {
    ExcludedMisses(PinRules, 5, 7, "wr", s);
  }

  lemma WriteAnalogMatch(s: string, value: string, pin: string, otherwise: Outcome)
    requires IsNumeral(value) && IsNumeral(pin) && s == "write analog " + value + " to pin " + pin
    ensures Dispatch(PinRules, s, otherwise) == Render(PinRules[7].template, [value, pin])
  {
    WriteAnalogWellFormed();
    WriteAnalogSpelled(s, value, pin);
    WriteAnalogSkipsPin0(s);
    WriteAnalogSkipsPin1(s);
    Selects(PinRules, 7, s, [value, pin], otherwise);
  }

  lemma WriteAnalogRender(value: string, pin: string)
    requires IsNumeral(value) && IsNumeral(pin)
    ensures Render(PinRules[7].template, [value, pin]) == Returned("analogWrite(" + pin + ", " + value + ");")
  {
    assert PinRules[7].template == [Verbatim("analogWrite("), Group(2), Verbatim(", "), Group(1), Verbatim(");")];
    Render5(Verbatim("analogWrite("), Group(2), Verbatim(", "), Group(1), Verbatim(");"), [value, pin]);
  }

  lemma WriteAnalogExtended(s: string, value: string, pin: string)
    requires IsNumeral(value) && IsNumeral(pin) && s == "write analog " + value + " to pin " + pin
    ensures HandleExtendedCommands(s) == Returned("analogWrite(" + pin + ", " + value + ");")
  {
    var u := Returned(UnknownPrefix + s);
    ExtendedInGroups(s);
    ExtendedGroupsAre();
    ServoSkips("wr", s);
    NoneSelects(ServoRules, s, u);
    SkipGroup(ExtendedGroups, 0, s, u);
    WriteAnalogMatch(s, value, pin, DispatchFrom(ExtendedGroups, 2, s, u));
    WriteAnalogRender(value, pin);
  }

  /** No line starting with `wr` is accepted by rules 0 to 4 of `BasicRules`. */
  lemma WriteAnalogSkipsBasic0(s: string)
    requires "wr" <= s
    ensures forall j :: 0 <= j < 5 ==> !Hit(BasicRules[j], s)
  {
    ExcludedMisses(BasicRules, 0, 5, "wr", s);
  }

  /** No line starting with `wr` is accepted by rules 5 to 9 of `BasicRules`. */
  lemma WriteAnalogSkipsBasic1(s: string)
    requires "wr" <= s
    ensures forall j :: 5 <= j < 10 ==> !Hit(BasicRules[j], s)
  {
    ExcludedMisses(BasicRules, 5, 10, "wr", s);
  }

  /** No line starting with `wr` is accepted by rule 10 of `BasicRules`. */
  lemma WriteAnalogSkipsBasic2(s: string)
    requires "wr" <= s
    ensures forall j :: 10 <= j < 11 ==> !Hit(BasicRules[j], s)
  {
    ExcludedMisses(BasicRules, 10, 11, "wr", s);
  }

  /** `write analog V to pin P` swaps the captures: the pin comes first in the call. */
  lemma WriteAnalog(line: string, value: string, pin: string)
    requires IsNumeral(value) && IsNumeral(pin) && Lower(line) == "write analog " + value + " to pin " + pin
    ensures SimplifiedToArduino(line) == Returned("analogWrite(" + pin + ", " + value + ");")
  {
    var s := Lower(line);
    WriteAnalogSkipsBasic0(s);
    WriteAnalogSkipsBasic1(s);
    WriteAnalogSkipsBasic2(s);
    NoneSelects(BasicRules, s, HandleExtendedCommands(s));
    WriteAnalogExtended(s, value, pin);
  }

  lemma PrintLineQuotedWellFormed()
    ensures SerialWaitRules[1].matcher.Regex? && WellFormed(SerialWaitRules[1].matcher.pattern)
  {
    assert SerialWaitRules[1].matcher.pattern == [Lit("print line \""), Cap(AnyPlus), Lit("\"")];
  }

  lemma PrintLineQuotedSpelled(s: string, t: string)
    requires t != [] && NoLineFeed(t) && s == "print line \"" + t + "\""
    ensures SerialWaitRules[1].matcher.Regex?
    ensures Spells(SerialWaitRules[1].matcher.pattern, s, [t])
  {
    assert SerialWaitRules[1].matcher.pattern == [Lit("print line \""), Cap(AnyPlus), Lit("\"")];
    SpellsLitCapLit("print line \"", AnyPlus, t, "\"");
  }

  /** No line starting with `p` is accepted by rule 0 of `SerialWaitRules`. */
  lemma PrintLineQuotedSkipsSerialWait(s: string)
    requires "p" <= s
    ensures forall j :: 0 <= j < 1 ==> !Hit(SerialWaitRules[j], s)
  {
    ExcludedMisses(SerialWaitRules, 0, 1, "p", s);
  }

  lemma PrintLineQuotedMatch(s: string, t: string, otherwise: Outcome)
    requires t != [] && NoLineFeed(t) && s == "print line \"" + t + "\""
    ensures Dispatch(SerialWaitRules, s, otherwise) == Render(SerialWaitRules[1].template, [t])
  {
    PrintLineQuotedWellFormed();
    PrintLineQuotedSpelled(s, t);
    PrintLineQuotedSkipsSerialWait(s);
    Selects(SerialWaitRules, 1, s, [t], otherwise);
  }

  lemma PrintLineQuotedRender(t: string)
    ensures Render(SerialWaitRules[1].template, [t]) == Returned("Serial.println(\"" + t + "\");")
  {
    assert SerialWaitRules[1].template == [Verbatim("Serial.println(\""), Group(1), Verbatim("\");")];
    Render3(Verbatim("Serial.println(\""), Group(1), Verbatim("\");"), [t]);
  }

  /** No line starting with `p` is accepted by rules 0 to 4 of `PinRules`. */
  lemma PrintLineQuotedSkipsPin0(s: string)
    requires "p" <= s
    ensures forall j :: 0 <= j < 5 ==> !Hit(PinRules[j], s)
  {
    ExcludedMisses(PinRules, 0, 5, "p", s);
  }

  /** No line starting with `p` is accepted by rules 5 to 7 of `PinRules`. */
  lemma PrintLineQuotedSkipsPin1(s: string)
    requires "p" <= s
    ensures forall j :: 5 <= j < 8 ==> !Hit(PinRules[j], s)
  {
    ExcludedMisses(PinRules, 5, 8, "p", s);
  }

  lemma PrintLineQuotedExtended(s: string, t: string)
    requires t != [] && NoLineFeed(t) && s == "print line \"" + t + "\""
    ensures HandleExtendedCommands(s) == Returned("Serial.println(\"" + t + "\");")
  {
    var u := Returned(UnknownPrefix + s);
    ExtendedInGroups(s);
    ExtendedGroupsAre();
    ServoSkips("p", s);
    NoneSelects(ServoRules, s, u);
    SkipGroup(ExtendedGroups, 0, s, u);
    PrintLineQuotedSkipsPin0(s);
    PrintLineQuotedSkipsPin1(s);
    NoneSelects(PinRules, s, u);
    SkipGroup(ExtendedGroups, 1, s, u);
    PrintLineQuotedMatch(s, t, DispatchFrom(ExtendedGroups, 3, s, u));
    PrintLineQuotedRender(t);
  }

  /** No line starting with `p` is accepted by rules 0 to 4 of `BasicRules`. */
  lemma PrintLineQuotedSkipsBasic0(s: string)
    requires "p" <= s
    ensures forall j :: 0 <= j < 5 ==> !Hit(BasicRules[j], s)
  {
    ExcludedMisses(BasicRules, 0, 5, "p", s);
  }

  /** No line starting with `p` is accepted by rules 5 to 9 of `BasicRules`. */
  lemma PrintLineQuotedSkipsBasic1(s: string)
    requires "p" <= s
    ensures forall j :: 5 <= j < 10 ==> !Hit(BasicRules[j], s)
  {
    ExcludedMisses(BasicRules, 5, 10, "p", s);
  }

  /** No line starting with `p` is accepted by rule 10 of `BasicRules`. */
  lemma PrintLineQuotedSkipsBasic2(s: string)
    requires "p" <= s
    ensures forall j :: 10 <= j < 11 ==> !Hit(BasicRules[j], s)
  {
    ExcludedMisses(BasicRules, 10, 11, "p", s);
  }

  /** `print line "..."` copies the quoted text as it is: unlike `say`, inner quotes are
      not escaped. */
  lemma PrintLineQuoted(line: string, t: string)
    requires t != [] && NoLineFeed(t) && Lower(line) == "print line \"" + t + "\""
    ensures SimplifiedToArduino(line) == Returned("Serial.println(\"" + t + "\");")
  {
    var s := Lower(line);
    PrintLineQuotedSkipsBasic0(s);
    PrintLineQuotedSkipsBasic1(s);
    PrintLineQuotedSkipsBasic2(s);
    NoneSelects(BasicRules, s, HandleExtendedCommands(s));
    PrintLineQuotedExtended(s, t);
  }

  lemma BareWaitWellFormed()
    ensures SerialWaitRules[3].matcher.Regex? && WellFormed(SerialWaitRules[3].matcher.pattern)
  {
    assert SerialWaitRules[3].matcher.pattern == [Lit("wait "), Cap(Digits)];
  }

  lemma BareWaitSpelled(s: string, n: string)
    requires IsNumeral(n) && s == "wait " + n
    ensures SerialWaitRules[3].matcher.Regex?
    ensures Spells(SerialWaitRules[3].matcher.pattern, s, [n])
  {
    assert SerialWaitRules[3].matcher.pattern == [Lit("wait "), Cap(Digits)];
    SpellsLitCap("wait ", Digits, n);
  }

  /** No line `wait N` with a numeral N is accepted by rules 0 to 2 of `SerialWaitRules`. */
  lemma BareWaitSkipsSerialWait(s: string, n: string)
    requires IsNumeral(n) && s == "wait " + n
    ensures forall j :: 0 <= j < 3 ==> !Hit(SerialWaitRules[j], s)
  {
    assert NumberedLine(s, "wait ", n, "");
    NumberedExcludedMisses(SerialWaitRules, 0, 3, s, "wait ", n, "");
  }

  lemma BareWaitMatch(s: string, n: string, otherwise: Outcome)
    requires IsNumeral(n) && s == "wait " + n
    ensures Dispatch(SerialWaitRules, s, otherwise) == Render(SerialWaitRules[3].template, [n])
  {
    BareWaitWellFormed();
    BareWaitSpelled(s, n);
    BareWaitSkipsSerialWait(s, n);
    Selects(SerialWaitRules, 3, s, [n], otherwise);
  }

  lemma BareWaitRender(n: string)
    requires IsNumeral(n)
    ensures Render(SerialWaitRules[3].template, [n]) == Returned("delay(" + n + ");")
  {
    assert SerialWaitRules[3].template == [Verbatim("delay("), Group(1), Verbatim(");")];
    Render3(Verbatim("delay("), Group(1), Verbatim(");"), [n]);
  }

  /** No line `wait N` with a numeral N is accepted by rules 0 to 3 of `ServoRules`. */
  lemma BareWaitSkipsServo(s: string, n: string)
    requires IsNumeral(n) && s == "wait " + n
    ensures forall j :: 0 <= j < 4 ==> !Hit(ServoRules[j], s)
  {
    assert NumberedLine(s, "wait ", n, "");
    NumberedExcludedMisses(ServoRules, 0, 4, s, "wait ", n, "");
  }

  /** No line `wait N` with a numeral N is accepted by rules 0 to 4 of `PinRules`. */
  lemma BareWaitSkipsPin0(s: string, n: string)
    requires IsNumeral(n) && s == "wait " + n
    ensures forall j :: 0 <= j < 5 ==> !Hit(PinRules[j], s)
  {
    assert NumberedLine(s, "wait ", n, "");
    NumberedExcludedMisses(PinRules, 0, 5, s, "wait ", n, "");
  }

  /** No line `wait N` with a numeral N is accepted by rules 5 to 7 of `PinRules`. */
  lemma BareWaitSkipsPin1(s: string, n: string)
    requires IsNumeral(n) && s == "wait " + n
    ensures forall j :: 5 <= j < 8 ==> !Hit(PinRules[j], s)
  {
    assert NumberedLine(s, "wait ", n, "");
    NumberedExcludedMisses(PinRules, 5, 8, s, "wait ", n, "");
  }

  lemma BareWaitExtended(s: string, n: string)
    requires IsNumeral(n) && s == "wait " + n
    ensures HandleExtendedCommands(s) == Returned("delay(" + n + ");")
  {
    var u := Returned(UnknownPrefix + s);
    ExtendedInGroups(s);
    ExtendedGroupsAre();
    BareWaitSkipsServo(s, n);
    NoneSelects(ServoRules, s, u);
    SkipGroup(ExtendedGroups, 0, s, u);
    BareWaitSkipsPin0(s, n);
    BareWaitSkipsPin1(s, n);
    NoneSelects(PinRules, s, u);
    SkipGroup(ExtendedGroups, 1, s, u);
    BareWaitMatch(s, n, DispatchFrom(ExtendedGroups, 3, s, u));
    BareWaitRender(n);
  }

  /** No line `wait N` with a numeral N is accepted by rules 0 to 4 of `BasicRules`. */
  lemma BareWaitSkipsBasic0(s: string, n: string)
    requires IsNumeral(n) && s == "wait " + n
    ensures forall j :: 0 <= j < 5 ==> !Hit(BasicRules[j], s)
  {
    assert NumberedLine(s, "wait ", n, "");
    NumberedExcludedMisses(BasicRules, 0, 5, s, "wait ", n, "");
  }

  /** No line `wait N` with a numeral N is accepted by rules 5 to 9 of `BasicRules`. */
  lemma BareWaitSkipsBasic1(s: string, n: string)
    requires IsNumeral(n) && s == "wait " + n
    ensures forall j :: 5 <= j < 10 ==> !Hit(BasicRules[j], s)
  {
    assert NumberedLine(s, "wait ", n, "");
    NumberedExcludedMisses(BasicRules, 5, 10, s, "wait ", n, "");
  }

  /** No line `wait N` with a numeral N is accepted by rule 10 of `BasicRules`. */
  lemma BareWaitSkipsBasic2(s: string, n: string)
    requires IsNumeral(n) && s == "wait " + n
    ensures forall j :: 10 <= j < 11 ==> !Hit(BasicRules[j], s)
  {
    assert NumberedLine(s, "wait ", n, "");
    NumberedExcludedMisses(BasicRules, 10, 11, s, "wait ", n, "");
  }

  /** `wait N` copies N unchanged as a delay in milliseconds: neither basic wait rule
      accepts it, since both need a unit after the number. */
  lemma BareWait(line: string, n: string)
    requires IsNumeral(n) && Lower(line) == "wait " + n
    ensures SimplifiedToArduino(line) == Returned("delay(" + n + ");")
  {
    var s := Lower(line);
    BareWaitSkipsBasic0(s, n);
    BareWaitSkipsBasic1(s, n);
    BareWaitSkipsBasic2(s, n);
    NoneSelects(BasicRules, s, HandleExtendedCommands(s));
    BareWaitExtended(s, n);
  }

  lemma WaitForSecondsWellFormed()
    ensures SerialWaitRules[4].matcher.Regex? && WellFormed(SerialWaitRules[4].matcher.pattern)
  {
    assert SerialWaitRules[4].matcher.pattern == [Lit("wait for "), Cap(Digits), Lit(" seconds")];
  }

  lemma WaitForSecondsSpelled(s: string, n: string)
    requires IsNumeral(n) && s == "wait for " + n + " seconds"
    ensures SerialWaitRules[4].matcher.Regex?
    ensures Spells(SerialWaitRules[4].matcher.pattern, s, [n])
  {
    assert SerialWaitRules[4].matcher.pattern == [Lit("wait for "), Cap(Digits), Lit(" seconds")];
    SpellsLitCapLit("wait for ", Digits, n, " seconds");
  }

  /** No line starting with `wait f` is accepted by rules 0 to 3 of `SerialWaitRules`. */
  lemma WaitForSecondsSkipsSerialWait(s: string)
    requires "wait f" <= s
    ensures forall j :: 0 <= j < 4 ==> !Hit(SerialWaitRules[j], s)
  {
    ExcludedMisses(SerialWaitRules, 0, 4, "wait f", s);
  }

  lemma WaitForSecondsMatch(s: string, n: string, otherwise: Outcome)
    requires IsNumeral(n) && s == "wait for " + n + " seconds"
    ensures Dispatch(SerialWaitRules, s, otherwise) == Render(SerialWaitRules[4].template, [n])
  {
    WaitForSecondsWellFormed();
    WaitForSecondsSpelled(s, n);
    WaitForSecondsSkipsSerialWait(s);
    Selects(SerialWaitRules, 4, s, [n], otherwise);
  }

  lemma WaitForSecondsRender(n: string)
    requires IsNumeral(n)
    ensures Render(SerialWaitRules[4].template, [n]) == Returned("delay(" + n + " * 1000);")
  {
    assert SerialWaitRules[4].template == [Verbatim("delay("), Group(1), Verbatim(" * 1000);")];
    Render3(Verbatim("delay("), Group(1), Verbatim(" * 1000);"), [n]);
  }

  /** No line starting with `wait f` is accepted by rules 0 to 4 of `PinRules`. */
  lemma WaitForSecondsSkipsPin0(s: string)
    requires "wait f" <= s
    ensures forall j :: 0 <= j < 5 ==> !Hit(PinRules[j], s)
  {
    ExcludedMisses(PinRules, 0, 5, "wait f", s);
  }

  /** No line starting with `wait f` is accepted by rules 5 to 7 of `PinRules`. */
  lemma WaitForSecondsSkipsPin1(s: string)
    requires "wait f" <= s
    ensures forall j :: 5 <= j < 8 ==> !Hit(PinRules[j], s)
  {
    ExcludedMisses(PinRules, 5, 8, "wait f", s);
  }

  lemma WaitForSecondsExtended(s: string, n: string)
    requires IsNumeral(n) && s == "wait for " + n + " seconds"
    ensures HandleExtendedCommands(s) == Returned("delay(" + n + " * 1000);")
  {
    var u := Returned(UnknownPrefix + s);
    ExtendedInGroups(s);
    ExtendedGroupsAre();
    ServoSkips("wait f", s);
    NoneSelects(ServoRules, s, u);
    SkipGroup(ExtendedGroups, 0, s, u);
    WaitForSecondsSkipsPin0(s);
    WaitForSecondsSkipsPin1(s);
    NoneSelects(PinRules, s, u);
    SkipGroup(ExtendedGroups, 1, s, u);
    WaitForSecondsMatch(s, n, DispatchFrom(ExtendedGroups, 3, s, u));
    WaitForSecondsRender(n);
  }

  /** No line starting with `wait f` is accepted by rules 0 to 4 of `BasicRules`. */
  lemma WaitForSecondsSkipsBasic0(s: string)
    requires "wait f" <= s
    ensures forall j :: 0 <= j < 5 ==> !Hit(BasicRules[j], s)
  {
    ExcludedMisses(BasicRules, 0, 5, "wait f", s);
  }

  /** No line starting with `wait f` is accepted by rules 5 to 9 of `BasicRules`. */
  lemma WaitForSecondsSkipsBasic1(s: string)
    requires "wait f" <= s
    ensures forall j :: 5 <= j < 10 ==> !Hit(BasicRules[j], s)
  {
    ExcludedMisses(BasicRules, 5, 10, "wait f", s);
  }

  /** No line starting with `wait f` is accepted by rule 10 of `BasicRules`. */
  lemma WaitForSecondsSkipsBasic2(s: string)
    requires "wait f" <= s
    ensures forall j :: 10 <= j < 11 ==> !Hit(BasicRules[j], s)
  {
    ExcludedMisses(BasicRules, 10, 11, "wait f", s);
  }

  /** `wait for N seconds` leaves the multiplication to the Arduino compiler: it emits
      the text `N * 1000`. */
  lemma WaitForSeconds(line: string, n: string)
    requires IsNumeral(n) && Lower(line) == "wait for " + n + " seconds"
    ensures SimplifiedToArduino(line) == Returned("delay(" + n + " * 1000);")
  {
    var s := Lower(line);
    WaitForSecondsSkipsBasic0(s);
    WaitForSecondsSkipsBasic1(s);
    WaitForSecondsSkipsBasic2(s);
    NoneSelects(BasicRules, s, HandleExtendedCommands(s));
    WaitForSecondsExtended(s, n);
  }
}
