/** The `SimplifiedToArduino` local to `ShowMenu`, which the editor opened on an
    imported sketch uses: two case-sensitive prefixes, everything else an
    unknown-command comment that keeps the line as typed. */
module EditorForward {
  import opened Text

  const UnknownPrefix := "// Unknown command: "

  /** The statement `digitalWrite(pin, level);`. */
  function DigitalWrite(pin: string, level: string): (r: string)
    ensures r != [] && r[0] == 'd'
  {
    "digitalWrite(" + pin + ", " + level + ");"
  }

  /** The fixed text a `blink led` line becomes. */
  const BlinkCode := DigitalWrite("LED_BUILTIN", "HIGH") + " delay(1000); "
    + DigitalWrite("LED_BUILTIN", "LOW") + " delay(1000);"

  /** The write for the third and fourth space-separated tokens: high when the fourth
      is `high` in any case, low otherwise. */
  function PinWrite(parts: seq<string>): string
    requires |parts| >= 4
  {
    DigitalWrite(parts[2], if Lower(parts[3]) == "high" then "HIGH" else "LOW")
  }

  /** The editor's translation of one line. It gives the unknown-command comment, the
      only outcome that starts with `/`, exactly when the line neither starts with
      `blink led` nor starts with `set pin` and splits into at least four tokens. */
  function SimplifiedToArduino(line: string): (r: string)
    ensures r != [] && (r[0] == '/' <==>
      !("blink led" <= line) && !("set pin" <= line && |Split(line, ' ')| >= 4))
  {
    if "blink led" <= line then BlinkCode
    else if "set pin" <= line && |Split(line, ' ')| >= 4 then PinWrite(Split(line, ' '))
    else UnknownPrefix + line
  }

  /** Any line starting with `blink led` gives the fixed blink sequence. */
  lemma Blink(rest: string)
    ensures SimplifiedToArduino("blink led" + rest) == BlinkCode
  {
    assert "blink led" <= "blink led" + rest;
  }

  /** Joining a first piece onto the rest. */
  lemma JoinCons(a: string, rest: seq<string>, sep: char)
    requires |rest| > 0
    ensures Join([a] + rest, sep) == a + [sep] + Join(rest, sep)
  {
    assert ([a] + rest)[1..] == rest;
  }

  /** `set`, a space and a word starting with `pin` start with `set pin`. */
  lemma StartsSetPin(word: string, x: string)
    requires "pin" <= word
    ensures "set pin" <= "set" + [' '] + (word + x)
  {
    var s := "set" + [' '] + (word + x);
    assert s[4..7] == word[..3];
  }

  /** Tokens `set`, a word starting with `pin`, P, S and any others, joined by single
      spaces, write pin P high when S is `high` in any case, and low for every other S. */
  lemma SetPin(parts: seq<string>)
    requires |parts| >= 4 && parts[0] == "set" && "pin" <= parts[1]
    requires forall k :: 0 <= k < |parts| ==> ' ' !in parts[k]
    ensures SimplifiedToArduino(Join(parts, ' '))
      == DigitalWrite(parts[2], if Lower(parts[3]) == "high" then "HIGH" else "LOW")
  {
    JoinSplit(parts, ' ');
    SetPinStarts(parts);
  }

  /** Such a line starts with `set pin` and not with `blink led`. */
  lemma SetPinStarts(parts: seq<string>)
    requires |parts| >= 4 && parts[0] == "set" && "pin" <= parts[1]
    ensures "set pin" <= Join(parts, ' ') && !("blink led" <= Join(parts, ' '))
  {
    var tail := Join(parts[2..], ' ');
    JoinSecond(parts);
    StartsSetPin(parts[1], [' '] + tail);
    NotBlink(Join(parts, ' '));
  }

  /** The line joined from at least three tokens, with its first two written out. */
  lemma JoinSecond(parts: seq<string>)
    requires |parts| >= 3
    ensures Join(parts, ' ') == parts[0] + [' '] + (parts[1] + ([' '] + Join(parts[2..], ' ')))
  {
    assert parts[1..][1..] == parts[2..];
    assert Join(parts[1..], ' ') == parts[1] + [' '] + Join(parts[2..], ' ');
  }

  /** A line starting with `set pin` does not start with `blink led`. */
  lemma NotBlink(line: string)
    requires "set pin" <= line
    ensures !("blink led" <= line)
  {
    assert line[0] == 's';
  }

  /** A `set pin` line with fewer than four space-separated tokens is unknown. */
  lemma SetPinTooShort(line: string)
    requires "set pin" <= line && |Split(line, ' ')| < 4
    ensures SimplifiedToArduino(line) == UnknownPrefix + line
  {
    assert line[0] == 's';
  }

  /** The line becomes the unknown-command comment, in its original casing, exactly
      when neither translated form applies; the prefixes are compared case-sensitively. */
  lemma UnknownIff(line: string)
    ensures SimplifiedToArduino(line) == UnknownPrefix + line
      <==> !("blink led" <= line) && !("set pin" <= line && |Split(line, ' ')| >= 4)
  {
    var r := SimplifiedToArduino(line);
    assert (UnknownPrefix + line)[0] == '/';
    if "blink led" <= line {
      assert BlinkCode[0] == DigitalWrite("LED_BUILTIN", "HIGH")[0];
    }
  }
}
