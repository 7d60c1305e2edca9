/** `ArduinoToSimplified`: the importer's translation of one line of an Arduino
    sketch back into NeuroCode. The line is trimmed, then looked up among seven exact
    lines; any other line becomes a marked comment that keeps the trimmed text. */
module Reverse {
  import opened Text

  const UnsupportedPrefix := "// Unknown or unsupported: "

  /** The arms of the `switch` expression: Arduino line to NeuroCode line. */
  const KnownLines: map<string, string> := map[
    "void setup() {" := "onstart",
    "void loop() {" := "repeat",
    "pinMode(13, OUTPUT);" := "set 13 to output",
    "digitalWrite(13, HIGH);" := "turn on 13",
    "digitalWrite(13, LOW);" := "turn off 13",
    "delay(1000);" := "wait 1000 ms",
    "}" := "end"
  ]

  /** The import translation of one line: a known line, once trimmed, becomes its
      NeuroCode line and anything else the unsupported-line comment, which is the only
      outcome that starts with `/`. */
  function ArduinoToSimplified(line: string): (r: string)
    ensures r != [] && (r[0] == '/' <==> Trim(line) !in KnownLines)
  {
    var t := Trim(line);
    if t in KnownLines then KnownValuesNotComments(t); KnownLines[t] else UnsupportedPrefix + t
  }

  /** The translation sees the trimmed line only. */
  lemma TrimsFirst(line: string)
    ensures ArduinoToSimplified(line) == ArduinoToSimplified(Trim(line))
  {
    TrimIdempotent(line);
  }

  /** Every known line starts and ends with a character that is not white space. */
  lemma KnownLinesTrimmed(k: string)
    requires k in KnownLines
    ensures k != [] && !IsWhiteSpace(k[0]) && !IsWhiteSpace(k[|k| - 1])
  {
  }

  /** A known line, with any white space around it, maps to its NeuroCode line:
      `"  }  "` gives `end` and `"delay(1000);"` gives `wait 1000 ms`. */
  lemma KnownLine(w1: string, k: string, w2: string)
    requires k in KnownLines && AllWhiteSpace(w1) && AllWhiteSpace(w2)
    ensures ArduinoToSimplified(w1 + k + w2) == KnownLines[k]
  {
    KnownLinesTrimmed(k);
    TrimSurrounded(w1, k, w2);
  }

  /** No NeuroCode line of the table reads like the unsupported-line comment. */
  lemma KnownValuesNotComments(k: string)
    requires k in KnownLines
    ensures KnownLines[k] != [] && KnownLines[k][0] != '/'
  {
  }

  /** The line becomes the unsupported-line comment on its trimmed text exactly when
      the trimmed text is none of the seven lines; the lookup is exact, so a line
      differing from a known one in case alone is unsupported. */
  lemma UnsupportedIffUnknown(line: string)
    ensures ArduinoToSimplified(line) == UnsupportedPrefix + Trim(line) <==> Trim(line) !in KnownLines
  {
    if Trim(line) in KnownLines {
      KnownValuesNotComments(Trim(line));
    }
  }

  /** Distinct known lines give distinct NeuroCode lines, so the known part of an
      import loses nothing. */
  lemma KnownLinesInjective(a: string, b: string)
    requires a in KnownLines && b in KnownLines && KnownLines[a] == KnownLines[b]
    ensures a == b
  {
  }
}
