/** The line-list bookkeeping of the two editor loops: `LaunchEditor`, which edits an
    imported sketch, and the loop of `CreateNewProject`. Both keep the lines typed so
    far (`inputLines`), their translations (`output`) and a line counter
    (`currentLine`). Each line read from the console is trimmed; blank lines are
    skipped, the words `exit`, `help`, `back` and `compile` (in any case) steer the
    loop, and every other line is stored with its translation. The console is an input
    sequence of reads, `None` standing for the end of input. */
module Session {
  import opened Text
  import opened Patterns
  import Forward
  import ForwardLaws
  import EditorForward
  import Reverse

  // ---------------------------------------------------------------------------
  // Reading a line
  // ---------------------------------------------------------------------------

  datatype Keyword = ExitWord | HelpWord | BackWord | CompileWord

  /** The loop keyword a line spells, compared after lower-casing. */
  function KeywordOf(line: string): Option<Keyword>
  {
    var lower := Lower(line);
    if lower == "exit" then Some(ExitWord)
    else if lower == "help" then Some(HelpWord)
    else if lower == "back" then Some(BackWord)
    else if lower == "compile" then Some(CompileWord)
    else None
  }

  /** Keywords are recognised in every casing. */
  lemma KeywordAnyCase(line: string)
    ensures KeywordOf(line) == KeywordOf(Lower(line))
  {
    LowerFixes(line);
    SameLowerSameKeyword(line, Lower(line));
  }

  lemma SameLowerSameKeyword(a: string, b: string)
    requires Lower(a) == Lower(b)
    ensures KeywordOf(a) == KeywordOf(b)
  {
  }

  /** A trimmed line that is all white space is empty. */
  lemma TrimmedBlank(s: string)
    ensures Trim(s) == [] || !AllWhiteSpace(Trim(s))
  {
    if Trim(s) != [] {
      assert !IsWhiteSpace(Trim(s)[0]);
    }
  }

  /** A line the loops can store: non-empty, trimmed and not a keyword. */
  predicate Storable(line: string)
  {
    line != [] && Trim(line) == line && KeywordOf(line) == None
  }

  /** What one read means to a loop: nothing (the end of input, or a line that is
      blank once trimmed), a keyword, or a line of code to store. */
  datatype Input = Blank | Command(keyword: Keyword) | Code(line: string)

  /** The read trimmed and classified. */
  function Classify(read: Option<string>): (i: Input)
    ensures i.Code? ==> Storable(i.line)
  {
    if read.None? then Blank
    else
      var line := Trim(read.value);
      TrimIdempotent(read.value);
      if line == [] then Blank
      else
        var keyword := KeywordOf(line);
        if keyword.Some? then Command(keyword.value) else Code(line)
  }

  /** A read is blank exactly at the end of input and for white space only; otherwise
      it is a keyword or code as its trimmed text says. */
  lemma ClassifyTrimmed(read: Option<string>)
    ensures Classify(read) == Blank <==> read.None? || AllWhiteSpace(read.value)
    ensures Classify(read).Command? ==> KeywordOf(Trim(read.value)) == Some(Classify(read).keyword)
    ensures Classify(read).Code? ==> Classify(read).line == Trim(read.value)
    ensures read.Some? && Storable(Trim(read.value)) ==> Classify(read) == Code(Trim(read.value))
  {
    if read.Some? {
      TrimEmptyIffBlank(read.value);
    }
  }

  /** A translation that the loops report as an unknown command. */
  predicate Warns(code: string)
  {
    "// Unknown command:" <= code
  }

  /** A step warns when it adds an output entry that `Warns`. */
  predicate WarnedOn(before: seq<string>, after: seq<string>)
  {
    |after| > |before| && Warns(after[|after| - 1])
  }

  // ---------------------------------------------------------------------------
  // The lists
  // ---------------------------------------------------------------------------

  datatype Lines = Lines(inputLines: seq<string>, output: seq<string>, currentLine: int)

  /** The two lists have one entry per line and the counter is their length. */
  predicate InStep(l: Lines)
  {
    |l.inputLines| == |l.output| == l.currentLine
  }

  /** Storing a line and its translation. */
  function Accept(l: Lines, line: string, code: string): (r: Lines)
    ensures InStep(l) ==> InStep(r)
  {
    Lines(l.inputLines + [line], l.output + [code], l.currentLine + 1)
  }

  /** `back`: when the counter is positive, the last entry of each list goes and the
      counter drops by one; otherwise nothing changes. */
  function Back(l: Lines): (r: Lines)
    requires l.currentLine > 0 ==> |l.inputLines| > 0 && |l.output| > 0
  {
    if l.currentLine > 0 then
      Lines(l.inputLines[..|l.inputLines| - 1], l.output[..|l.output| - 1], l.currentLine - 1)
    else l
  }

  /** `back` undoes the line stored last. */
  lemma BackUndoesAccept(l: Lines, line: string, code: string)
    requires InStep(l)
    ensures Back(Accept(l, line, code)) == l
  {
    assert (l.inputLines + [line])[..|l.inputLines|] == l.inputLines;
    assert (l.output + [code])[..|l.output|] == l.output;
  }

  /** `back` keeps the lists in step, leaves a prefix of each, and removes one entry
      from each list unless they are empty. */
  lemma BackShrinks(l: Lines)
    requires InStep(l)
    ensures InStep(Back(l))
    ensures Back(l).inputLines <= l.inputLines && Back(l).output <= l.output
    ensures |Back(l).inputLines| == if l.inputLines == [] then 0 else |l.inputLines| - 1
  {
  }

  // ---------------------------------------------------------------------------
  // One step of each loop
  // ---------------------------------------------------------------------------

  /** Where a loop is: reading lines, waiting for the Enter after the help screen,
      waiting for the folder to compile into, or done (left with `exit`, compiling and
      uploading into a folder, compiling the output, or stopped by an exception). */
  datatype Phase = Editing | HelpShown | AwaitingFolder | Exited | Uploading(folder: Option<string>)
    | Compiling | Crashed

  predicate Live(p: Phase)
  {
    p.Editing? || p.HelpShown? || p.AwaitingFolder?
  }

  datatype State = State(phase: Phase, lines: Lines)

  /** What `LaunchEditor` does with a classified read while it reads lines. A stored
      line is translated by `translate`; `compile` asks for a folder. Whatever it reads,
      the lists stay in step, and only `exit` ends the session here. */
  function EditorOn(l: Lines, input: Input, translate: string -> string): (r: State)
    requires InStep(l)
    ensures InStep(r.lines)
    ensures r.phase == Exited <==> input == Command(ExitWord)
  {
    match input
    case Blank => State(Editing, l)
    case Command(keyword) =>
      (match keyword
       case ExitWord => State(Exited, l)
       case HelpWord => State(HelpShown, l)
       case BackWord => BackShrinks(l); State(Editing, Back(l))
       case CompileWord => State(AwaitingFolder, l))
    case Code(line) => State(Editing, Accept(l, line, translate(line)))
  }

  /** One read of `LaunchEditor`: the read after the help screen is ignored, the read
      after `compile` names the folder, and every other read goes to `EditorOn`. Every
      step keeps the lists in step. */
  function EditorNext(s: State, read: Option<string>, translate: string -> string): (r: State)
    requires Live(s.phase) && InStep(s.lines)
    ensures InStep(r.lines)
  {
    if s.phase.HelpShown? then State(Editing, s.lines)
    else if s.phase.AwaitingFolder? then State(Uploading(read), s.lines)
    else EditorOn(s.lines, Classify(read), translate)
  }

  /** The loop of `CreateNewProject` only ever reads lines or waits after help. */
  predicate ProjectLive(p: Phase)
  {
    p.Editing? || p.HelpShown?
  }

  /** The lists of the project loop: in step, except that after an overflow the line
      that caused it is stored and counted while its translation is not. */
  predicate Consistent(s: State)
  {
    if s.phase.Crashed? then
      |s.lines.inputLines| == |s.lines.output| + 1 == s.lines.currentLine
    else InStep(s.lines)
  }

  /** What the `CreateNewProject` loop does with a classified read while it reads
      lines. A stored line is stored and counted before `translate` runs, so a
      translation that throws leaves it behind without an output entry. Whatever it
      reads, the loop stays consistent, and it stops with an exception exactly when the
      translation of a line of code throws. */
  function ProjectOn(l: Lines, input: Input, translate: string -> Forward.Outcome): (r: State)
    requires InStep(l)
    ensures Consistent(r)
    ensures r.phase.Crashed? <==> input.Code? && translate(input.line) == Forward.OverflowThrown
  {
    match input
    case Blank => State(Editing, l)
    case Command(keyword) =>
      (match keyword
       case ExitWord => State(Exited, l)
       case BackWord => BackShrinks(l); State(Editing, Back(l))
       case HelpWord => State(HelpShown, l)
       case CompileWord => State(Compiling, l))
    case Code(line) =>
      (match translate(line)
       case Returned(code) => State(Editing, Accept(l, line, code))
       case OverflowThrown => State(Crashed, Lines(l.inputLines + [line], l.output, l.currentLine + 1)))
  }

  /** One read of the `CreateNewProject` loop: the read after the help screen is
      ignored and every other read goes to `ProjectOn`. Every step keeps the loop
      consistent. */
  function ProjectNext(s: State, read: Option<string>, translate: string -> Forward.Outcome): (r: State)
    requires ProjectLive(s.phase) && InStep(s.lines)
    ensures Consistent(r)
  {
    if s.phase.HelpShown? then State(Editing, s.lines)
    else ProjectOn(s.lines, Classify(read), translate)
  }

  // ---------------------------------------------------------------------------
  // What a step does to the lists
  // ---------------------------------------------------------------------------

  /** The editor's lists grow exactly when it reads a line of code, and then by that
      line and its translation and nothing else. */
  lemma EditorOnStores(l: Lines, input: Input, translate: string -> string)
    requires InStep(l)
    ensures |EditorOn(l, input, translate).lines.inputLines| > |l.inputLines| <==> input.Code?
    ensures input.Code? ==> EditorOn(l, input, translate).lines == Accept(l, input.line, translate(input.line))
  {
    if input == Command(BackWord) {
      BackShrinks(l);
    }
  }

  /** Any other read leaves a prefix of each of the editor's lists. */
  lemma EditorOnKeeps(l: Lines, input: Input, translate: string -> string)
    requires InStep(l)
    ensures !input.Code? ==>
      EditorOn(l, input, translate).lines.inputLines <= l.inputLines &&
      EditorOn(l, input, translate).lines.output <= l.output
  {
    if input == Command(BackWord) {
      BackShrinks(l);
    }
  }

  /** The project loop's input list grows exactly when it reads a line of code; it
      then gains that line, and the output list gains its translation unless the
      translation throws. */
  lemma ProjectOnStores(l: Lines, input: Input, translate: string -> Forward.Outcome)
    requires InStep(l)
    ensures |ProjectOn(l, input, translate).lines.inputLines| > |l.inputLines| <==> input.Code?
    ensures input.Code? ==>
      ProjectOn(l, input, translate).lines.inputLines == l.inputLines + [input.line] &&
      ProjectOn(l, input, translate).lines.currentLine == l.currentLine + 1 &&
      match translate(input.line)
      case Returned(code) => ProjectOn(l, input, translate).lines.output == l.output + [code]
      case OverflowThrown => ProjectOn(l, input, translate).lines.output == l.output
  {
    if input == Command(BackWord) {
      BackShrinks(l);
    }
  }

  /** Any other read leaves a prefix of each of the project loop's lists. */
  lemma ProjectOnKeeps(l: Lines, input: Input, translate: string -> Forward.Outcome)
    requires InStep(l)
    ensures !input.Code? ==>
      ProjectOn(l, input, translate).lines.inputLines <= l.inputLines &&
      ProjectOn(l, input, translate).lines.output <= l.output
  {
    if input == Command(BackWord) {
      BackShrinks(l);
    }
  }

  /** Both loops obey the same keywords: apart from `compile`, which the editor follows
      with a folder name, a keyword moves both loops to the same phase and does the
      same to their lists. */
  lemma SameKeywords(l: Lines, keyword: Keyword, editorTranslate: string -> string,
                     projectTranslate: string -> Forward.Outcome)
    requires InStep(l)
    ensures keyword != CompileWord ==>
      EditorOn(l, Command(keyword), editorTranslate) == ProjectOn(l, Command(keyword), projectTranslate)
    ensures keyword == CompileWord ==>
      EditorOn(l, Command(keyword), editorTranslate) == State(AwaitingFolder, l) &&
      ProjectOn(l, Command(keyword), projectTranslate) == State(Compiling, l)
  {
  }

  /** While reading lines, a step of the project loop is its reaction to the
      classified read. */
  lemma ProjectNextReads(s: State, read: Option<string>, input: Input, translate: string -> Forward.Outcome)
    requires s.phase.Editing? && InStep(s.lines) && input == Classify(read)
    ensures ProjectNext(s, read, translate) == ProjectOn(s.lines, input, translate)
  {
  }

  // ---------------------------------------------------------------------------
  // Warnings
  // ---------------------------------------------------------------------------

  lemma WarnsStartsWithSlash(code: string)
    requires Warns(code)
    ensures code != [] && code[0] == '/'
  {
  }

  /** The editor warns about a stored line exactly when it is translated to the
      unknown-command comment, which happens exactly when it starts neither with
      `blink led` nor with `set pin` followed by enough tokens. */
  lemma EditorWarnsIff(line: string)
    ensures Warns(EditorForward.SimplifiedToArduino(line)) <==>
      EditorForward.SimplifiedToArduino(line) == EditorForward.UnknownPrefix + line
    ensures Warns(EditorForward.SimplifiedToArduino(line)) <==>
      !("blink led" <= line) && !("set pin" <= line && |Split(line, ' ')| >= 4)
  {
    var code := EditorForward.SimplifiedToArduino(line);
    EditorForward.UnknownIff(line);
    if Warns(code) {
      assert code[0] == '/';
    }
  }

  /** The new-project loop warns about a stored line exactly when no rule accepts it. */
  lemma ProjectWarnsIff(line: string)
    ensures (Forward.SimplifiedToArduino(line).Returned? && Warns(Forward.SimplifiedToArduino(line).code))
      <==> Forward.FirstMatch(Forward.BasicRules, Lower(line)) == None &&
           Forward.FirstMatch(Forward.ExtendedRules, Lower(line)) == None
  {
    ForwardLaws.UnknownIffNoRule(line);
    var r := Forward.SimplifiedToArduino(line);
    if Forward.FirstMatch(Forward.BasicRules, Lower(line)).Some? ||
       Forward.FirstMatch(Forward.ExtendedRules, Lower(line)).Some? {
      ForwardLaws.RuleAnswerNotComment(line);
      if r.Returned? && Warns(r.code) {
        WarnsStartsWithSlash(r.code);
      }
    }
  }

  // ---------------------------------------------------------------------------
  // Whole runs
  // ---------------------------------------------------------------------------

  /** The editor after a run of reads; reads after the loop has ended are ignored. */
  function EditorRun(s: State, inputs: seq<Option<string>>, translate: string -> string): (r: State)
    requires Live(s.phase) && InStep(s.lines)
    ensures InStep(r.lines)
    decreases |inputs|
  {
    if inputs == [] then s
    else
      var before := EditorRun(s, inputs[..|inputs| - 1], translate);
      if Live(before.phase) then
        EditorNext(before, inputs[|inputs| - 1], translate)
      else before
  }

  /** The project loop after a run of reads; reads after the loop has ended are
      ignored. */
  function ProjectRun(s: State, inputs: seq<Option<string>>, translate: string -> Forward.Outcome): (r: State)
    requires ProjectLive(s.phase) && InStep(s.lines)
    ensures Consistent(r)
    decreases |inputs|
  {
    if inputs == [] then s
    else
      var before := ProjectRun(s, inputs[..|inputs| - 1], translate);
      if ProjectLive(before.phase) then
        ProjectNext(before, inputs[|inputs| - 1], translate)
      else before
  }

  /** Every input line of a project session is storable and every output line is the
      translation of the input line beside it. */
  predicate Translated(l: Lines, translate: string -> Forward.Outcome)
  {
    (forall k :: 0 <= k < |l.inputLines| ==> Storable(l.inputLines[k])) &&
    (forall k :: 0 <= k < |l.output| && k < |l.inputLines| ==>
      translate(l.inputLines[k]) == Forward.Returned(l.output[k]))
  }

  /** A project session, which starts with empty lists, only ever holds storable lines
      beside their translations: no blank line and no keyword is ever stored. */
  lemma {:induction false} ProjectRunTranslated(inputs: seq<Option<string>>, translate: string -> Forward.Outcome)
    ensures Translated(ProjectRun(State(Editing, Lines([], [], 0)), inputs, translate).lines, translate)
    decreases |inputs|
  {
    var s := State(Editing, Lines([], [], 0));
    if inputs != [] {
      var before := ProjectRun(s, inputs[..|inputs| - 1], translate);
      ProjectRunTranslated(inputs[..|inputs| - 1], translate);
      if before.phase.Editing? {
        var read := inputs[|inputs| - 1];
        ProjectNextReads(before, read, Classify(read), translate);
        TranslatedStep(before.lines, Classify(read), translate);
      }
    }
  }

  /** A step of the project loop keeps its lists translated. */
  lemma TranslatedStep(l: Lines, input: Input, translate: string -> Forward.Outcome)
    requires Translated(l, translate) && InStep(l) && (input.Code? ==> Storable(input.line))
    ensures Translated(ProjectOn(l, input, translate).lines, translate)
  {
    ProjectOnStores(l, input, translate);
    ProjectOnKeeps(l, input, translate);
    var after := ProjectOn(l, input, translate);
    if input.Code? {
      TranslatedAppend(l, after.lines, input.line, translate);
    } else {
      TranslatedPrefix(l, after.lines, translate);
    }
  }

  /** Storing one storable line with its translation, or without one, keeps the
      lists translated. */
  lemma TranslatedAppend(l: Lines, r: Lines, line: string, translate: string -> Forward.Outcome)
    requires Translated(l, translate) && InStep(l) && Storable(line)
    requires r.inputLines == l.inputLines + [line]
    requires r.output == l.output ||
      exists code :: r.output == l.output + [code] && translate(line) == Forward.Returned(code)
    ensures Translated(r, translate)
  {
    forall k | 0 <= k < |r.output| && k < |r.inputLines|
      ensures translate(r.inputLines[k]) == Forward.Returned(r.output[k])
    {
      if k < |l.output| {
        assert r.inputLines[k] == l.inputLines[k] && r.output[k] == l.output[k];
      }
    }
  }

  /** Dropping entries from the ends keeps the lists translated. */
  lemma TranslatedPrefix(l: Lines, r: Lines, translate: string -> Forward.Outcome)
    requires Translated(l, translate) && r.inputLines <= l.inputLines && r.output <= l.output
    ensures Translated(r, translate)
  {
    assert forall k :: 0 <= k < |r.inputLines| ==> r.inputLines[k] == l.inputLines[k];
    assert forall k :: 0 <= k < |r.output| ==> r.output[k] == l.output[k];
  }

  // ---------------------------------------------------------------------------
  // Import
  // ---------------------------------------------------------------------------

  /** `f` applied to every line, in order. */
  function MapLines(f: string -> string, lines: seq<string>): (r: seq<string>)
    ensures |r| == |lines|
    decreases |lines|
  {
    if lines == [] then []
    else MapLines(f, lines[..|lines| - 1]) + [f(lines[|lines| - 1])]
  }

  /** Line `i` of the mapped lines is `f` of line `i`. */
  lemma {:induction false} MapLinesAt(f: string -> string, lines: seq<string>, i: nat)
    requires i < |lines|
    ensures MapLines(f, lines)[i] == f(lines[i])
    decreases |lines|
  {
    var init := lines[..|lines| - 1];
    if i < |init| {
      MapLinesAt(f, init, i);
      assert init[i] == lines[i];
    }
  }

  /** The NeuroCode lines an import produces, one per sketch line. */
  function Imported(arduinoLines: seq<string>): (r: seq<string>)
    ensures |r| == |arduinoLines|
  {
    MapLines(Reverse.ArduinoToSimplified, arduinoLines)
  }

  /** The import keeps every line: line `i` of the result is the reverse translation of
      line `i` of the sketch. */
  lemma ImportedAt(arduinoLines: seq<string>, i: nat)
    requires i < |arduinoLines|
    ensures Imported(arduinoLines)[i] == Reverse.ArduinoToSimplified(arduinoLines[i])
  {
    MapLinesAt(Reverse.ArduinoToSimplified, arduinoLines, i);
  }

  /** The import loop: each line of the sketch gives one NeuroCode line, its reverse
      translation, and keeps the sketch line itself as its output. */
  method ImportLines(arduinoLines: seq<string>) returns (neuroLines: seq<string>, output: seq<string>)
    ensures neuroLines == Imported(arduinoLines) && output == arduinoLines
  {
    neuroLines, output := [], [];
    for i := 0 to |arduinoLines|
      invariant neuroLines == Imported(arduinoLines[..i]) && output == arduinoLines[..i]
    {
      var line := arduinoLines[i];
      var simplified := Reverse.ArduinoToSimplified(Trim(line));
      Reverse.TrimsFirst(line);
      assert arduinoLines[..i + 1][..i] == arduinoLines[..i];
      neuroLines := neuroLines + [simplified];
      output := output + [line];
    }
    assert arduinoLines[..|arduinoLines|] == arduinoLines;
  }

  // ---------------------------------------------------------------------------
  // The loops as objects
  // ---------------------------------------------------------------------------

  /** The start of each loop's body: trim the read, skip it when blank, and compare
      its lower-cased text with the keywords. */
  method ReadInput(read: Option<string>) returns (input: Input)
    ensures input == Classify(read)
  {
    if read.None? {
      return Blank;
    }
    var line := Trim(read.value);
    TrimmedBlank(read.value);
    if AllWhiteSpace(line) {
      return Blank;
    }
    var lower := Lower(line);
    if lower == "exit" {
      return Command(ExitWord);
    }
    if lower == "help" {
      return Command(HelpWord);
    }
    if lower == "back" {
      return Command(BackWord);
    }
    if lower == "compile" {
      return Command(CompileWord);
    }
    return Code(line);
  }

  /** The locals of `LaunchEditor`. */
  class EditorSession {
    var inputLines: seq<string>
    var output: seq<string>
    var currentLine: int
    var phase: Phase

    function Snapshot(): State
      reads this
    {
      State(phase, Lines(inputLines, output, currentLine))
    }

    predicate Valid()
      reads this
    {
      InStep(Lines(inputLines, output, currentLine))
    }

    /** The editor opens on lists of equal length, as the import loop builds them,
        with the counter at their length. */
    constructor(inputLines: seq<string>, output: seq<string>)
      requires |inputLines| == |output|
      ensures Valid() && Snapshot() == State(Editing, Lines(inputLines, output, |inputLines|))
    {
      this.inputLines := inputLines;
      this.output := output;
      this.currentLine := |inputLines|;
      this.phase := Editing;
    }

    /** One read; `warned` is the unknown-command warning. */
    method Step(read: Option<string>) returns (warned: bool)
      requires Valid() && Live(phase)
      modifies this
      ensures Valid()
      ensures Snapshot() == EditorNext(old(Snapshot()), read, EditorForward.SimplifiedToArduino)
      ensures warned <==> WarnedOn(old(output), output)
    {
      warned := false;
      if phase.HelpShown? {
        phase := Editing;
        return;
      }
      if phase.AwaitingFolder? {
        phase := Uploading(read);
        return;
      }
      var input := ReadInput(read);
      warned := Handle(input);
    }

    /** What the loop does with a classified read while reading lines. */
    method Handle(input: Input) returns (warned: bool)
      requires Valid() && phase.Editing?
      modifies this
      ensures Valid()
      ensures Snapshot() == EditorOn(old(Snapshot()).lines, input, EditorForward.SimplifiedToArduino)
      ensures warned <==> WarnedOn(old(output), output)
    {
      warned := false;
      match input {
        case Blank =>
        case Command(ExitWord) =>
          phase := Exited;
        case Command(HelpWord) =>
          phase := HelpShown;
        case Command(BackWord) =>
          if currentLine > 0 {
            currentLine := currentLine - 1;
            inputLines := inputLines[..|inputLines| - 1];
            output := output[..|output| - 1];
          }
        case Command(CompileWord) =>
          phase := AwaitingFolder;
        case Code(line) =>
          inputLines := inputLines + [line];
          currentLine := currentLine + 1;
          var translated := EditorForward.SimplifiedToArduino(line);
          output := output + [translated];
          warned := Warns(translated);
      }
    }

    /** The loop over a run of reads, stopping when it ends; `used` is how many reads
        it took. */
    method Run(inputs: seq<Option<string>>) returns (used: nat)
      requires Valid() && Live(phase)
      modifies this
      ensures Valid() && used <= |inputs|
      ensures Snapshot() == EditorRun(old(Snapshot()), inputs[..used], EditorForward.SimplifiedToArduino)
      ensures used < |inputs| ==> !Live(phase)
    {
      used := 0;
      while used < |inputs| && Live(phase)
        invariant Valid() && used <= |inputs|
        invariant Snapshot() == EditorRun(old(Snapshot()), inputs[..used], EditorForward.SimplifiedToArduino)
      {
        assert inputs[..used + 1][..used] == inputs[..used];
        var _ := Step(inputs[used]);
        used := used + 1;
      }
    }
  }

  /** The locals of `CreateNewProject`'s loop. */
  class ProjectSession {
    var inputLines: seq<string>
    var output: seq<string>
    var currentLine: int
    var phase: Phase
    /** The translator the loop calls on every stored line. */
    const translate: string -> Forward.Outcome

    function Snapshot(): State
      reads this
    {
      State(phase, Lines(inputLines, output, currentLine))
    }

    predicate Valid()
      reads this
    {
      Consistent(Snapshot())
    }

    /** A new project starts with empty lists. */
    constructor()
      ensures Valid() && Snapshot() == State(Editing, Lines([], [], 0))
      ensures translate == Forward.SimplifiedToArduino
    {
      inputLines, output, currentLine, phase := [], [], 0, Editing;
      translate := Forward.SimplifiedToArduino;
    }

    /** One read; `warned` is the unknown-command warning. */
    method Step(read: Option<string>) returns (warned: bool)
      requires Valid() && ProjectLive(phase)
      modifies this
      ensures Valid()
      ensures Snapshot() == ProjectNext(old(Snapshot()), read, translate)
      ensures warned <==> WarnedOn(old(output), output)
    {
      warned := false;
      if phase.HelpShown? {
        phase := Editing;
        return;
      }
      var input := ReadInput(read);
      assert output == old(output);
      ProjectNextReads(Snapshot(), read, input, translate);
      warned := Handle(input);
    }

    /** What the loop does with a classified read while reading lines. */
    method Handle(input: Input) returns (warned: bool)
      requires Valid() && phase.Editing?
      modifies this
      ensures Valid()
      ensures Snapshot() == ProjectOn(old(Snapshot()).lines, input, translate)
      ensures warned <==> WarnedOn(old(output), output)
    {
      warned := false;
      match input {
        case Blank =>
        case Command(ExitWord) =>
          phase := Exited;
        case Command(BackWord) =>
          if currentLine > 0 {
            currentLine := currentLine - 1;
            inputLines := inputLines[..|inputLines| - 1];
            output := output[..|output| - 1];
          }
        case Command(HelpWord) =>
          phase := HelpShown;
        case Command(CompileWord) =>
          phase := Compiling;
        case Code(line) =>
          inputLines := inputLines + [line];
          currentLine := currentLine + 1;
          var translated := translate(line);
          match translated {
            case OverflowThrown =>
              phase := Crashed;
            case Returned(code) =>
              output := output + [code];
              warned := Warns(code);
          }
      }
    }

    /** The loop over a run of reads, stopping when it ends; `used` is how many reads
        it took. */
    method Run(inputs: seq<Option<string>>) returns (used: nat)
      requires Valid() && ProjectLive(phase)
      modifies this
      ensures Valid() && used <= |inputs|
      ensures Snapshot() == ProjectRun(old(Snapshot()), inputs[..used], translate)
      ensures used < |inputs| ==> !ProjectLive(phase)
    {
      used := 0;
      while used < |inputs| && ProjectLive(phase)
        invariant Valid() && used <= |inputs|
        invariant Snapshot() == ProjectRun(old(Snapshot()), inputs[..used], translate)
      {
        assert inputs[..used + 1][..used] == inputs[..used];
        var _ := Step(inputs[used]);
        used := used + 1;
      }
    }
  }
}
