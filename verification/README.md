# NeuroCode IDE, modelled in Dafny

NeuroCode IDE is a console program for writing Arduino sketches in a plain-English
command language, NeuroCode (`turn on pin 13`, `wait 2 seconds`, `say "hi"`). This
project models its logic:

- **The new-project translator.** This is the `SimplifiedToArduino` that `CreateNewProject` calls, together with `HandleExtendedCommands`.
  - It lower-cases the line and tries eleven basic rules, then forty-nine extended ones, in source order.
  - The first rule whose anchored pattern matches renders its template from the captures. Otherwise the line becomes `// Unknown command: ` followed by the lower-cased line.
  - Rules are data (`Forward.BasicRules`, `Forward.ExtendedGroups`). Patterns are sequences of literals, optional literals and capture groups: `(\d+)`, `(\w+)`, `(a\d+)`, `(.*)`, `(.+)` and alternatives. `Patterns.Match` is a deterministic matcher proved equal to the declarative reading `Patterns.Spells`.
  - The templates are interpolated strings. The only one that can fail is `wait N second(s)`: `int.Parse` throws an `OverflowException` above `int.MaxValue`, and `N * 1000` wraps in unchecked 32-bit arithmetic. Both are modelled (`Forward.Outcome`, `Text.Wrap32`).
- **The reverse translator** `ArduinoToSimplified` (`Reverse`). It trims the line and looks it up in a table of seven Arduino lines. Any other line becomes `// Unknown or unsupported: ` followed by the trimmed line.
- **The editor's translator.** This is the smaller `SimplifiedToArduino` local to `ShowMenu`, which `LaunchEditor` calls (`EditorForward`). It handles the prefixes `blink led` and `set pin`; anything else becomes `// Unknown command: ` followed by the line as typed.
- **The two line-editing loops** (`Session`): `LaunchEditor`, reached after an import, and the loop of `CreateNewProject`.
  - Each is a class with the loop's locals: `inputLines`, `output`, `currentLine`, and where the loop is (`Phase`).
  - `Step` takes one already-read console line. `None` stands for the end of input.
  - Each class is proved against a state-transition function (`EditorNext`, `ProjectNext`), and the properties are proved about those functions.
  - The import loop is the method `ImportLines`.
- **The start menu's cursor** (`Menu.Select`), driven by a sequence of keys.
- **`Interpolate`**, the integer interpolation of the banner's colour gradient, written in C# `int` arithmetic.

Case mapping is ASCII only; `\d` is `0-9` and `\w` is ASCII letters, digits and `_`.
`string.Trim` and `string.IsNullOrWhiteSpace` use the full `char.IsWhiteSpace` set. In
.NET, `$` also matches before a final `\n`, and `.` does not match `\n`; the matcher
follows both.

Where the design description and the code disagree, the model follows the code:

- The design says captured names keep their casing. The code lower-cases the whole line before matching (line 498), so every capture is lower-case, including the text of `say "..."`.
- The design says an unknown line is echoed in its original casing. The new-project translator echoes the lower-cased line (line 666); only the editor's translator keeps the casing (line 161).
- The design says the translator never throws. `wait N second(s)` throws for N above 2147483647 (line 513), and the new-project loop does not catch the exception.
- The design asks for duplicate rules to be rejected. The code has no such step, so its two repeated pin rules are simply unreachable (`ForwardLaws.PinRepeatsNeverFire`).

## Model

| member | source | states |
|---|---|---|
| Text.Trim | NeuroCode_IDE.cs:128 | the result is a slice of the input with only white space cut off on either side, and neither starts nor ends with white space |
| Text.TrimSurrounded | NeuroCode_IDE.cs:128 | trimming removes exactly the white space around a text that starts and ends with something else |
| Text.TrimEmptyIffBlank | NeuroCode_IDE.cs:275 | a trimmed line is empty exactly when the line is all white space, which is what `IsNullOrWhiteSpace` tests after `Trim` |
| Text.Lower | NeuroCode_IDE.cs:498 | `ToLower` keeps the length and maps each character on its own |
| Text.LowerFixes | NeuroCode_IDE.cs:498 | lower-casing is idempotent and its result has no capitals |
| Text.Upper | NeuroCode_IDE.cs:519 | `ToUpper` keeps the length and maps each character on its own |
| Text.UpperAnalogPin | NeuroCode_IDE.cs:519 | upper-casing `a` followed by digits gives `A` followed by the same digits |
| Text.Split | NeuroCode_IDE.cs:151 | `Split(' ')` gives at least one piece and no piece holds the separator |
| Text.SplitJoin | NeuroCode_IDE.cs:151 | the pieces of a split, joined again with the separator, give back the line |
| Text.JoinSplit | NeuroCode_IDE.cs:151 | splitting a join of separator-free pieces recovers the pieces |
| Text.Wrap32 | NeuroCode_IDE.cs:513 | unchecked `int` arithmetic: the result is a 32-bit value congruent to the input modulo 2^32, and equal to it when it fits |
| Text.NatToStringValue | NeuroCode_IDE.cs:513 | formatting a number and reading the numeral back gives the number |
| Text.NumeralValueToString | NeuroCode_IDE.cs:513 | reading a numeral without a superfluous leading zero and formatting it again gives the numeral |
| Text.IntToStringReads | NeuroCode_IDE.cs:513 | a formatted integer reads back as that integer: a minus sign for negatives, then the digits of its magnitude |
| Text.IntToStringInjective | NeuroCode_IDE.cs:513 | distinct integers are formatted differently |
| Patterns.Match | NeuroCode_IDE.cs:502-524 | a successful match returns one capture per group of the pattern |
| Patterns.MatchSpells | NeuroCode_IDE.cs:502-524 | on a well-formed pattern the matcher returns exactly the captures that spell the input, and fails exactly when none do |
| Patterns.SpellsUnique | NeuroCode_IDE.cs:502-524 | a well-formed pattern reads an input in at most one way, so the captures are determined |
| Patterns.SpellsNoLineFeed | NeuroCode_IDE.cs:502 | no text spelled by a pattern contains a line feed, since `.` excludes it |
| Patterns.AnchoredMatchSpells | NeuroCode_IDE.cs:502-524 | `^p$` matches with given captures exactly when `p` spells the whole line, or the whole line but a final line feed |
| Patterns.MatchFirstCapWord | NeuroCode_IDE.cs:538-651 | when a pattern's first group is `(\w+)`, a match captures a non-empty identifier first |
| Patterns.LeadingTextRejects | NeuroCode_IDE.cs:502-664 | a pattern that opens with literal text rejects every line that disagrees with that text |
| Forward.EscapeRoundTrip | NeuroCode_IDE.cs:503 | distinct texts escape differently: reading each `\"` back as a quote recovers the text |
| Forward.EscapedQuotesArePreceded | NeuroCode_IDE.cs:503 | after escaping, every quote is preceded by a backslash |
| Forward.Millis | NeuroCode_IDE.cs:513 | for a digit run N, a delay comes back exactly when N is at most `int.MaxValue`; it then reads as N * 1000 wrapped to 32 bits, and is the numeral of N * 1000 whenever that product fits |
| Forward.ThenAssociative | NeuroCode_IDE.cs:502-525 | joining three pieces of an interpolated string left to right does not depend on the grouping, and the first exception wins |
| Forward.RenderAppend | NeuroCode_IDE.cs:502-525 | rendering a template is rendering its two halves and joining them, an exception in either half aborting the whole |
| Forward.FirstMatchFrom | NeuroCode_IDE.cs:502-528 | the index found accepts the line and no earlier rule does; when there is none, no rule accepts the line |
| Forward.Selects | NeuroCode_IDE.cs:502-528 | a rule whose pattern spells the line, with no earlier rule accepting it, decides the result from exactly those captures |
| Forward.NoneSelects | NeuroCode_IDE.cs:528 | when no rule accepts the line, the table falls through to what follows it |
| Forward.DispatchConcat | NeuroCode_IDE.cs:527-528 | trying two tables one after the other is trying their concatenation |
| Forward.DispatchFlatten | NeuroCode_IDE.cs:536-666 | trying the groups of the extended table in turn is trying the flattened table |
| Forward.ExtendedGroupsAre | NeuroCode_IDE.cs:536-664 | the extended table is the eleven groups of rules in source order |
| Forward.HandleExtendedCommands | NeuroCode_IDE.cs:532-667 | the extended commands never throw: no extended template parses a number |
| Forward.BasicThrowsOnlyInSeconds | NeuroCode_IDE.cs:502-528 | among the basic rules, only `wait N second(s)` can throw |
| Forward.SimplifiedToArduino | NeuroCode_IDE.cs:496-529 | the translation of a line throws only when the first basic rule accepting its lower-cased form is `wait N second(s)` |
| Forward.ExtendedInGroups | NeuroCode_IDE.cs:532-667 | `HandleExtendedCommands` tries the extended groups in source order, then the unknown-command comment |
| Forward.SelectsAfter | NeuroCode_IDE.cs:502-664 | a rule answers a line that it spells and whose start rules out every earlier rule |
| Forward.NoneAfter | NeuroCode_IDE.cs:528 | a line whose start rules out every rule falls through |
| ForwardTables.BasicWellFormed | NeuroCode_IDE.cs:502-525 | every pattern of the basic table is well formed: each capture ends where the next piece must begin, and no text holds a line feed |
| ForwardTables.ExtendedWellFormed | NeuroCode_IDE.cs:536-664 | every pattern of the extended table is well formed |
| ForwardTables.RuleCaptures | NeuroCode_IDE.cs:502-664 | in a table of well-formed rules, the matcher accepts a line with given captures exactly when the rule's pattern spells the line, or the line but a final line feed |
| ForwardTables.TablesWellFormed | NeuroCode_IDE.cs:502-664 | both tables consist of well-formed rules, so every rule of the translator is read as its pattern says |
| ForwardCommands.Say | NeuroCode_IDE.cs:502-503 | `say "t"` gives `Serial.println("t");` with every inner quote escaped |
| ForwardCommands.TurnOnPin | NeuroCode_IDE.cs:504-505 | `turn on pin N` gives `digitalWrite(N, HIGH);` |
| ForwardCommands.TurnOffPin | NeuroCode_IDE.cs:506-507 | `turn off pin N` gives `digitalWrite(N, LOW);` |
| ForwardCommands.WaitSeconds | NeuroCode_IDE.cs:512-513 | `wait N second(s)` gives `delay(` N * 1000 wrapped to 32 bits `);`, and throws above `int.MaxValue` |
| ForwardCommands.WaitSecondsExact | NeuroCode_IDE.cs:512-513 | while N * 1000 fits in an `int`, the delay is exactly N * 1000 |
| ForwardCommands.WaitSecondsExactIffFits | NeuroCode_IDE.cs:513 | the delay is N * 1000 exactly when the product fits in an `int`; from 2147484 seconds on it wraps |
| ForwardCommands.WaitMilliseconds | NeuroCode_IDE.cs:514-515 | `wait N millisecond(s)` copies N unchanged into `delay(N);` |
| ForwardCommands.AnalogWritePin | NeuroCode_IDE.cs:516-517 | `analog write pin P to V` gives `analogWrite(P, V);` |
| ForwardCommands.ReadAnalogPin | NeuroCode_IDE.cs:518-519 | `read analog pin aK` gives `analogRead(AK);`, upper-casing the pin name |
| ForwardCommands.IfPin | NeuroCode_IDE.cs:524-525 | `if pin N is L` compares with `LOW` for `low` and with `HIGH` for `pressed` and `high` |
| ForwardCommands.Toggle | NeuroCode_IDE.cs:550-551 | `toggle pin N` gives `digitalWrite(N, !digitalRead(N));`, naming N twice |
| ForwardCommands.WriteAnalog | NeuroCode_IDE.cs:564-565 | `write analog V to pin P` gives `analogWrite(P, V);`, swapping the captures |
| ForwardCommands.PrintLineQuoted | NeuroCode_IDE.cs:569-570 | `print line "t"` gives `Serial.println("t");` with inner quotes left unescaped |
| ForwardCommands.BareWait | NeuroCode_IDE.cs:574-575 | `wait N` gives `delay(N);`, since neither basic wait rule accepts it |
| ForwardCommands.WaitForSeconds | NeuroCode_IDE.cs:577-578 | `wait for N seconds` gives the text `delay(N * 1000);` |
| ForwardLaws.CaseInsensitive | NeuroCode_IDE.cs:498 | a line and its lower-cased form translate alike |
| ForwardLaws.SameLowerSameCode | NeuroCode_IDE.cs:498 | two lines that agree up to case translate alike |
| ForwardLaws.RuleAnswerNotComment | NeuroCode_IDE.cs:502-664 | whatever a rule renders is non-empty and does not start with `/` |
| ForwardLaws.UnknownIffNoRule | NeuroCode_IDE.cs:666 | the result is the unknown-command comment on the lower-cased line exactly when no basic or extended rule accepts it |
| ForwardLaws.PinRepeatsNeverFire | NeuroCode_IDE.cs:544-548 | the extended `turn on/off pin` rules repeat the basic ones and never accept a line they are tried on |
| Reverse.ArduinoToSimplified | NeuroCode_IDE.cs:126-141 | the result is never empty, and starts with `/` (the unsupported-line comment) exactly when the trimmed line is none of the seven |
| Reverse.TrimsFirst | NeuroCode_IDE.cs:128 | the translation depends only on the trimmed line |
| Reverse.KnownLine | NeuroCode_IDE.cs:130-138 | each of the seven lines, with any white space around it, maps to its NeuroCode line |
| Reverse.KnownValuesNotComments | NeuroCode_IDE.cs:132-138 | no NeuroCode line of the table reads like the unsupported-line comment |
| Reverse.UnsupportedIffUnknown | NeuroCode_IDE.cs:139 | the unsupported-line comment on the trimmed line comes exactly when the trimmed line is none of the seven, compared case-sensitively |
| Reverse.KnownLinesInjective | NeuroCode_IDE.cs:132-138 | distinct known lines give distinct NeuroCode lines |
| EditorForward.SimplifiedToArduino | NeuroCode_IDE.cs:142-162 | the result is never empty, and starts with `/` (the unknown-command comment) exactly when the line neither starts with `blink led` nor starts with `set pin` with at least four tokens |
| EditorForward.Blink | NeuroCode_IDE.cs:145-148 | any line starting with `blink led` gives the fixed blink sequence |
| EditorForward.SetPin | NeuroCode_IDE.cs:149-157 | `set pin P S ...` writes P high when S is `high` in any case, and low otherwise |
| EditorForward.SetPinTooShort | NeuroCode_IDE.cs:152-161 | a `set pin` line with fewer than four space-separated tokens is unknown |
| EditorForward.UnknownIff | NeuroCode_IDE.cs:161 | the unknown-command comment on the line as typed comes exactly when neither case-sensitive prefix applies |
| Interpolation.TruncDiv | NeuroCode_IDE.cs:83 | C# division by a positive divisor rounds toward zero |
| Interpolation.Interpolate | NeuroCode_IDE.cs:80-84 | the result is a 32-bit value, and `start` when there is at most one step |
| Interpolation.InterpolateBetween | NeuroCode_IDE.cs:80-84 | without overflow, step 0 gives `start`, the last step gives `end`, and every step lies between the two |
| Menu.Press | NeuroCode_IDE.cs:112-124 | one key keeps the option in 1..4: Up moves back and Down forward, modulo 4, with wrap-around; other keys change nothing |
| Menu.Cursor | NeuroCode_IDE.cs:101-125 | after any keys, the option stays in 1..4 |
| Menu.Select | NeuroCode_IDE.cs:101-125 | the loop stops at the first Enter, with the cursor where the keys before it left it; without Enter it reads every key |
| Menu.CursorSnoc | NeuroCode_IDE.cs:110-124 | one more key moves on from where the earlier keys left the cursor |
| Menu.UpDownInverse | NeuroCode_IDE.cs:114-119 | Up undoes Down and Down undoes Up |
| Menu.CursorByCounts | NeuroCode_IDE.cs:114-119 | the final option depends only on the number of Down presses less Up presses, modulo 4 |
| Menu.FullCircle | NeuroCode_IDE.cs:114-119 | four presses of Down, or of Up, bring the cursor back |
| Session.KeywordAnyCase | NeuroCode_IDE.cs:278-303 | keywords are recognised in every casing |
| Session.Classify | NeuroCode_IDE.cs:273-311 | a read classified as code is non-empty, trimmed and no keyword |
| Session.ClassifyTrimmed | NeuroCode_IDE.cs:273-303 | a read is skipped exactly at end of input or when all white space; otherwise it is the keyword or code its trimmed text spells |
| Session.ReadInput | NeuroCode_IDE.cs:273-303 | trimming, the blank test and the keyword comparisons compute `Classify` |
| Session.Accept | NeuroCode_IDE.cs:311-315 | storing a line and its translation keeps the lists in step with the counter |
| Session.BackUndoesAccept | NeuroCode_IDE.cs:291-301 | `back` undoes the line stored last |
| Session.BackShrinks | NeuroCode_IDE.cs:293-297 | `back` keeps the lists in step and drops one entry from each, or does nothing when they are empty |
| Session.EditorOn | NeuroCode_IDE.cs:273-322 | whatever the editor reads while editing, `inputLines`, `output` and `currentLine` stay in step, and only `exit` ends the session |
| Session.EditorOnStores | NeuroCode_IDE.cs:311-315 | the editor's lists grow exactly when it reads code, by that line and its translation only |
| Session.EditorOnKeeps | NeuroCode_IDE.cs:275-309 | blank lines and keywords leave a prefix of each list |
| Session.EditorNext | NeuroCode_IDE.cs:265-323 | every read of the editor, including the one after help and the folder after `compile`, keeps its lists in step |
| Session.EditorRun | NeuroCode_IDE.cs:265-323 | after any run of reads the editor's lists are in step |
| Session.ProjectOn | NeuroCode_IDE.cs:430-476 | the project loop's lists stay in step, and it stops with an exception exactly when a line's translation throws, leaving that line stored without output |
| Session.ProjectOnStores | NeuroCode_IDE.cs:463-466 | the input list grows exactly on code, by that line; the output list gains its translation unless the translation throws |
| Session.ProjectOnKeeps | NeuroCode_IDE.cs:432-461 | blank lines and keywords leave a prefix of each list |
| Session.ProjectNext | NeuroCode_IDE.cs:420-477 | every read of the project loop, including the one after help, keeps it consistent |
| Session.ProjectRun | NeuroCode_IDE.cs:420-477 | after any run of reads the project loop is consistent |
| Session.ProjectRunTranslated | NeuroCode_IDE.cs:411-477 | a new project only ever holds storable lines, never blank or keyword lines, each beside its translation |
| Session.SameKeywords | NeuroCode_IDE.cs:435-461 | both loops treat `exit`, `back` and `help` alike; `compile` asks the editor for a folder and makes the project loop compile |
| Session.EditorWarnsIff | NeuroCode_IDE.cs:317 | the editor warns exactly when the line becomes the unknown-command comment, that is, when it starts neither with `blink led` nor with `set pin` plus enough tokens |
| Session.ProjectWarnsIff | NeuroCode_IDE.cs:471 | the project loop warns exactly when no rule accepts the lower-cased line |
| Session.Imported | NeuroCode_IDE.cs:358-363 | the import yields one NeuroCode line per sketch line |
| Session.ImportedAt | NeuroCode_IDE.cs:358-363 | line i of the import is the reverse translation of sketch line i |
| Session.ImportLines | NeuroCode_IDE.cs:358-363 | the loop builds `neuroLines` as the import of the sketch and `output` as the sketch itself |
| Session.EditorSession.constructor | NeuroCode_IDE.cs:262 | the editor starts on the imported lists, with the counter at their length |
| Session.EditorSession.Step | NeuroCode_IDE.cs:265-323 | one read moves the editor as `EditorNext` says, keeps its lists in step, and warns exactly when it stores an unknown-command translation |
| Session.EditorSession.Handle | NeuroCode_IDE.cs:275-322 | a classified read while editing moves the editor as `EditorOn` says |
| Session.EditorSession.Run | NeuroCode_IDE.cs:265-323 | a run of reads leaves the editor as `EditorRun` says, reading until the loop ends |
| Session.ProjectSession.constructor | NeuroCode_IDE.cs:411-413 | a new project starts with empty lists, counter 0 and the new-project translator |
| Session.ProjectSession.Step | NeuroCode_IDE.cs:420-477 | one read moves the loop as `ProjectNext` says, keeps it consistent, and warns exactly when it stores an unknown-command translation |
| Session.ProjectSession.Handle | NeuroCode_IDE.cs:432-476 | a classified read while editing moves the loop as `ProjectOn` says |
| Session.ProjectSession.Run | NeuroCode_IDE.cs:420-477 | a run of reads leaves the loop as `ProjectRun` says, reading until the loop ends |

## Left out

- Console output, colours, cursor placement and line-number prompts in every loop. `Console.ReadLine` and `Console.ReadKey` become input sequences, and end of input becomes `None`.
- `GradientPrinter` and the banner are left out: they do floating-point colour work and Spectre.Console markup. Only `Interpolate` is modelled.
- `AutoCompileAndUpload` and both `CompileCode` functions are left out: they launch processes and write files. The loops record only that they stop there (`Uploading(folder)`, `Compiling`).
- `HelpCenter.Show` is left out: it is a static screen. The loops record that help is showing and that the next read is consumed.
- The `CreateNewProject` spinner is left out: it uses `Random` and `Thread.Sleep`.
- The menu's `About` and `Exit` actions are left out, as are `File.Exists` and `File.ReadAllLines`. The import starts from the file's lines.
- The .NET regex engine is not modelled. The patterns of the two translators are written in a small pattern language whose matcher is proved against its declarative reading.
- Numbers are formatted as the invariant culture formats them, with `-` as the minus sign. Cultures whose minus sign is another character, such as U+2212 in some ICU cultures (sv-SE), are not modelled.
- Case mapping and `\d`/`\w` are ASCII only. .NET's culture-sensitive `ToLower`/`ToUpper` and Unicode classes are not modelled.
- `StartsWith` is ordinal. For the ASCII prefixes involved this matches the culture-sensitive comparison, except for ignorable characters.
- Session.ReadInput: the editor tests `help` before `back` and the project loop tests `back` before `help`. Both loops share one classification, because a line lower-cases to at most one keyword, so the order cannot be observed. The order of each loop is kept in `EditorOn` and `ProjectOn`.
- Session.EditorSession.constructor requires lists of equal length. The only caller, the import, builds them that way. Unequal lists can make `back` call `RemoveAt(-1)`, which the model does not cover.
- Session.ProjectSession.constructor: the translator is a constant field, set to the new-project translator. `Step` and `Run` are stated in terms of that field.
- Interpolation.InterpolateBetween assumes that `(end - start) * (totalSteps - 1)` fits in an `int`. With overflow, `Interpolate` still returns the wrapped C# value, but no ordering is claimed.
- The generated Arduino code is not checked as C. The `say` template escapes quotes but not backslashes (line 503), so a text ending in `\` yields a string literal that C reads as unclosed; the model reproduces the text as written.
- The folder read after `compile` in the editor is passed on untrimmed, as in the code. The compile itself is not modelled.
