# DualExtrude in Dafny

DualExtrude turns a G-code file for a dual-extruder printer that drives
only one toolhead into a file that drives both at once. "T0" selects the
right extruder and "T1" the left one.

The program makes two passes over the input:

- **`CheckFile`** decides which toolhead the file uses.
  - An on command (`M101`, `M102`) whose first parameter is a selector marks that side.
  - A temperature command (`M104`) that names a selector and sets a positive temperature marks that side. If it names both, it counts for the right side.
  - Seeing both sides is an error at the line that completes the pair.
  - Seeing neither side is also an error.
- **`ConvFile`** rewrites the file line by line.
  - On/off and tool-change commands (`M101`, `M102`, `M103`, `M6`) are written once for "T1" and then for "T0".
  - Temperature (`M104`) and speed (`M108`) commands are written the same way, scanning their parameters up to the unused toolhead's selector.
    - `M104` keeps the value of the last `S` parameter that converts under `%d`, or 0 if none does. `M104 S200 Sx` writes `S200`.
    - `M108` keeps the last `R` parameter, as written.
  - In a motion command (`G1`), every `E`, `A` or `B` parameter becomes an `A`/`B` pair.
    - While `FirstE` is not positive, each extrusion value read is recorded in `FirstE`, overwriting the one before, and is copied into both `A` and `B` uncorrected.
    - The first positive value recorded then stays. From then on, the new toolhead's value is corrected by the filament ratio, relative to that value.
    - So after `G1 E0`, `G1 X1 E5` and `G1 X2 E7`, `FirstE` holds 5, and 7 is corrected relative to 5.
  - Any other line, including a blank one, is copied.
  - Three errors stop the pass, each carrying the 1-based line number:
    - in `M108`, an `R` parameter longer than 15 characters before the unused selector;
    - in `M108`, no `R` parameter before the unused selector;
    - in `G1`, an `E`, `A` or `B` parameter longer than 15 characters.
  - Long parameters elsewhere are not errors. `M104 E1234567890123456 S200` converts, and so does `M108 R5 T1 R1234567890123456` when the right toolhead is in use.

The model is organised as follows:

- The process-wide state (`LeftUsed`, `RightUsed`, `FirstE`, `Ratio`) is the class `DualExtrude.DualExtruder`.
- Both passes and all their token loops are methods with `while` loops.
- Each method is proved against a pure specification:
  - `Scanner` for the first pass.
  - `Rewriter` for the second pass.
- `RewriterProps` proves what the second pass promises.
- Supporting modules:
  - `Tokens`: the tokeniser.
  - `Codes`: the command table.
  - `Numbers`: `%d` input and output.
  - `MotionProps`: the parameter-by-parameter output of a motion command.
  - `Examples`: concrete lines.

Input lines are the strings `fgets` returns, so a line need not end in `'\n'`. The last line of a file may lack it, and so does every piece but the last of a line too long for the buffer, which `fgets` returns in several pieces. The model accepts any string as a line; where such a split falls is listed under "## Left out".
Tokens are split on `' '` and `'\n'` only, as in `strtok`. A `'\r'` or a tab therefore stays inside a token.

## Behaviour worth noting

- An on, off or tool-change line whose first parameter is the unused toolhead's selector is **written unchanged**. The comment at `DualExtrude.cpp:225` says "drop it", but the `break` there leaves `buf` holding the original line, and `buf` is written at line 347. `Rewriter.OnOffStep` and `RewriterProps.OnOffLine` state this behaviour.
- The 15-character limit on `E`/`A`/`B` and `R` parameters applies to the whole token, tag included (`strlen(Token) > 15`).
- In the first-extrusion branch, the parameter text is copied verbatim into both `A` and `B`, so `E5.0` becomes `A5.0 B5.0`.
- The corrected value is `((current - first) * ratio) + first`, which is the new absolute position (`DualExtrude.cpp:314`). With ratio 1, `E7.5` after a first value of 5.0 is corrected to 7.5. `Examples.MotionExample` writes this value as the formatter's text for the parsed value, the first value and the ratio.

## Model

| member | source | states |
|---|---|---|
| Tokens.TokenLen | DualExtrude.cpp:79 | the token length covers no delimiter and stops at a delimiter or at the end |
| Tokens.SplitTokens | DualExtrude.cpp:79 | every token `strtok` returns over `" \n"` is non-empty and holds no delimiter |
| Tokens.SplitKeepsText | DualExtrude.cpp:79 | concatenating the tokens gives the line with every delimiter removed: nothing else is lost or added |
| Tokens.SplitToken | DualExtrude.cpp:215 | a token followed by a delimiter or the end is read as exactly that token |
| Tokens.SplitSpaced | DualExtrude.cpp:340 | tokens written one space apart read back as the same tokens |
| Tokens.SplitLine | DualExtrude.cpp:342 | a command, its parameters one space apart and a newline read back as the command and those parameters |
| Tokens.SpacedNoNewline | DualExtrude.cpp:340 | parameters written one space apart contain no newline |
| Codes.FindCode | DualExtrude.cpp:495-502 | the first table index at or after `i` whose entry equals the token, or `NOTOKENS` when there is none |
| Codes.CodeOf | DualExtrude.cpp:488-503 | the result is `NOTOKENS` exactly when there is no token or it is not in `CODES`; otherwise it is the index `i` with `CODES[i]` equal to the token |
| Codes.CheckCode | DualExtrude.cpp:488-503 | the lookup loop with early return computes `CodeOf` |
| Codes.CodesDistinct | DualExtrude.cpp:76 | no command appears twice in `CODES`, so an index names one command |
| Numbers.SkipSpace | DualExtrude.cpp:241 | `%d` drops a leading run of white space, and only white space: the result is a suffix of the input, everything dropped is white space, and what is left is empty or starts with a non-space |
| Numbers.DigitRun | DualExtrude.cpp:241 | `%d` reads the longest run of digits |
| Numbers.ShowNat | DualExtrude.cpp:245 | `%d` prints a non-empty digit string with no leading zero that denotes the number |
| Numbers.ScanShow | DualExtrude.cpp:245 | a temperature printed with `%d` reads back with `%d` as the same integer |
| Numbers.ShowIntChars | DualExtrude.cpp:245 | `%d` output consists of digits and a minus sign only |
| Scanner.LastTempIsLast | DualExtrude.cpp:426-436 | the temperature read is that of the last `S` parameter that converts |
| Scanner.LastTempDefault | DualExtrude.cpp:424 | with no convertible `S` parameter the temperature stays 0 |
| Scanner.MarksExclusive | DualExtrude.cpp:438-460 | one line never marks both toolheads |
| Scanner.CheckLineEffect | DualExtrude.cpp:392-461 | a line adds the side it marks, and fails exactly when it marks the side opposite to one already seen |
| Scanner.NoEvidence | DualExtrude.cpp:392-461 | a blank line, `M103`, `M108`, `M6`, `G1`, an on command without a selector first, and a temperature command whose last converting `S` is not positive (or absent) mark no side and leave the flags as they were |
| Scanner.BothSelectorsTakenAsRight | DualExtrude.cpp:438-448 | a temperature command naming both selectors with a positive temperature counts for the right side only |
| Scanner.ScanLinesMeaning | DualExtrude.cpp:387-463 | the first pass stops exactly when both sides have been seen; otherwise its flags are exactly the sides seen |
| Scanner.ScanStopLine | DualExtrude.cpp:401-457 | the pass stops (the both-extruders error) at the first line by which both sides have been seen; the model records that line, which the program does not print |
| Scanner.AnyExtend | DualExtrude.cpp:387-463 | the evidence of a file is the evidence of its lines before the last, plus that of the last line |
| Scanner.CheckFileVerdict | DualExtrude.cpp:371-478 | the file is rejected when it marks both sides or neither; otherwise it is accepted with the line count and exactly one side set, the one it marks |
| Scanner.ScanStops | DualExtrude.cpp:401-456 | once the pass has stopped, further lines change nothing |
| Rewriter.Before | DualExtrude.cpp:235-238 | the parameters scanned are a prefix without the unused selector, and they end at that selector or at the end |
| Rewriter.BeforeAt | DualExtrude.cpp:251-254 | a scan that ends at the unused selector, or at the end, has scanned exactly `Before` |
| Rewriter.SpeedOverlong | DualExtrude.cpp:256-264 | the speed scan fails for length exactly when some `R` parameter is over 15 characters |
| Rewriter.SpeedMissing | DualExtrude.cpp:269-275 | the speed scan finds nothing exactly when there is no `R` parameter |
| Rewriter.SpeedIsLast | DualExtrude.cpp:256-266 | the speed found is the last `R` parameter, and it fits the 16-byte buffer |
| Rewriter.MotionFails | DualExtrude.cpp:288-296 | a motion line fails exactly when one of its `E`/`A`/`B` parameters is over 15 characters |
| Rewriter.MotionWithoutExtrusion | DualExtrude.cpp:339-340 | a motion line without extrusion parameters is copied token by token, and `FirstE` is unchanged |
| Rewriter.SpacedSnoc | DualExtrude.cpp:340 | appending a parameter appends a space and its text |
| Rewriter.MotionKeepsFirstE | DualExtrude.cpp:312-330 | once `FirstE` is positive, no parameter changes it |
| Rewriter.MotionRecordsFirstPositive | DualExtrude.cpp:331-337 | from a non-positive `FirstE`, the value recorded is that of the first positive extrusion parameter |
| Rewriter.MotionNotYetPositive | DualExtrude.cpp:331-337 | before the first positive extrusion value, `FirstE` stays non-positive |
| Rewriter.MotionRecordsLast | DualExtrude.cpp:331-337 | when no extrusion value is positive, `FirstE` is the last extrusion value |
| Rewriter.ConvStops | DualExtrude.cpp:258-295 | once a line fails, further lines change nothing |
| Rewriter.MotionStops | DualExtrude.cpp:290-296 | once a parameter is too long, the rest of the motion line is not read |
| RewriterProps.ConvLinesShape | DualExtrude.cpp:208-348 | each line yields exactly one chunk until the first error, and the error names a line of the file that directly follows the chunks written |
| RewriterProps.ConvLineErrorAt | DualExtrude.cpp:262 | a failing line reports its own number |
| RewriterProps.ConvLinesChunk | DualExtrude.cpp:209-347 | chunk `k` is what line `k` yields with the `FirstE` the earlier lines left |
| RewriterProps.PassThrough | DualExtrude.cpp:215-347 | a line whose first token is none of the seven commands is written exactly as read |
| RewriterProps.OnlyMotionSetsFirstE | DualExtrude.cpp:336 | only a motion line can change `FirstE` |
| RewriterProps.ConvLineKeepsFirstE | DualExtrude.cpp:312 | no line changes a positive `FirstE` |
| RewriterProps.FirstEFixedOnceSet | DualExtrude.cpp:312-337 | once `FirstE` is positive, no line of the file changes it |
| RewriterProps.SplitHalf | DualExtrude.cpp:229 | one half of a duplicated command reads back as the command, its parameters and the selector |
| RewriterProps.SplitPair | DualExtrude.cpp:229 | a duplicated command reads back as the command and its parameters for "T1", then again for "T0" |
| RewriterProps.SplitPairOne | DualExtrude.cpp:245 | the same for a command with a single parameter |
| RewriterProps.ParamsAreTokens | DualExtrude.cpp:222 | every parameter of a line is a token |
| RewriterProps.BeforeAreTokens | DualExtrude.cpp:235 | every parameter scanned is a token |
| RewriterProps.OnOffLine | DualExtrude.cpp:217-230 | addressed to the unused toolhead, the line is written unchanged; otherwise it becomes exactly `<cmd> T1\n<cmd> T0\n`, the bare command for "T1" then "T0" with every parameter dropped, and reads back as those four tokens |
| RewriterProps.ShowIntIsToken | DualExtrude.cpp:245 | the printed `S` parameter contains no delimiter |
| RewriterProps.TempLine | DualExtrude.cpp:231-246 | a temperature command becomes exactly `M104 S<t> T1\nM104 S<t> T0\n`, where `<t>` is the `%d` text of the last temperature before the unused selector (0 when there is none); the lines read back as those tokens and `S<t>` reads back as the same temperature |
| RewriterProps.TempStepReadsBack | DualExtrude.cpp:245 | the written temperature pair reads back as the command and the temperature for each selector |
| RewriterProps.TempPairReadsBack | DualExtrude.cpp:245 | an `S` token written into the pair reads back as itself |
| RewriterProps.TempTokenReadsBack | DualExtrude.cpp:241-245 | the temperature written reads back as the same temperature |
| RewriterProps.SpeedLine | DualExtrude.cpp:247-279 | a speed command fails with the length error iff an `R` parameter before the unused selector is over 15 characters, and with the missing-speed error iff there is no such `R` parameter; it is written iff neither holds, and then the chunk is exactly `M108 <R> T1\nM108 <R> T0\n`, two lines carrying the last `R` parameter `<R>` as written, which read back as those tokens |
| RewriterProps.SpeedStepMeaning | DualExtrude.cpp:251-278 | the speed step, given the parameters and the unused selector: the length error, the missing-speed error and the written chunk each happen exactly under the conditions above, and `FirstE` is unchanged |
| RewriterProps.SpeedScanCases | DualExtrude.cpp:251-270 | the speed scan ends in each of its three outcomes (too long, missing, found) exactly when the parameters say so |
| RewriterProps.SpeedStepEmits | DualExtrude.cpp:277-278 | a speed found is written for both selectors, as exactly `M108 <R> T1\nM108 <R> T0\n` with `<R>` the last `R` parameter, and reads back as itself |
| RewriterProps.SpeedStepText | DualExtrude.cpp:278 | the speed chunk is exactly the two lines `M108 <R> T1` and `M108 <R> T0`, `<R>` being the speed found |
| RewriterProps.MotionLineFails | DualExtrude.cpp:288-296 | a motion line fails, with its own number, exactly when an `E`/`A`/`B` parameter is over 15 characters |
| RewriterProps.MotionLineCopied | DualExtrude.cpp:280-343 | a motion line without extrusion parameters becomes one line with the same tokens in the same order, ending in its only newline |
| MotionProps.OthersAppend | DualExtrude.cpp:284-341 | the non-extrusion parameters and the extrusion count of two parameter lists joined are those of each, joined or added |
| MotionProps.SpacedAppend | DualExtrude.cpp:340 | writing two parameter lists one space apart is writing each in turn |
| MotionProps.StepText | DualExtrude.cpp:288-340 | one parameter appends its output parameters to the line, one space apart |
| MotionProps.MotionText | DualExtrude.cpp:281-341 | the motion text is `G1` followed by the output parameters, one space apart |
| MotionProps.ParamOutShape | DualExtrude.cpp:312-340 | one extrusion parameter gives exactly two `A`/`B` parameters, any other parameter gives itself, and no output parameter is an `E` |
| MotionProps.MotionParamsShape | DualExtrude.cpp:284-341 | every `E`/`A`/`B` parameter becomes exactly two extrusion parameters, every other parameter is copied in order, and no `E` parameter is left |
| MotionProps.MotionParamsTokens | DualExtrude.cpp:323-340 | every output parameter is a single token, given that the printed corrected value holds no delimiter |
| MotionProps.MotionLineReadsBack | DualExtrude.cpp:280-343 | a motion line converts exactly when no extrusion parameter is too long, and its output reads back as `G1` followed by the output parameters |
| DualExtrude.ScanTemp | DualExtrude.cpp:422-436 | the `M104` loop of the first pass notes each selector seen and the last temperature that converts |
| DualExtrude.TempBefore | DualExtrude.cpp:232-242 | the `M104` loop of the second pass stops at the unused selector and keeps the last temperature |
| DualExtrude.SpeedBefore | DualExtrude.cpp:248-267 | the `M108` loop stops at the unused selector, fails on an over-long `R` parameter, and keeps the last one |
| DualExtrude.BeforeOverlong | DualExtrude.cpp:258-264 | an over-long `R` parameter before the stop makes the whole scan fail |
| DualExtrude.TempChunk | DualExtrude.cpp:231-246 | the temperature command's chunk is the `TempStep` pair built from the temperature the loop found |
| DualExtrude.SpeedChunk | DualExtrude.cpp:247-279 | the speed command's chunk or error is what `SpeedStep` gives |
| DualExtrude.ConvertCommand | DualExtrude.cpp:215-279 | every line other than a motion command yields the chunk or error `CodeStep` gives, the unused-toolhead line written as read |
| DualExtrude.DualExtruder.constructor | DualExtrude.cpp:95-99 | neither side is used and no extrusion value is recorded yet |
| DualExtrude.DualExtruder.CheckFile | DualExtrude.cpp:371-478 | the loop over lines sets the side flags and returns the verdict the first-pass specification gives |
| DualExtrude.DualExtruder.ConvMotion | DualExtrude.cpp:280-341 | the `G1` loop builds the motion text and updates `FirstE` as `MotionOf` says |
| DualExtrude.DualExtruder.ConvertLine | DualExtrude.cpp:211-347 | one line of the second pass yields the chunk or the error that `ConvLine` gives, and the new `FirstE` |
| DualExtrude.DualExtruder.ConvFile | DualExtrude.cpp:170-357 | the loop over lines writes exactly the chunks of `ConvLines`, stops at its error, and otherwise reports every line processed |
| DualExtrude.Run | DualExtrude.cpp:141-158 | the second pass runs only after an accepted first pass, with the side that pass found and `FirstE` at 0; a rejected file gets no output |
| Examples.UnusedOnExample | DualExtrude.cpp:222-225 | for a right-toolhead file, `M101 T1` is written as read |
| Examples.OnOffExamples | DualExtrude.cpp:217-230 | for a right-toolhead file, `M101 T1` is written as read, and `M101 T0` becomes `M101 T1` and `M101 T0` |
| Examples.UsedOnExample | DualExtrude.cpp:217-230 | for a right-toolhead file, `M101 T0` becomes `M101 T1` and `M101 T0` |
| Examples.MotionSplits | DualExtrude.cpp:79 | the two example motion lines tokenise into their command and parameters |
| Examples.FirstMotionLine | DualExtrude.cpp:331-337 | `G1 X10 E5.0` with no recorded value becomes `G1 X10 A5.0 B5.0` and records 5.0 |
| Examples.FirstMotionText | DualExtrude.cpp:281-341 | the motion text of `X10 E5.0` with no recorded value is `G1 X10 A5.0 B5.0`, and 5.0 is recorded |
| Examples.LaterMotionLine | DualExtrude.cpp:312-324 | `G1 X20 E7.5` after 5.0 was recorded, right toolhead in use, becomes `G1 X20 B<corrected> A7.5` |
| Examples.MotionFileChecked | DualExtrude.cpp:387-477 | `M101 T0` followed by two motion lines is accepted for the right side |
| Examples.MotionFileConverted | DualExtrude.cpp:208-348 | the second pass over that file writes the three chunks above and ends with `FirstE` at 5.0 |
| Examples.ConvLinesNext | DualExtrude.cpp:209-347 | a line that converts appends its chunk to those written for the lines before it |
| Examples.MotionExample | DualExtrude.cpp:141-158 | both passes over the concrete three-line file, ratio 1 |
| Examples.CheckLineExamples | DualExtrude.cpp:394-418 | `M101 T0` marks the right side, and `M101 T1` after it is the both-extruders error |
| Examples.CheckExample | DualExtrude.cpp:387-477 | those two lines are rejected at line 2; the first alone is accepted |

## Left out

- File I/O is not modelled: opening, reading and writing files, their error messages, and closing files. The input is a sequence of lines and the output a sequence of chunks.
- `fgets` chunking is not modelled. A line longer than 999 characters (1023 in the first pass) is read in several pieces, each counted as a line. The model takes each line whole.
- The fixed 1002-byte output buffer is not modelled, and neither is an overflow of it by a long rewritten motion line.
- Argument handling in `main` is not modelled: the usage text, the diameter arguments, the 1.5 to 2.2 range check and the ratio formula. `Ratio` is a parameter.
- Floating point is not modelled. The `%lf` parse of an extrusion value and the `%.5f` text of the corrected value are carried as function-valued parameters (`Rewriter.Numerics`). The rounding formula and NaN behaviour are not modelled.
- Numbers.ScanInt: does not model 32-bit `int` overflow of `%d`, because integers are unbounded here. An out-of-range temperature is undefined behaviour in C.
- MotionProps.MotionLineReadsBack: it assumes that the printed corrected value holds no space or newline (`MotionProps.FormatsTokens`). This holds for `%.5f` output, but the formatter is a parameter here.
- Embedded NUL bytes in a line are not modelled.
- Each Dafny `char` of a line stands for one byte of the file. The 15-character limits are `strlen` byte counts, and no text encoding is decoded. A multi-byte UTF-8 character counts as several characters here, as it does in the program.
- Console messages (`printf` diagnostics and the line counts) are not modelled; the outcomes are values instead. The second pass's errors carry the line number the program prints. The both-extruders error (`ERROR_BOTH`, `DualExtrude.cpp:66`) is printed without a line number; `Scanner.BothUsed` carries the line where the pass stops, which the program never prints.
