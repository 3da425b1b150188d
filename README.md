# Level-meter readout: protocol, acquisition and log selection

This project models the software around a custom level-meter readout board.
The board is reached through a USB-to-serial converter and speaks a line
protocol. The modelled software does three things.

- **Board protocol** (`setup_device.py`):
  - finds the converter's port in a port listing;
  - initialises the board with the `echo`, `verbose`, `debug` and speed commands;
  - asks for single- or multi-channel capacitance readings with `"<mode> <channel> <n>\n"`;
  - decodes the lines the board answers.
- **Acquisition script** (`run_measurement.py`):
  - checks with `getmode` that the board is still configured;
  - parses the channels the operator types;
  - loops over measurement cycles, appending rows to CSV files under
    `./outputs/` and starting a new file every 2000 saved cycles.
- **Plotting** (`plotting.py`):
  - picks the newest `levelmeters_<second>.csv` log;
  - labels channels 1 to 6 as the short level meters, the long level meters and the reference.

## Modules

- `Outcomes`: the faults the code raises, as values, plus `Result` and `Option`.
- `Text`: the string operations the code relies on:
  - `lower`, `strip`, `split` and `' '.join`;
  - deleting `' \r\n'`;
  - `re.findall(r'\d+', …)`;
  - `str(int)`.
- `Decimal`: the float conversion of a cleaned answer line, as an exact
  grammar over reals: an optional sign, digits, and an optional point with digits.
- `PyValues`: the dynamically typed arguments. Python's tests are stated for
  every kind of value:
  - `type(n) is int` refuses `True`;
  - `x in range(1, 7)` admits `True` and `2.0`;
  - `if echo:` is truthiness;
  - f-string rendering.
- `Serial`: the serial handle as a class. It holds the log of written strings
  and the queue of pending lines, which `readlines()` drains completely. The
  wall clock is a class that returns `time(k)` at its k-th reading.
- `Board`: `find_port`, `setup_device`, `read_channel` and `read_channels`.
- `Acquisition`: the `getmode` check, the channel input parser, the read
  dispatch, the file names and the measurement loop with its rotation counter.
- `Plotting`: the latest-file selection and the label map.
- `LogRoundTrip`: connects the acquisition's file names with the plotter's
  choice of file.

## Model

| member | source | states |
|---|---|---|
| Text.NatToString | setup_device.py:192 | the decimal text of `n` is all digits, reads back as `n`, has no leading zero, and is one character exactly when n < 10 |
| Text.IntToString | setup_device.py:192 | `str(i)`: at least one character; the natural-number text for i >= 0, and `-` followed by the text of -i for i < 0 |
| Text.NatToStringInjective | setup_device.py:192 | two naturals with the same text are equal |
| Text.IntToStringInjective | run_measurement.py:81 | two integers with the same text are equal |
| Text.NatToStringOfDigits | plotting.py:39-40 | a digit string without a leading zero is the text of its own value |
| Text.DigitsValue | plotting.py:39 | `int()` of a digit string, most significant digit first; `Text.NatToString` and `Text.NatToStringOfDigits` state that it inverts `str()` |
| Text.DigitChar | plotting.py:62 | a digit value below 10 gives a digit character that reads back as that value |
| Text.Lower | setup_device.py:33 | lowercasing keeps the length and maps every character through the ASCII lowercase map |
| Text.Contains | setup_device.py:33 | `name in el`: modelled as a prefix test at each position; `Text.ContainsAt` states it |
| Text.ContainsAt | setup_device.py:33 | `needle in hay` holds exactly when the needle occurs at some position of the text |
| Text.BeforeFirst | setup_device.py:39 | `s.split(sep)[0]`: a prefix of `s` with no occurrence of `sep` starting in it, which is either all of `s` or followed by `sep` |
| Text.Split | setup_device.py:31 | `s.split(c)` gives at least one piece, and no piece contains the separator |
| Text.JoinSplit | setup_device.py:31 | joining the pieces of a split with the separator gives back the original text |
| Text.SplitNoSeparator | setup_device.py:31 | text without the separator splits into itself alone |
| Text.SplitAfterPiece | setup_device.py:31 | a separator-free piece followed by the separator splits off as the first piece |
| Text.Clean | setup_device.py:196 | deleting `' \r\n'` leaves none of those characters and never lengthens the line; with `Text.CleanAppend`, `Text.CleanAllNoise` and `Text.CleanKeeps`, every noise character is deleted and every other character kept, in order |
| Text.CleanAppend | setup_device.py:196 | deletion works character by character: cleaning a concatenation concatenates the cleaned parts |
| Text.CleanKeeps | setup_device.py:196 | a line without those characters is unchanged |
| Text.CleanAllNoise | setup_device.py:196 | a text made only of spaces, carriage returns and line feeds cleans to the empty text |
| Text.StripLeft | run_measurement.py:62-63 | removes every leading `c`: the result is a suffix of the input, what was removed is all `c`, and the result does not start with `c` |
| Text.StripRight | run_measurement.py:62-63 | removes every trailing `c`: the result is a prefix of the input, what was removed is all `c`, and the result does not end with `c` |
| Text.Strip | run_measurement.py:62-63 | `s.strip(c)` as `rstrip` after `lstrip`; `Text.StripEnds` states what it keeps |
| Text.StripEnds | run_measurement.py:62-63 | after `strip(c)` the text neither starts nor ends with `c` |
| Text.DigitPrefix | plotting.py:38 | the length of the longest all-digit prefix; the character after it is no digit |
| Text.DigitRuns | plotting.py:38 | `re.findall(r'\d+', s)`: every run is non-empty and all digits |
| Text.DigitRunsEmpty | plotting.py:38-39 | there is no run exactly when the text has no digit, which makes `el[0]` raise |
| Text.DigitRunsSkip | plotting.py:38 | a digit-free prefix contributes no run |
| Text.DigitPrefixOfRun | plotting.py:38 | a run of digits followed by a non-digit has exactly that run as its digit prefix |
| Text.DigitRunsFirst | plotting.py:38 | a digit run that ends at a non-digit is the first match, and the rest of the text gives the remaining matches |
| Text.SpaceJoin | run_measurement.py:66 | `' '.join(s)` has 2·\|s\|-1 characters for non-empty `s`: the characters of `s` at the even positions, in order, and a space at every odd position |
| Text.DigitSingletons | run_measurement.py:66-67 | every element is a single digit |
| Text.DigitRunsOfSpaceJoin | run_measurement.py:66-67 | joining with spaces and then taking digit runs gives each digit of the input on its own, in order |
| Decimal.ParseDecimalAccepts | setup_device.py:196-197 | conversion succeeds exactly on texts with an optional sign, at least one digit, and at most one point |
| Decimal.ParseDecimal | setup_device.py:197 | `astype(float)` of one cleaned line: `Decimal.ParseDecimalAccepts`, `Decimal.ParseDecimalOfInt`, `Decimal.ParseDecimalOfParts` and `Decimal.ParseDecimalSigned` state when it succeeds and what value it gives |
| Decimal.ParseDecimalSigned | setup_device.py:197 | a leading `-` negates the value of the unsigned text after it, and a leading `+` keeps it |
| Decimal.NegativeExample | setup_device.py:197 | the answer `-0.12` converts to -0.12 |
| Decimal.PlusExample | setup_device.py:197 | the answer `+1.5` converts to 1.5 |
| Decimal.ParseDecimalOfInt | setup_device.py:197 | the decimal text of any integer converts back to that integer |
| Decimal.ParseDecimalOfParts | setup_device.py:197 | whole digits, a point and fraction digits convert to the whole value plus the fraction the digits denote |
| Decimal.ParseUnsignedOfFraction | setup_device.py:197 | unsigned whole digits, a point and fraction digits convert to the whole value plus the fraction |
| Decimal.ParseUnsignedSplit | setup_device.py:197 | after a full run of whole digits, the rest of the text alone decides the fraction |
| Decimal.FractionValue | setup_device.py:197 | the digits after the point denote a value between 0 and 1 |
| Decimal.ParseExample | setup_device.py:196-197 | `1.23`, `4.56` and `7.89` convert to those exact values |
| Decimal.FractionExample | setup_device.py:197 | a one-digit whole part with two decimals converts to the value they denote |
| PyValues.ChannelText | setup_device.py:192 | the f-string of an accepted channel is non-empty and holds neither a space nor a line feed |
| PyValues.ChannelTextInjective | setup_device.py:185-192 | different accepted channel values are written as different text |
| PyValues.Truthy | setup_device.py:96-109 | `if flag:`: zero numbers, `False`, empty strings and lists and `None` are false; `Board.SetupDevice` states which command each flag selects |
| PyValues.IsChannel | setup_device.py:185 | `v in range(1, 6+1)`: the integers 1 to 6, `True` and the integral floats 1.0 to 6.0; `PyValues.ChannelText` and `Board.CheckChannelRequest` state its use |
| Serial.SerialPort.Write | setup_device.py:97 | `ser.write` appends the string to the write log and leaves the pending lines alone |
| Serial.SerialPort.ReadLines | setup_device.py:118 | `ser.readlines()` returns every pending line, in order, and leaves none |
| Serial.Clock.Now | setup_device.py:241 | `time.time()` returns the reading for the current index and advances the index by one |
| Board.Filter | setup_device.py:33 | the list comprehension keeps only elements of the input that pass the test, and never more than the input holds |
| Board.FilterNone | setup_device.py:33-37 | the filtered list is empty exactly when no element passes |
| Board.FilterTwo | setup_device.py:33-35 | at least two elements are kept exactly when two distinct positions pass |
| Board.FilterOne | setup_device.py:33-39 | exactly one element is kept exactly when a single position passes, and the kept element is that one |
| Board.SelectPortNone | setup_device.py:33-37 | `find_port` fails with "no port" exactly when no lowercased line contains the name |
| Board.SelectPortMultiple | setup_device.py:33-35 | `find_port` fails with "multiple ports" exactly when two distinct lines match |
| Board.SelectPortUnique | setup_device.py:31-39 | `find_port` succeeds exactly when one line matches, and returns that line's text before the first `" - "` |
| Board.SelectPort | setup_device.py:33-39 | the selection step of `find_port`; `Board.SelectPortNone`, `Board.SelectPortMultiple` and `Board.SelectPortUnique` state its three outcomes |
| Board.NameMatches | setup_device.py:33 | `name in el.lower()`, with `name` itself not lowercased; `Text.ContainsAt` states what `in` means and the SelectPort lemmas use it as the test |
| Board.FindPort | setup_device.py:31-39 | `find_port` on the listing text split at line feeds; the SelectPort lemmas state its outcomes |
| Board.FlagCommands | setup_device.py:96-109 | `echo`, `verbose` and `debug`, each `1` or `0` by its flag's truthiness; `Board.SetupDevice` states that they are written first, in this order |
| Board.SpeedCommand | setup_device.py:111-116 | `f`/`fast` give `f\n`, `s`/`slow` give `s\n`, and every other speed is refused |
| Board.SetupDevice | setup_device.py:96-124 | writes the echo, verbose and debug commands, each chosen by its flag's truthiness, then the speed command, and drains the echo. An unknown speed fails after the first three writes, with the input queue untouched |
| Board.IntToStringNoSpace | setup_device.py:192 | an integer's text has no space, so it stays one field of the command |
| Board.MeasureCommand | setup_device.py:192 | `f'{mode} {channel} {n_readings}\n'`; `Board.MeasureCommandFields` and `Board.MeasureCommandInjective` state its fields and that it identifies its arguments |
| Board.MeasureCommandFields | setup_device.py:192 | the command is a line of exactly three space-separated fields: the mode, the channel text and the count text |
| Board.MeasureCommandInjective | setup_device.py:192 | different accepted (mode, channel, count) triples give different command lines |
| Board.CleanAll | setup_device.py:196 | every line has `' \r\n'` deleted, one result per line, in order |
| Board.ParseAll | setup_device.py:196-197 | succeeds exactly when every text converts, and then gives one value per text, in order |
| Board.ParseAllError | setup_device.py:196-197 | a failed conversion names the first text that does not convert |
| Board.DecodeLines | setup_device.py:193-197 | no line fails with NoData; otherwise the result is the values of the cleaned lines, in order, or an error naming the first bad line |
| Board.Shape | setup_device.py:199-200 | a single value is unwrapped; `Board.ShapeRoundTrip` states that nothing is lost |
| Board.ShapeRoundTrip | setup_device.py:199-202 | unwrapping a single value loses nothing, and the result is a scalar exactly when there was one value |
| Board.ChannelOutcome | setup_device.py:193-202 | the result of `read_channel` after the drain; `Board.ChannelOutcomeCorrect` states it |
| Board.ChannelOutcomeCorrect | setup_device.py:193-202 | `read_channel` fails with NoData exactly on no line, succeeds exactly when there is a line and every cleaned line converts, and otherwise fails with the fault of the decoding, which names the first bad line. On success it returns the decoded lines in order, as a scalar exactly when one line was read |
| Board.TerminatedLine | setup_device.py:196 | a `\r\n`-terminated line cleans to its text |
| Board.DecodeTwoLines | setup_device.py:196-202 | two terminated numeric lines decode to an array of both values, in order |
| Board.DecodeOneLine | setup_device.py:196-202 | one terminated numeric line decodes to its bare value |
| Board.SeriesExample | setup_device.py:196-202 | the answers `1.23` and `4.56`, each `\r\n`-terminated, decode to the array [1.23, 4.56] |
| Board.ScalarExample | setup_device.py:193-202 | the single answer `7.89` decodes to the bare value 7.89, and no answer is an error |
| Board.CheckChannelRequest | setup_device.py:185-192 | the three checks in source order: an out-of-range channel first, then a count that is not exactly `int`, then a mode outside {r, a}. When all pass, the command is the measurement command |
| Board.IsMode | setup_device.py:189 | `mode in ['r', 'a']`; `Board.CheckChannelRequest` and `Board.PlanChannels` state that any other mode is refused with ModeInvalid |
| Board.ReadChannel | setup_device.py:175-202 | a refused argument writes nothing and leaves the queue alone. Otherwise exactly one command is written, the queue is drained, and the result is the decoding of the drained lines |
| Board.ResolveSelector | setup_device.py:216-231 | a list is accepted unchanged exactly when every entry passes the channel test. `a`, `s` and `l` give [1..5], [1,2,3] and [4,5]. Anything else is refused |
| Board.PlanChannels | setup_device.py:216-236 | the selector is checked first, then the count type, then the mode; success carries the resolved channels, which all pass the channel test |
| Board.Commands | setup_device.py:239-240 | one measurement command per channel, in channel order |
| Board.Stamps | setup_device.py:241 | the i-th timestamp is the clock's i-th reading from the start |
| Board.Zip | setup_device.py:249-250 | row i is (channel i, timestamp i, value i), with as many rows as the shortest input |
| Board.ChannelsOutcomeCorrect | setup_device.py:243-250 | `read_channels` fails with NoData exactly on no line, succeeds exactly when there is a line and every cleaned line converts, and otherwise fails with the fault of the decoding. On success it has min(channels, lines) rows, and row i pairs channel i and timestamp i with line i's value |
| Board.MissingAnswerDropsLast | setup_device.py:249-250 | when the board answers one line for two channels, the line is paired with the first channel and the second channel is dropped silently |
| Board.ChannelsOutcome | setup_device.py:243-250 | the result of `read_channels` after the drain; `Board.ChannelsOutcomeCorrect` states it |
| Board.SendCommands | setup_device.py:238-242 | the write loop appends exactly the given commands, in order. It reads the clock once per command into `timestamps[i]` and leaves the queue alone |
| Board.ReadChannels | setup_device.py:205-252 | a refused argument writes nothing and reads no clock. Otherwise it writes every command, drains once, and returns the rows of the drained lines with the timestamps read |
| Acquisition.ConfigMatchesExactly | run_measurement.py:49 | the answer is accepted exactly when it is four lines that clean to `Sf`, `V0`, `E0`, `D0` in that order |
| Acquisition.ConfigMatches | run_measurement.py:47-49 | the cleaned `getmode` answer equals `['Sf', 'V0', 'E0', 'D0']`; `Acquisition.ConfigMatchesExactly` states it line by line |
| Acquisition.ConfigExamples | run_measurement.py:47-50 | a configured board's terminated answer is accepted, and a three-line answer is not |
| Acquisition.CheckConfig | run_measurement.py:44-56 | writes `getmode\n` and drains the queue. It keeps the device exactly when the answer matches; any mismatch leads to building a new device |
| Acquisition.ParseChannelInput | run_measurement.py:62-70 | the parsed input is always a string or a list, so the type test after it never raises |
| Acquisition.NormalizeChannelInput | run_measurement.py:62-64 | strips `"` and then `'` from both ends and lowercases; `Acquisition.DigitsNormalized` and `Acquisition.QuotedLetterExample` state its effect |
| Acquisition.DigitChannels | run_measurement.py:66-68 | every channel taken from the text is an integer from 0 to 9 |
| Acquisition.IntsOfSingletons | run_measurement.py:68 | converting the single-digit runs gives the digits of the text as integers, in order |
| Acquisition.IntsOf | run_measurement.py:68 | `[int(el) for el in channels]`: one integer per digit run, in order; `Acquisition.IntsOfSingletons` states its value on single digits |
| Acquisition.ParseChannelInputDigits | run_measurement.py:62-68 | after stripping and lowercasing, the input stays a string exactly when it is `a`, `s` or `l`. Otherwise it becomes the list of its digits, one per channel, with non-digits dropped |
| Acquisition.DigitChannelsInRange | run_measurement.py:66-68 | every channel parsed from the text passes the range test exactly when each digit in the text is 1 to 6 |
| Acquisition.AllChannelsAppend | setup_device.py:217-219 | a concatenation passes the per-entry channel test exactly when both parts do |
| Acquisition.ChannelInputAccepted | run_measurement.py:62-68 | the argument checks of `read_channels` (setup_device.py:216-236) accept the typed text exactly when it is a selector letter or each digit in it is 1 to 6 |
| Acquisition.DigitsNormalized | run_measurement.py:62-64 | typed digits pass through the quote stripping and lowercasing unchanged |
| Acquisition.LowerOfDigits | run_measurement.py:64 | lowercasing leaves digits alone |
| Acquisition.TypedTenExample | run_measurement.py:66-68 | `10` asks for channels 1 and 0, not channel 10, and is refused because of the 0 |
| Acquisition.QuotedLetterExample | run_measurement.py:62-65 | a quoted selector letter in either case normalises to the lowercase selector |
| Acquisition.StripUntouched | run_measurement.py:62-63 | text that neither starts nor ends with the character is left alone by `strip` |
| Acquisition.ReadKindFor | run_measurement.py:85-88 | `moxa` and `ftdi_dual` are read as the readout board, `ftdi_ft230x` as the Smartec board, and no other name selects a read |
| Acquisition.LoopModeAccepted | run_measurement.py:86 | the loop's averaged mode `a` passes the mode check of `read_channels` (setup_device.py:216-236) for every selector and integer count, so a cycle is refused only for its channels |
| Acquisition.TruncToInt | run_measurement.py:81 | `int()` of a float; `Acquisition.TruncToIntBounds` states it truncates toward zero |
| Acquisition.FileAt | run_measurement.py:81 | the file named after `int(time.time())`; `Acquisition.OutputPathSameSecond` states when two readings share it |
| Acquisition.OutputPath | run_measurement.py:93 | `./outputs/levelmeters_<second>.csv`; `Acquisition.OutputPathInjective` states that it determines the second |
| Acquisition.LogFileName | run_measurement.py:93 | `levelmeters_<second>.csv`; `LogRoundTrip.SameName` states that it is the plotter's name for that second |
| Acquisition.TruncToIntBounds | run_measurement.py:81 | `int()` of a clock reading truncates toward zero: the result lies within one of the reading, on the side of zero |
| Acquisition.OutputPathInjective | run_measurement.py:93 | two file names are equal exactly when their seconds are |
| Acquisition.OutputPathSameSecond | run_measurement.py:93 | two clock readings name the same file exactly when they truncate to the same second |
| Acquisition.Completed | run_measurement.py:83-100 | counts the leading cycles that run to the end, with or without rows; the cycle after them, if any, was interrupted or raised |
| Acquisition.StopOf | run_measurement.py:83-100 | the reason the loop ends; `Acquisition.StopAtFirstUnfinished` and `Acquisition.Acquire` state it |
| Acquisition.StopAtFirstUnfinished | run_measurement.py:83-100 | the loop ends at the first cycle that does not run to the end: Ctrl+C stops it, and any other exception stops it with that exception's fault |
| Acquisition.RotationStep | run_measurement.py:92-97 | a counter that is a multiple of 2000 opens one more file; any other counter keeps the file of the cycle before |
| Acquisition.SaveStep | run_measurement.py:92-97 | the clock reading that names saved cycle d's file is the one taken at cycle d when d is a multiple of 2000, and otherwise that of cycle d-1 |
| Acquisition.RotationBoundary | run_measurement.py:92-93 | consecutive saved cycles change file exactly when the later counter is a multiple of 2000, and then by one reading; the reading taken before the loop names no file |
| Acquisition.SavedLog | run_measurement.py:91-97 | saved cycle j appends its rows to the file named by clock reading 1 + j div 2000 |
| Acquisition.SavedLogStep | run_measurement.py:94-97 | one more saved cycle adds exactly its own append at the end of the log |
| Acquisition.CurrentFile | run_measurement.py:92-93 | a counter that is a multiple of 2000 reads the clock and names a new file; otherwise the current file is kept and the clock is not read. Either way the file is the one named by reading 1 + it div 2000 of the loop |
| Acquisition.SaveCycle | run_measurement.py:91-97 | saving one measured cycle turns the log of the first `it` saved cycles into the log of the first `it + 1`, and keeps the count of clock readings |
| Acquisition.Acquire | run_measurement.py:75-100 | the loop runs on through cycles with or without rows and stops only at Ctrl+C or at another exception, which ends the script. With saving on, it reads the clock once before the loop and once more per 2000 saved cycles, and appends each cycle's rows to the file of its own 2000-block. With saving off, nothing is appended and the clock is not read |
| Plotting.LogNames | plotting.py:37 | keeps exactly the names starting with `levelmeters` and only names from the directory |
| Plotting.Prefixed | plotting.py:37 | every matching name is prefixed with the data path |
| Plotting.Glob | plotting.py:37 | `glob.glob(data_path + 'levelmeters*')`: the matching names, each prefixed with the data path; `Plotting.LogNames` and `Plotting.Prefixed` state both steps |
| Plotting.LeadingNumber | plotting.py:38-39 | the first digit run of a path fails exactly when the path has no digit |
| Plotting.Dates | plotting.py:38-39 | every path's leading number, in order; the first path without a digit makes it fail |
| Plotting.Max | plotting.py:39 | the maximum is an element of the list and at least every element |
| Plotting.LatestDate | plotting.py:38-39 | the chosen date is some path's leading number and at least every other; no file gives NoLogFiles; a digit-free path gives its own fault |
| Plotting.DatedNameNumber | plotting.py:38-40 | the leading number of `levelmeters_<n>.csv` is n |
| Plotting.DatedName | plotting.py:40 | `'levelmeters_{}.csv'.format(latest_date)`; `Plotting.DatedNameNumber` and `Plotting.DatedNameInjective` state that the date reads back and that different dates give different names |
| Plotting.LeadingNumberBehind | plotting.py:37-38 | a digit-free directory does not change a path's leading number |
| Plotting.DatesBehind | plotting.py:37-39 | prefixing a digit-free directory changes no date and fails exactly when the bare names fail |
| Plotting.LoadedFileAgrees | plotting.py:37-43 | with a digit-free data path, the file loaded as written and the intended file are the same, and one fails exactly when the other does |
| Plotting.LoadedFile | plotting.py:37-43 | the file `__init__` loads as written, dated by the whole path; `Plotting.DirectoryDigitDecides` and `Plotting.DirectoryDigitExample` state the consequence |
| Plotting.LoadedFileFixed | plotting.py:37-43 | the intended file, dated by the file name only; `Plotting.LoadedFileFixedNewest` states that it is the newest log |
| Plotting.DatedNames | plotting.py:40 | the k-th name is `levelmeters_<dates[k]>.csv` |
| Plotting.DatedNameIsLogName | plotting.py:37-40 | every dated name matches the `levelmeters*` pattern |
| Plotting.LogNamesOfDatedNames | plotting.py:37 | the pattern keeps every dated name |
| Plotting.LoadedFileFixedNewest | plotting.py:37-43 | the corrected selection over the logger's names loads `levelmeters_<max date>.csv` under the data path |
| Plotting.DatesOfNumbers | plotting.py:38-39 | paths whose leading numbers are known give exactly those dates, in order |
| Plotting.DirectoryDigitDecides | plotting.py:37-43 | as written, a digit in the data path fixes the date of every candidate, so the file loaded is named after the directory's number |
| Plotting.LeadingNumberAfterDigits | plotting.py:38 | text after the first digit run, not continuing it, does not change the leading number |
| Plotting.SkipNonDigit | plotting.py:38 | a leading non-digit does not change the leading number of a path that has a digit |
| Plotting.LeadingNumberAfterRun | plotting.py:38 | a path starting with a digit run keeps that run as its leading number whatever non-continuing text follows |
| Plotting.DirectoryDigitExample | plotting.py:37-43 | with data path `./run1/` and the single log `levelmeters_<n>.csv`, n ≠ 1: as written it loads `levelmeters_1.csv`, a different file; the corrected selection loads the log |
| Plotting.RunOneNumber | plotting.py:38 | the leading number of `./run1/` is 1 |
| Plotting.DatedNameInjective | plotting.py:40 | different dates give different names |
| Plotting.LabelFor | plotting.py:62 | a channel without an entry fails with its key, and a found label is one of the map's labels |
| Plotting.LabelForDefined | plotting.py:48-49 | exactly channels 1 to 6 have a label |
| Plotting.PlotLabels | plotting.py:59-62 | one label per channel, in order, and failure exactly when some channel has none |
| Plotting.LabelOfChannel | plotting.py:48-49 | channel c in 1..6 gets the entry under the digit of c |
| Plotting.ScriptLabels | plotting.py:80-82 | the script's plots are labelled SLM 1-3 and LLM (upper)/(lower) |
| LogRoundTrip.SameName | run_measurement.py:93 | the logger's file name for second n is the plotter's name for date n |
| LogRoundTrip.LoggedNames | run_measurement.py:93 | the k-th name is the logger's name for the k-th second |
| LogRoundTrip.LoggedNamesAreDated | plotting.py:40 | the logger's names are exactly the plotter's dated names |
| LogRoundTrip.OutputDirHasNoDigits | run_measurement.py:81 | the output directory `./outputs/` contains no digit |
| LogRoundTrip.SamePath | run_measurement.py:93 | the logger's path for second n is the output directory followed by the plotter's name for n |
| LogRoundTrip.PlotterLoadsLatestLog | plotting.py:37-43 | on the default directory filled by the logger, the plotter as written loads the log of the largest second |

## Left out

- Opening and configuring the serial port is not modelled: baud rate, parity, timeout and the `is_open` test belong to a foreign library. The handle is a write log plus a pending-line queue.
- The port-listing script, `setserial` and the RS-422 test run external processes. Their output text is an input to `Board.FindPort`, and the RS-422 test is not modelled.
- The module-level calls at import time, and the helpers that only print (`print_lines`, `help_board`, `about_board`, `get_mode`), are not modelled.
- Printing and `verbose` output, including the board's echo after `setup_device`, are not modelled.
- `time.sleep(0.2)` is not modelled. `time.time()` is an arbitrary function of the reading index, and nothing is assumed about its values.
- Float conversion covers sign, digits and an optional fractional part. Exponents, `inf`/`nan`, underscores and IEEE rounding are not modelled: values are exact reals.
- Decimal.ParseDecimal: Python's `float()` also accepts whitespace other than `' \r\n'` around the number, such as a tab, which the cleaning at setup_device.py:196 does not delete. The model refuses such a line, so `Board.DecodeLines` reports NotANumber where the source would convert it.
- Byte decoding is not modelled: lines are character strings. `lower()` and `\d` are modelled for ASCII only.
- Acquisition.ChannelInputAccepted and Acquisition.LoopModeAccepted: the loop calls `read_channels_readout_board` of the `LMReadout` class, whose body is not part of this model. Both lemmas assume that it applies the argument checks of `read_channels` at setup_device.py:216-236.
- The Smartec board read, its test measurement and the `LMReadout` class are not part of this model. Their code is not in the modelled files, so a cycle's outcome is an input to `Acquisition.Acquire`.
- The check at run_measurement.py:44 reads a `device` name that is never bound, so in the script as written it always ends in the `except` branch. `Acquisition.CheckConfig` models the comparison it would make on a readout board.
- Command-line parsing with `argparse` is not modelled. The saving flag and the reading count are parameters.
- `input()` is not modelled: the typed text is a parameter.
- CSV formatting, file appends and `os.makedirs` are not modelled. An append is recorded as a (file, rows) pair.
- A log file is represented by its second, `Acquisition.LogFile`. Its name is given by `Acquisition.OutputPath`, and `Acquisition.OutputPathInjective` shows that nothing is lost.
- Acquisition.Acquire: a Ctrl+C that arrives in the middle of a cycle is treated as ending that cycle without rows. Closing the port on exit is not modelled.
- Acquisition.Acquire: the clock counts only the loop's own readings. The loop's read goes through `read_channels_readout_board`, whose body is not part of this model; assuming it reads the clock as `read_channels` does at setup_device.py:241, those readings are the ones `Board.ReadChannels` models.
- The order of `glob.glob` results is the directory listing order, taken as given. The selection does not depend on it.
- Plotting.Glob: the data path is put directly in front of each directory entry. This matches `glob.glob(data_path + 'levelmeters*')` only when the data path ends with a separator, as the default `./outputs/` does; for a path such as `./out` the source matches names starting with `outlevelmeters` in `./`, which the model does not describe.
- Reading the CSV with pandas, the timezone conversion, and plotting and saving the figures are not modelled. Only the file choice and the labels are.
- `plot_capacitances` converts the channel with `int(channel)` to filter the data frame. Only the label lookup `names_dict[str(channel)]` is modelled, for integer channels.

## Findings

| source | as written | input that shows it | evidently intended | confidence | as-written member | corrected member |
|---|---|---|---|---|---|---|
| plotting.py:37-43 | the date of each candidate is the first digit run of the whole path, directory included | data path `./run1/` holding one log `levelmeters_<n>.csv` with n ≠ 1: the date becomes 1 and `./run1/levelmeters_1.csv` is loaded, a file that does not exist | the date is taken from the file name, so the newest log is loaded | not executed; proved | Plotting.DirectoryDigitExample | Plotting.LoadedFileFixedNewest |
