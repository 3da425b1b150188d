/** The acquisition script: the check that the readout board is still set
    up as `setup_device` left it, the parsing of the channels the operator
    types, which read each board kind gets, and the measurement loop with
    its rotation of output files every 2000 saved cycles. */
module Acquisition {
  import opened Text
  import opened Outcomes
  import opened PyValues
  import opened Serial
  import opened Board

  // ======================================================================
  // Configuration check
  // ======================================================================

  /** The lines `getmode` answers on a board set up with speed `f` and
      verbose, echo and debug off. */
  const CONFIGURED: seq<string> := ["Sf", "V0", "E0", "D0"]

  predicate ConfigMatches(lines: seq<string>) {
    CleanAll(lines) == CONFIGURED
  }

  /** The comparison is exact: four lines, in this order, each equal to its
      expected text once the deleted characters are gone. */
  lemma ConfigMatchesExactly(lines: seq<string>)
    ensures ConfigMatches(lines) <==>
      && |lines| == 4
      && Clean(lines[0]) == "Sf" && Clean(lines[1]) == "V0"
      && Clean(lines[2]) == "E0" && Clean(lines[3]) == "D0"
  {
    if |lines| == 4 && Clean(lines[0]) == "Sf" && Clean(lines[1]) == "V0"
       && Clean(lines[2]) == "E0" && Clean(lines[3]) == "D0" {
      assert CleanAll(lines) == CONFIGURED;
    }
  }

  /** The answer of a configured board is accepted whatever the line
      terminators; a board that answers only three lines is not. */
  lemma ConfigExamples()
    ensures ConfigMatches(["Sf" + "\r\n", "V0" + "\r\n", "E0" + "\r\n", "D0" + "\r\n"])
    ensures !ConfigMatches(["Sf" + "\r\n", "V0" + "\r\n", "E0" + "\r\n"])
  {
    TerminatedLine("Sf");
    TerminatedLine("V0");
    TerminatedLine("E0");
    TerminatedLine("D0");
    ConfigMatchesExactly(["Sf" + "\r\n", "V0" + "\r\n", "E0" + "\r\n", "D0" + "\r\n"]);
    ConfigMatchesExactly(["Sf" + "\r\n", "V0" + "\r\n", "E0" + "\r\n"]);
  }

  /** What the script does after the check: keep the device, or build a new
      one (the `except Exception` branch, a mismatch included). */
  datatype ConfigVerdict = KeepDevice | RebuildDevice

  /** The check on a readout board (`moxa` or `ftdi_dual`): write `getmode`,
      drain the answer and compare it with the configured one. */
  method CheckConfig(ser: SerialPort) returns (v: ConfigVerdict)
    modifies ser
    ensures ser.written == old(ser.written) + ["getmode\n"]
    ensures ser.pending == []
    ensures v == KeepDevice <==> ConfigMatches(old(ser.pending))
  {
    ser.Write("getmode\n");
    var lines := ser.ReadLines();
    if CleanAll(lines) != CONFIGURED {
      return RebuildDevice;
    }
    v := KeepDevice;
  }

  // ======================================================================
  // Channel input
  // ======================================================================

  /** The typed text with `"` and then `'` stripped from both ends and
      lowercased. */
  function NormalizeChannelInput(raw: string): string {
    Lower(Strip(Strip(raw, '"'), '\''))
  }

  predicate IsSelectorText(s: string) {
    s == "a" || s == "s" || s == "l"
  }

  /** `[int(el) for el in runs]`. */
  function IntsOf(runs: seq<string>): (vs: seq<Value>)
    requires forall i :: 0 <= i < |runs| ==> AllDigits(runs[i])
    ensures |vs| == |runs|
  {
    seq(|runs|, i requires 0 <= i < |runs| => PyInt(DigitsValue(runs[i])))
  }

  /** The `channels` argument built from the typed text: a selector letter
      stays a string; otherwise the characters are joined with spaces and
      every run of digits becomes an integer. The result is always a list or
      a string, so the type test after it never raises. */
  function ParseChannelInput(raw: string): (v: Value)
    ensures v.PyStr? || v.PyList?
  {
    var c := NormalizeChannelInput(raw);
    if IsSelectorText(c) then PyStr(c)
    else
      var runs := DigitRuns(SpaceJoin(c));
      PyList(IntsOf(runs))
  }

  /** The digits of `s`, in order, each as the integer it denotes; the
      other characters are dropped. */
  function DigitChannels(s: string): (vs: seq<Value>)
    ensures forall i :: 0 <= i < |vs| ==> vs[i].PyInt? && 0 <= vs[i].i < 10
  {
    if s == [] then []
    else (if IsDigit(s[0]) then [PyInt(DigitValue(s[0]))] else []) + DigitChannels(s[1..])
  }

  lemma {:induction false} IntsOfSingletons(s: string)
    ensures IntsOf(DigitSingletons(s)) == DigitChannels(s)
  {
    if s != [] {
      IntsOfSingletons(s[1..]);
      var head: seq<string> := if IsDigit(s[0]) then [[s[0]]] else [];
      var rest := DigitSingletons(s[1..]);
      assert DigitSingletons(s) == head + rest;
      if IsDigit(s[0]) {
        assert DigitsValue([s[0]]) == DigitValue(s[0]) by {
          assert [s[0]][..0] == [];
        }
        assert IntsOf(head + rest) == [PyInt(DigitValue(s[0]))] + IntsOf(rest);
      } else {
        assert head + rest == rest;
      }
    }
  }

  /** A typed text that is not a selector letter gives one channel per
      digit it contains, in order: `"12"` gives 1 and 2, not 12. */
  lemma ParseChannelInputDigits(raw: string)
    ensures ParseChannelInput(raw).PyStr? <==> IsSelectorText(NormalizeChannelInput(raw))
    ensures ParseChannelInput(raw).PyStr? ==> ParseChannelInput(raw).s == NormalizeChannelInput(raw)
    ensures ParseChannelInput(raw).PyList? ==>
      ParseChannelInput(raw).items == DigitChannels(NormalizeChannelInput(raw))
  {
    var c := NormalizeChannelInput(raw);
    DigitRunsOfSpaceJoin(c);
    IntsOfSingletons(c);
  }

  predicate IsChannelDigit(d: char) { '1' <= d <= '6' }

  /** All digit channels pass the channel test exactly when every digit is
      one of 1 to 6. */
  lemma {:induction false} DigitChannelsInRange(s: string)
    ensures AllChannels(DigitChannels(s)) <==>
      forall i :: 0 <= i < |s| && IsDigit(s[i]) ==> IsChannelDigit(s[i])
  {
    if s != [] {
      var tail := s[1..];
      DigitChannelsInRange(tail);
      var head := if IsDigit(s[0]) then [PyInt(DigitValue(s[0]))] else [];
      var rest := DigitChannels(tail);
      assert DigitChannels(s) == head + rest;
      assert AllChannels(head) <==> (IsDigit(s[0]) ==> IsChannelDigit(s[0]));
      AllChannelsAppend(head, rest);
      assert forall i :: 1 <= i < |s| ==> s[i] == tail[i - 1];
      if forall i :: 0 <= i < |tail| && IsDigit(tail[i]) ==> IsChannelDigit(tail[i]) {
        if IsDigit(s[0]) ==> IsChannelDigit(s[0]) {
          forall i | 0 <= i < |s| && IsDigit(s[i]) ensures IsChannelDigit(s[i]) {
            if i > 0 {
              assert s[i] == tail[i - 1];
            }
          }
        }
      }
    }
  }

  lemma AllChannelsAppend(a: seq<Value>, b: seq<Value>)
    ensures AllChannels(a + b) <==> AllChannels(a) && AllChannels(b)
  {
    if AllChannels(a) && AllChannels(b) {
      forall i | 0 <= i < |a + b| ensures IsChannel((a + b)[i]) {
        if i >= |a| {
          assert (a + b)[i] == b[i - |a|];
        }
      }
    }
    if AllChannels(a + b) {
      forall i | 0 <= i < |a| ensures IsChannel(a[i]) {
        assert (a + b)[i] == a[i];
      }
      forall i | 0 <= i < |b| ensures IsChannel(b[i]) {
        assert (a + b)[|a| + i] == b[i];
      }
    }
  }

  /** What `read_channels` makes of the typed text: a selector letter, or a
      text whose every digit is 1 to 6, is accepted; any 0, 7, 8 or 9
      makes it refuse the whole list. */
  lemma ChannelInputAccepted(raw: string)
    ensures var c := NormalizeChannelInput(raw);
      ResolveSelector(ParseChannelInput(raw)).Ok? <==>
        IsSelectorText(c) || forall i :: 0 <= i < |c| && IsDigit(c[i]) ==> IsChannelDigit(c[i])
  {
    var c := NormalizeChannelInput(raw);
    ParseChannelInputDigits(raw);
    DigitChannelsInRange(c);
  }

  /** Typed digits need no normalising. */
  lemma DigitsNormalized(s: string)
    requires AllDigits(s)
    ensures NormalizeChannelInput(s) == s
  {
    StripUntouched(s, '"');
    StripUntouched(s, '\'');
    LowerOfDigits(s);
  }

  lemma LowerOfDigits(s: string)
    requires AllDigits(s)
    ensures Lower(s) == s
  {
    assert forall i :: 0 <= i < |s| ==> LowerChar(s[i]) == s[i];
  }

  /** Typing `10` (which needs no normalising, see `DigitsNormalized`) asks
      for channels 1 and 0, not for channel 10, and `read_channels` refuses
      it because of the 0. */
  lemma TypedTenExample(ten: string)
    requires ten == ['1', '0']
    ensures DigitChannels(ten) == [PyInt(1), PyInt(0)]
    ensures !AllChannels(DigitChannels(ten))
  {
    assert DigitChannels(['0']) == [PyInt(0)] by {
      assert ['0'][1..] == [];
    }
    assert ten[1..] == ['0'];
    assert DigitChannels(ten) == [PyInt(1)] + [PyInt(0)];
    assert !IsChannel(DigitChannels(ten)[1]);
  }

  /** Typing a selector letter in quotes, in either case, selects that group:
      `"S"` asks for the short level meters. */
  lemma QuotedLetterExample(c: char)
    requires c == 'S' || c == 's' || c == 'A' || c == 'a' || c == 'L' || c == 'l'
    ensures NormalizeChannelInput(['"', c, '"']) == [LowerChar(c)]
    ensures IsSelectorText([LowerChar(c)])
  {
    var quoted := ['"', c, '"'];
    assert StripLeft(quoted, '"') == [c, '"'] by {
      assert quoted[1..] == [c, '"'];
    }
    assert Strip(quoted, '"') == [c] by {
      assert [c, '"'][..1] == [c];
    }
    StripUntouched([c], '\'');
    assert Lower([c]) == [LowerChar(c)];
  }

  /** Text that neither starts nor ends with `c` is left alone by `strip`. */
  lemma StripUntouched(s: string, c: char)
    requires s == [] || (s[0] != c && s[|s| - 1] != c)
    ensures Strip(s, c) == s
  {
  }

  // ======================================================================
  // Reading dispatch
  // ======================================================================

  datatype ReadKind = ReadoutBoard | SmartecBoard

  /** Which read a cycle performs for the device name: the readout board
      behind a `moxa` or `ftdi_dual` port, or the Smartec board behind an
      `ftdi_ft230x` port; any other name selects no read. */
  function ReadKindFor(name: string): (k: Option<ReadKind>)
    ensures k == Some(ReadoutBoard) <==> name == "moxa" || name == "ftdi_dual"
    ensures k == Some(SmartecBoard) <==> name == "ftdi_ft230x"
  {
    if name == "moxa" || name == "ftdi_dual" then Some(ReadoutBoard)
    else if name == "ftdi_ft230x" then Some(SmartecBoard)
    else None
  }

  /** The mode the loop reads the readout board in: averaged. */
  const LOOP_MODE: Value := PyStr("a")

  /** Every cycle on the readout board passes the mode check of
      `read_channels`, so a refusal can only come from the channels. */
  lemma LoopModeAccepted(channels: Value, n: int)
    ensures PlanChannels(channels, PyInt(n), LOOP_MODE).Ok? <==> ResolveSelector(channels).Ok?
  {
  }

  // ======================================================================
  // Output files
  // ======================================================================

  /** Python's `int()` of a float: truncation toward zero. */
  function TruncToInt(t: real): int {
    if t >= 0.0 then t.Floor else -((-t).Floor)
  }

  /** The truncated value is the integer nearest to `t` on the side of zero. */
  lemma TruncToIntBounds(t: real)
    ensures t >= 0.0 ==> TruncToInt(t) >= 0 && TruncToInt(t) as real <= t < TruncToInt(t) as real + 1.0
    ensures t < 0.0 ==> TruncToInt(t) <= 0 && TruncToInt(t) as real - 1.0 < t <= TruncToInt(t) as real
  {
  }

  const OUTPUT_DIR := "./outputs/"
  const LOG_PREFIX := "levelmeters_"
  const LOG_SUFFIX := ".csv"

  /** An output file, identified by the whole second in its name. */
  datatype LogFile = LogFile(second: int)

  /** The file named after a clock reading, `int(time.time())`. */
  function FileAt(t: real): LogFile {
    LogFile(TruncToInt(t))
  }

  /** `'levelmeters_{}.csv'.format(second)`. */
  function LogFileName(f: LogFile): string {
    LOG_PREFIX + IntToString(f.second) + LOG_SUFFIX
  }

  /** `'./outputs/levelmeters_{}.csv'.format(second)`. */
  function OutputPath(f: LogFile): string {
    OUTPUT_DIR + LogFileName(f)
  }

  /** Different files have different paths, so no two seconds share a file. */
  lemma OutputPathInjective(f: LogFile, g: LogFile)
    ensures OutputPath(f) == OutputPath(g) <==> f == g
  {
    var a := IntToString(f.second);
    var b := IntToString(g.second);
    var p := OUTPUT_DIR + LOG_PREFIX;
    assert OutputPath(f) == p + a + LOG_SUFFIX;
    assert OutputPath(g) == p + b + LOG_SUFFIX;
    if OutputPath(f) == OutputPath(g) {
      assert |a| == |b|;
      assert a == OutputPath(f)[|p|..|p| + |a|];
      assert b == OutputPath(g)[|p|..|p| + |b|];
      IntToStringInjective(f.second, g.second);
    }
  }

  /** Two clock readings name the same file exactly when they fall in the
      same whole second. */
  lemma OutputPathSameSecond(t1: real, t2: real)
    ensures OutputPath(FileAt(t1)) == OutputPath(FileAt(t2)) <==> TruncToInt(t1) == TruncToInt(t2)
  {
    OutputPathInjective(FileAt(t1), FileAt(t2));
  }

  // ======================================================================
  // Measurement loop
  // ======================================================================

  /** Cycles written to one file before a new file is started. */
  const MAX_IT: nat := 2000

  /** How one pass of the loop ends: a read returned rows, the operator
      pressed Ctrl+C, or the read raised something else. */
  datatype Cycle = Measured(rows: seq<Row>) | Interrupted | Failed(fault: Fault)

  /** `writerows(out)` on the file opened for appending. */
  datatype Append = Append(file: LogFile, rows: seq<Row>)

  /** Why the loop stopped: Ctrl+C, an exception that ends the script, or
      no more cycles supplied to the model. */
  datatype Stop = Interrupt | Crash(fault: Fault) | EndOfCycles

  /** The number of cycles that run to the end before the first one that is
      interrupted or raises. A cycle that returns no rows still counts. */
  function Completed(cycles: seq<Cycle>): (m: nat)
    ensures m <= |cycles|
    ensures forall j :: 0 <= j < m ==> cycles[j].Measured?
    ensures m < |cycles| ==> !cycles[m].Measured?
  {
    if cycles == [] || !cycles[0].Measured? then 0
    else
      var m := 1 + Completed(cycles[1..]);
      assert forall j :: 1 <= j < m ==> cycles[j] == cycles[1..][j - 1];
      m
  }

  function StopOf(cycles: seq<Cycle>): Stop {
    var m := Completed(cycles);
    if m == |cycles| then EndOfCycles
    else if cycles[m].Interrupted? then Interrupt
    else Crash(cycles[m].fault)
  }

  /** The loop ends at the first cycle that does not run to the end: Ctrl+C
      stops it, and any other exception stops it with that fault. */
  lemma StopAtFirstUnfinished(cycles: seq<Cycle>, m: nat)
    requires m < |cycles| && !cycles[m].Measured?
    requires forall j :: 0 <= j < m ==> cycles[j].Measured?
    ensures Completed(cycles) == m
    ensures StopOf(cycles) == if cycles[m].Interrupted? then Interrupt else Crash(cycles[m].fault)
  {
  }

  /** Clock readings taken in the loop after `d` saved cycles: one at every
      multiple of `MAX_IT`, the first cycle included. */
  function FilesOpened(d: nat): nat {
    (d + MAX_IT - 1) / MAX_IT
  }

  /** The rotation arithmetic: a saved cycle whose counter is a multiple of
      `MAX_IT` reads the clock once more and uses the new reading; any
      other cycle keeps the file of the cycle before it. */
  lemma RotationStep(d: nat)
    ensures d % MAX_IT == 0 ==> d / MAX_IT == FilesOpened(d) && FilesOpened(d + 1) == FilesOpened(d) + 1
    ensures d % MAX_IT != 0 ==> d > 0 && (d - 1) / MAX_IT == d / MAX_IT && FilesOpened(d + 1) == FilesOpened(d)
  {
    var q := d / MAX_IT;
    var r := d % MAX_IT;
    assert d == q * MAX_IT + r;
    if r == 0 {
      assert d + MAX_IT - 1 == q * MAX_IT + (MAX_IT - 1);
      assert d + MAX_IT == (q + 1) * MAX_IT;
    } else {
      assert d - 1 == q * MAX_IT + (r - 1);
      assert d + MAX_IT - 1 == (q + 1) * MAX_IT + (r - 1);
      assert d + MAX_IT == (q + 1) * MAX_IT + r;
    }
  }

  /** The index of the clock reading that names the file of saved cycle `j`,
      counting from the reading made before the loop. */
  function FileReading(j: nat): nat {
    1 + j / MAX_IT
  }

  /** The file reading of saved cycle `d` is the one taken at that cycle
      when the counter is a multiple of `MAX_IT`, and otherwise the one of
      the cycle before. */
  lemma SaveStep(d: nat)
    ensures d % MAX_IT == 0 ==> FileReading(d) == 1 + FilesOpened(d) && FilesOpened(d + 1) == FilesOpened(d) + 1
    ensures d % MAX_IT != 0 ==> d > 0 && FileReading(d) == FileReading(d - 1) && FilesOpened(d + 1) == FilesOpened(d)
  {
    RotationStep(d);
  }

  /** Two consecutive saved cycles go to different files exactly when the
      second one's counter is a multiple of `MAX_IT`; the reading made
      before the loop never names a file. */
  lemma RotationBoundary(j: nat)
    ensures FileReading(j) >= 1
    ensures FileReading(j + 1) != FileReading(j) <==> (j + 1) % MAX_IT == 0
    ensures FileReading(j + 1) == FileReading(j) || FileReading(j + 1) == FileReading(j) + 1
  {
    RotationStep(j + 1);
    var q := j / MAX_IT;
    var r := j % MAX_IT;
    assert j == q * MAX_IT + r;
    if r + 1 == MAX_IT {
      assert j + 1 == (q + 1) * MAX_IT;
    } else {
      assert j + 1 == q * MAX_IT + (r + 1);
    }
  }

  /** The appends of the first `d` saved cycles when the loop's clock
      readings start at index `t0`. */
  function SavedLog(time: nat -> real, t0: nat, cycles: seq<Cycle>, d: nat): (log: seq<Append>)
    requires d <= Completed(cycles)
    ensures |log| == d
    ensures forall j :: 0 <= j < d ==>
      log[j] == Append(FileAt(time(t0 + FileReading(j))), cycles[j].rows)
  {
    if d == 0 then []
    else SavedLog(time, t0, cycles, d - 1) + [Append(FileAt(time(t0 + FileReading(d - 1))), cycles[d - 1].rows)]
  }

  /** One more saved cycle adds its own append at the end of the log. */
  lemma SavedLogStep(time: nat -> real, t0: nat, cycles: seq<Cycle>, d: nat)
    requires d < Completed(cycles)
    ensures SavedLog(time, t0, cycles, d + 1)
      == SavedLog(time, t0, cycles, d) + [Append(FileAt(time(t0 + FileReading(d))), cycles[d].rows)]
  {
  }

  /** The file a saved cycle appends to: a new one named from the clock
      when the counter `it` is a multiple of `MAX_IT`, the current one
      otherwise. Either way it is the file named by the clock reading
      `FileReading(it)` of the loop. */
  method CurrentFile(clock: Clock, ghost t0: nat, it: nat, filename: LogFile) returns (file: LogFile)
    requires clock.ticks == t0 + 1 + FilesOpened(it)
    requires it % MAX_IT != 0 ==> filename == FileAt(clock.time(t0 + FileReading(it - 1)))
    modifies clock
    ensures it % MAX_IT == 0 ==> file == FileAt(clock.time(old(clock.ticks))) && clock.ticks == old(clock.ticks) + 1
    ensures it % MAX_IT != 0 ==> file == filename && clock.ticks == old(clock.ticks)
    ensures file == FileAt(clock.time(t0 + FileReading(it)))
    ensures clock.ticks == t0 + 1 + FilesOpened(it + 1)
  {
    SaveStep(it);
    file := filename;
    if it % MAX_IT == 0 {
      var t := clock.Now();
      file := FileAt(t);
    }
  }

  /** The saving part of one measured cycle: pick the current file, append
      the cycle's rows to it and count the cycle. The log of the first `it`
      saved cycles grows into the log of the first `it + 1`. */
  method SaveCycle(clock: Clock, ghost t0: nat, ghost cycles: seq<Cycle>, it: nat,
                   filename: LogFile, log: seq<Append>, out: seq<Row>)
    returns (file: LogFile, saved: seq<Append>)
    requires it < Completed(cycles) && cycles[it] == Measured(out)
    requires clock.ticks == t0 + 1 + FilesOpened(it)
    requires log == SavedLog(clock.time, t0, cycles, it)
    requires it > 0 ==> filename == log[it - 1].file
    modifies clock
    ensures clock.ticks == t0 + 1 + FilesOpened(it + 1)
    ensures saved == SavedLog(clock.time, t0, cycles, it + 1)
    ensures file == saved[it].file
  {
    file := CurrentFile(clock, t0, it, filename);
    SavedLogStep(clock.time, t0, cycles, it);
    saved := log + [Append(file, out)];
  }

  /** The `while k is False` loop, fed with the outcome of every cycle. With
      saving on, the file name is read from the clock before the loop and
      again whenever the saved-cycle counter is a multiple of `MAX_IT`; the
      rows of each measured cycle are appended to the current file. The loop
      ends at Ctrl+C; any other exception ends the script. */
  method Acquire(clock: Clock, save: bool, cycles: seq<Cycle>) returns (log: seq<Append>, stop: Stop)
    modifies clock
    ensures stop == StopOf(cycles)
    ensures save ==> log == SavedLog(clock.time, old(clock.ticks), cycles, Completed(cycles))
    ensures save ==> clock.ticks == old(clock.ticks) + 1 + FilesOpened(Completed(cycles))
    ensures !save ==> log == [] && clock.ticks == old(clock.ticks)
  {
    ghost var t0: nat := clock.ticks;
    var it: nat := 0;
    var filename := LogFile(0);
    if save {
      var t := clock.Now();
      filename := FileAt(t);
    }
    log := [];
    var k := false;
    var i := 0;
    ghost var m := Completed(cycles);
    ghost var d := 0;
    while !k && i < |cycles|
      invariant 0 <= i <= |cycles|
      invariant !k ==> i <= m && d == i
      invariant k ==> i == m + 1 && cycles[m].Interrupted? && d == m
      invariant save ==> it == d && |log| == d
      invariant save ==> clock.ticks == t0 + 1 + FilesOpened(d)
      invariant save && d > 0 ==> filename == log[d - 1].file
      invariant save ==> log == SavedLog(clock.time, t0, cycles, d)
      invariant !save ==> log == [] && clock.ticks == t0
    {
      match cycles[i] {
        case Interrupted =>
          k := true;
        case Failed(e) =>
          return log, Crash(e);
        case Measured(out) =>
          if save {
            filename, log := SaveCycle(clock, t0, cycles, it, filename, log, out);
            it := it + 1;
          }
          d := d + 1;
      }
      i := i + 1;
    }
    stop := if k then Interrupt else EndOfCycles;
  }
}
