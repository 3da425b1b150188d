/** The level-meter readout board's line protocol (setup_device.py):
    finding the port in the port listing, the initialisation handshake, and
    the single- and multi-channel measurement commands with the decoding of
    the board's answers. */
module Board {
  import opened Text
  import opened Decimal
  import opened Outcomes
  import opened PyValues
  import opened Serial

  // ======================================================================
  // find_port
  // ======================================================================

  /** `name in line.lower()`; note that `name` itself is not lowercased. */
  predicate NameMatches(line: string, name: string) {
    Contains(Lower(line), name)
  }

  /** `[el for el in xs if keep(el)]`. */
  function Filter(xs: seq<string>, keep: string -> bool): (m: seq<string>)
    ensures |m| <= |xs|
    ensures forall k :: 0 <= k < |m| ==> m[k] in xs && keep(m[k])
  {
    if xs == [] then []
    else (if keep(xs[0]) then [xs[0]] else []) + Filter(xs[1..], keep)
  }

  /** `[el for el in ports if name in el.lower()]`. */
  function Matching(lines: seq<string>, name: string): seq<string> {
    Filter(lines, Matcher(name))
  }

  function Matcher(name: string): string -> bool {
    line => NameMatches(line, name)
  }

  /** The separator between the device path and its description in the
      port listing, e.g. `/dev/ttyUSB0 - Moxa UPort 1130`. */
  const PORT_SEPARATOR := " - "

  /** The selection step of `find_port` on the lines of the listing. */
  function SelectPort(lines: seq<string>, name: string): Result<string> {
    var m := Matching(lines, name);
    if |m| > 1 then Err(MultipleMatchingPorts)
    else if |m| < 1 then Err(NoMatchingPort)
    else Ok(BeforeFirst(m[0], PORT_SEPARATOR))
  }

  /** `find_port`: the listing text printed by the port-listing script is
      split at line feeds and exactly one line must match. */
  function FindPort(listing: string, name: string): Result<string> {
    SelectPort(Split(listing, '\n'), name)
  }

  lemma {:induction false} FilterNone(xs: seq<string>, keep: string -> bool)
    ensures Filter(xs, keep) == [] <==> forall i :: 0 <= i < |xs| ==> !keep(xs[i])
  {
    if xs != [] {
      FilterNone(xs[1..], keep);
      assert forall i :: 1 <= i < |xs| ==> xs[i] == xs[1..][i - 1];
    }
  }

  lemma {:induction false} FilterTwo(xs: seq<string>, keep: string -> bool)
    ensures |Filter(xs, keep)| >= 2 <==>
      exists i, j :: 0 <= i < j < |xs| && keep(xs[i]) && keep(xs[j])
  {
    if xs != [] {
      var tail := xs[1..];
      FilterTwo(tail, keep);
      FilterNone(tail, keep);
      if |Filter(xs, keep)| >= 2 {
        if keep(xs[0]) {
          var j :| 0 <= j < |tail| && keep(tail[j]);
          assert keep(xs[j + 1]);
        } else {
          var i, j :| 0 <= i < j < |tail| && keep(tail[i]) && keep(tail[j]);
          assert keep(xs[i + 1]) && keep(xs[j + 1]);
        }
      }
      if exists i, j :: 0 <= i < j < |xs| && keep(xs[i]) && keep(xs[j]) {
        var i, j :| 0 <= i < j < |xs| && keep(xs[i]) && keep(xs[j]);
        assert keep(tail[j - 1]);
        if i > 0 {
          assert keep(tail[i - 1]);
        }
      }
    }
  }

  /** Exactly one kept element: the filter has length one and holds it. */
  lemma FilterOne(xs: seq<string>, keep: string -> bool)
    ensures |Filter(xs, keep)| == 1 <==>
      exists i :: 0 <= i < |xs| && keep(xs[i]) && forall j :: 0 <= j < |xs| && j != i ==> !keep(xs[j])
    ensures |Filter(xs, keep)| == 1 ==>
      exists i :: 0 <= i < |xs| && keep(xs[i]) && Filter(xs, keep)[0] == xs[i]
  {
    var m := Filter(xs, keep);
    FilterNone(xs, keep);
    FilterTwo(xs, keep);
    if |m| == 1 {
      var i :| 0 <= i < |xs| && xs[i] == m[0];
      assert keep(xs[i]);
    }
  }

  /** `find_port` fails with "no ports" exactly when no line matches. */
  lemma SelectPortNone(lines: seq<string>, name: string)
    ensures SelectPort(lines, name) == Err(NoMatchingPort)
      <==> forall i :: 0 <= i < |lines| ==> !NameMatches(lines[i], name)
  {
    FilterNone(lines, Matcher(name));
  }

  /** `find_port` fails with "multiple ports" exactly when two lines match. */
  lemma SelectPortMultiple(lines: seq<string>, name: string)
    ensures SelectPort(lines, name) == Err(MultipleMatchingPorts)
      <==> exists i, j :: 0 <= i < j < |lines| && NameMatches(lines[i], name) && NameMatches(lines[j], name)
  {
    FilterTwo(lines, Matcher(name));
  }

  /** `find_port` succeeds exactly when one line matches, and then returns
      that line's text before the first `" - "`. */
  lemma SelectPortUnique(lines: seq<string>, name: string)
    ensures SelectPort(lines, name).Ok? <==>
      exists i :: 0 <= i < |lines| && NameMatches(lines[i], name)
        && forall j :: 0 <= j < |lines| && j != i ==> !NameMatches(lines[j], name)
    ensures SelectPort(lines, name).Ok? ==>
      exists i :: 0 <= i < |lines| && NameMatches(lines[i], name)
        && SelectPort(lines, name).value == BeforeFirst(lines[i], PORT_SEPARATOR)
  {
    FilterOne(lines, Matcher(name));
  }

  // ======================================================================
  // setup_device
  // ======================================================================

  /** The three mode-setting commands, in the order they are written:
      `echo 1` or `echo 0` by the truthiness of the flag, and likewise for
      verbose and debug. */
  function FlagCommands(echo: Value, verbose: Value, debug: Value): seq<string> {
    [ if Truthy(echo) then "echo 1\n" else "echo 0\n",
      if Truthy(verbose) then "verbose 1\n" else "verbose 0\n",
      if Truthy(debug) then "debug 1\n" else "debug 0\n" ]
  }

  /** The speed command: fast and slow each have a one- and a four-letter spelling. */
  function SpeedCommand(speed: Value): (r: Result<string>)
    ensures r.Ok? <==> speed in {PyStr("f"), PyStr("fast"), PyStr("s"), PyStr("slow")}
    ensures r.Ok? ==> (r.value == "f\n" <==> speed in {PyStr("f"), PyStr("fast")})
    ensures r.Ok? ==> r.value in {"f\n", "s\n"}
    ensures r.Err? ==> r.fault == SpeedInvalid
  {
    if speed == PyStr("f") || speed == PyStr("fast") then Ok("f\n")
    else if speed == PyStr("s") || speed == PyStr("slow") then Ok("s\n")
    else Err(SpeedInvalid)
  }

  /** `setup_device` on an already opened port: echo, verbose, debug, then the
      speed; an unknown speed raises after the first three were sent. On
      success the lines the board echoed back are drained (and returned). */
  method SetupDevice(ser: SerialPort, echo: Value, verbose: Value, debug: Value, speed: Value)
    returns (r: Result<seq<string>>)
    modifies ser
    ensures SpeedCommand(speed).Err? ==>
      && r == Err(SpeedInvalid)
      && ser.written == old(ser.written) + FlagCommands(echo, verbose, debug)
      && ser.pending == old(ser.pending)
    ensures SpeedCommand(speed).Ok? ==>
      && r == Ok(old(ser.pending))
      && ser.written == old(ser.written) + FlagCommands(echo, verbose, debug) + [SpeedCommand(speed).value]
      && ser.pending == []
  {
    var flags := FlagCommands(echo, verbose, debug);
    ser.Write(flags[0]);
    ser.Write(flags[1]);
    ser.Write(flags[2]);
    assert ser.written == old(ser.written) + flags;
    var command := SpeedCommand(speed);
    if command.Err? {
      return Err(command.fault);
    }
    ser.Write(command.value);
    var echoed := ser.ReadLines();
    r := Ok(echoed);
  }

  // ======================================================================
  // The measurement command
  // ======================================================================

  /** `mode in ['r', 'a']`: raw samples or their average. */
  predicate IsMode(mode: Value) {
    mode == PyStr("r") || mode == PyStr("a")
  }

  /** `f'{mode} {channel} {n_readings}\n'`. */
  function MeasureCommand(mode: Value, channel: Value, n: int): string
    requires IsMode(mode) && IsChannel(channel)
  {
    mode.s + " " + ChannelText(channel) + " " + IntToString(n) + "\n"
  }

  lemma IntToStringNoSpace(n: int)
    ensures ' ' !in IntToString(n)
  {
    var s := IntToString(n);
    forall k | 0 <= k < |s|
      ensures s[k] != ' '
    {
      if n < 0 && k > 0 {
        assert s[k] == NatToString(-n)[k - 1];
      }
    }
  }

  /** The command is a line of three space-separated fields: the mode, the
      channel as Python prints it, and the count, which reads back as the
      number that was passed. */
  lemma MeasureCommandFields(mode: Value, channel: Value, n: int)
    requires IsMode(mode) && IsChannel(channel)
    ensures var cmd := MeasureCommand(mode, channel, n);
      && |cmd| >= 1 && cmd[|cmd| - 1] == '\n'
      && Split(cmd[..|cmd| - 1], ' ') == [mode.s, ChannelText(channel), IntToString(n)]
  {
    IntToStringNoSpace(n);
    assert ' ' !in mode.s;
    ThreeFields(mode.s, ChannelText(channel), IntToString(n));
  }

  /** Three space-free fields joined by spaces and ended by a line feed. */
  lemma ThreeFields(a: string, b: string, c: string)
    requires ' ' !in a && ' ' !in b && ' ' !in c
    ensures var line := a + " " + b + " " + c + "\n";
      && |line| >= 1 && line[|line| - 1] == '\n'
      && Split(line[..|line| - 1], ' ') == [a, b, c]
  {
    var line := a + " " + b + " " + c + "\n";
    assert line[..|line| - 1] == a + [' '] + (b + [' '] + c);
    SplitAfterPiece(a, ' ', b + [' '] + c);
    SplitAfterPiece(b, ' ', c);
    SplitNoSeparator(c, ' ');
  }

  /** Different arguments give different command lines: the board can tell
      every accepted request apart. */
  lemma MeasureCommandInjective(m1: Value, c1: Value, n1: int, m2: Value, c2: Value, n2: int)
    requires IsMode(m1) && IsChannel(c1) && IsMode(m2) && IsChannel(c2)
    requires MeasureCommand(m1, c1, n1) == MeasureCommand(m2, c2, n2)
    ensures m1 == m2 && c1 == c2 && n1 == n2
  {
    MeasureCommandFields(m1, c1, n1);
    MeasureCommandFields(m2, c2, n2);
    var f1 := [m1.s, ChannelText(c1), IntToString(n1)];
    var f2 := [m2.s, ChannelText(c2), IntToString(n2)];
    assert f1 == f2;
    assert m1.s == m2.s;
    ChannelTextInjective(c1, c2);
    ParseDecimalOfInt(n1);
    ParseDecimalOfInt(n2);
  }

  // ======================================================================
  // Decoding the board's answer
  // ======================================================================

  /** Every line with spaces, carriage returns and line feeds deleted. */
  function CleanAll(lines: seq<string>): (r: seq<string>)
    ensures |r| == |lines|
    ensures forall i :: 0 <= i < |r| ==> r[i] == Clean(lines[i])
  {
    seq(|lines|, i requires 0 <= i < |lines| => Clean(lines[i]))
  }

  /** The float conversion, as a function value. */
  function ToFloat(): string -> Option<real> {
    s => ParseDecimal(s)
  }

  /** `.astype(float)`: every text converted in order; the first text that
      does not convert raises (see `ParseAllError`). */
  function ParseAll(xs: seq<string>, parse: string -> Option<real>): (r: Result<seq<real>>)
    ensures r.Ok? <==> forall i :: 0 <= i < |xs| ==> parse(xs[i]).Some?
    ensures r.Ok? ==> |r.value| == |xs|
    ensures r.Ok? ==> forall i :: 0 <= i < |xs| ==> parse(xs[i]) == Some(r.value[i])
  {
    if xs == [] then Ok([])
    else
      match parse(xs[0])
      case None => Err(NotANumber(xs[0]))
      case Some(v) =>
        assert forall i :: 1 <= i < |xs| ==> xs[i] == xs[1..][i - 1];
        match ParseAll(xs[1..], parse)
        case Err(e) => Err(e)
        case Ok(vs) => Ok([v] + vs)
  }

  /** Text i is the first one that does not convert. */
  predicate FirstUnreadable(xs: seq<string>, parse: string -> Option<real>, i: nat)
    requires i < |xs|
  {
    && (forall j :: 0 <= j < i ==> parse(xs[j]).Some?)
    && parse(xs[i]).None?
  }

  /** A failed conversion names the first text that does not convert. */
  lemma {:induction false} ParseAllError(xs: seq<string>, parse: string -> Option<real>)
    ensures ParseAll(xs, parse).Err? ==>
      exists i :: 0 <= i < |xs| && FirstUnreadable(xs, parse, i) && ParseAll(xs, parse).fault == NotANumber(xs[i])
  {
    if xs != [] && parse(xs[0]).Some? && ParseAll(xs, parse).Err? {
      var tail := xs[1..];
      ParseAllError(tail, parse);
      var i :| 0 <= i < |tail| && FirstUnreadable(tail, parse, i) && ParseAll(tail, parse).fault == NotANumber(tail[i]);
      assert forall j :: 1 <= j < |xs| ==> xs[j] == tail[j - 1];
      assert FirstUnreadable(xs, parse, i + 1);
    }
  }

  /** The shared decoding step of `read_channel` and `read_channels`: no
      line at all is an error; otherwise the cleaned lines must all convert. */
  function DecodeLines(lines: seq<string>): (r: Result<seq<real>>)
    ensures r == Err(NoData) <==> lines == []
    ensures r.Ok? <==> lines != [] && forall i :: 0 <= i < |lines| ==> ParseDecimal(Clean(lines[i])).Some?
    ensures r.Ok? ==> |r.value| == |lines|
    ensures r.Ok? ==> forall i :: 0 <= i < |lines| ==> ParseDecimal(Clean(lines[i])) == Some(r.value[i])
    ensures r.Err? && lines != [] ==>
      exists i :: 0 <= i < |lines| && FirstUnreadable(CleanAll(lines), ToFloat(), i)
        && r.fault == NotANumber(Clean(lines[i]))
  {
    if lines == [] then Err(NoData)
    else
      var cleaned := CleanAll(lines);
      ParseAllError(cleaned, ToFloat());
      ParseAll(cleaned, ToFloat())
  }

  /** What `read_channel` returns: a bare number for a single line, the
      whole array otherwise. */
  datatype Reading = Scalar(value: real) | Series(values: seq<real>)

  function Shape(vs: seq<real>): Reading
    requires |vs| >= 1
  {
    if |vs| == 1 then Scalar(vs[0]) else Series(vs)
  }

  /** The values a reading stands for, whichever shape it has. */
  function ReadingValues(r: Reading): seq<real> {
    match r
    case Scalar(v) => [v]
    case Series(vs) => vs
  }

  /** No value is lost or reordered by unwrapping a single value. */
  lemma ShapeRoundTrip(vs: seq<real>)
    requires |vs| >= 1
    ensures ReadingValues(Shape(vs)) == vs
    ensures Shape(vs).Scalar? <==> |vs| == 1
  {
    if |vs| == 1 {
      assert [vs[0]] == vs;
    }
  }

  /** The result of `read_channel` once the lines have been drained. */
  function ChannelOutcome(lines: seq<string>): Result<Reading> {
    match DecodeLines(lines)
    case Err(e) => Err(e)
    case Ok(vs) => Ok(Shape(vs))
  }

  /** `read_channel` returns the converted lines, in order, as a scalar exactly
      when one line was read; with no line it fails. */
  lemma ChannelOutcomeCorrect(lines: seq<string>)
    ensures ChannelOutcome(lines) == Err(NoData) <==> lines == []
    ensures ChannelOutcome(lines).Ok? <==>
      lines != [] && forall i :: 0 <= i < |lines| ==> ParseDecimal(Clean(lines[i])).Some?
    ensures ChannelOutcome(lines).Err? ==> ChannelOutcome(lines).fault == DecodeLines(lines).fault
    ensures ChannelOutcome(lines).Ok? ==>
      && ReadingValues(ChannelOutcome(lines).value) == DecodeLines(lines).value
      && |ReadingValues(ChannelOutcome(lines).value)| == |lines|
      && (ChannelOutcome(lines).value.Scalar? <==> |lines| == 1)
  {
    if DecodeLines(lines).Ok? {
      ShapeRoundTrip(DecodeLines(lines).value);
    }
  }

  /** A line as the board terminates it, `\r\n` after the text. */
  lemma {:induction false} TerminatedLine(x: string)
    requires forall i :: 0 <= i < |x| ==> !IsLineNoise(x[i])
    ensures Clean(x + "\r\n") == x
  {
    CleanAppend(x, "\r\n");
    CleanKeeps(x);
    assert Clean("\r\n") == [] by {
      assert "\r\n"[1..] == "\n";
      assert "\n"[1..] == [];
    }
    assert x + [] == x;
  }

  /** Two terminated lines that convert stay an array of both values, in order. */
  lemma DecodeTwoLines(x: string, y: string, a: real, b: real)
    requires forall i :: 0 <= i < |x| ==> !IsLineNoise(x[i])
    requires forall i :: 0 <= i < |y| ==> !IsLineNoise(y[i])
    requires ParseDecimal(x) == Some(a) && ParseDecimal(y) == Some(b)
    ensures ChannelOutcome([x + "\r\n", y + "\r\n"]) == Ok(Series([a, b]))
  {
    TerminatedLine(x);
    TerminatedLine(y);
    var lines := [x + "\r\n", y + "\r\n"];
    var vs := DecodeLines(lines).value;
    assert vs == [a, b];
  }

  /** A single terminated line that converts is unwrapped to its value. */
  lemma DecodeOneLine(x: string, a: real)
    requires forall i :: 0 <= i < |x| ==> !IsLineNoise(x[i])
    requires ParseDecimal(x) == Some(a)
    ensures ChannelOutcome([x + "\r\n"]) == Ok(Scalar(a))
  {
    TerminatedLine(x);
    var vs := DecodeLines([x + "\r\n"]).value;
    assert vs == [a];
  }

  /** A noise-free line of the form `<digit>.<digit><digit>`. */
  lemma ShortDecimalClean(w: nat, a: char, b: char)
    requires w < 10 && IsDigit(a) && IsDigit(b)
    ensures forall i :: 0 <= i < 4 ==> !IsLineNoise([DigitChar(w), '.', a, b][i])
  {
  }

  /** Two averaged answers as the board sends them stay an array, in order. */
  lemma SeriesExample()
    ensures ChannelOutcome(["1.23" + "\r\n", "4.56" + "\r\n"]) == Ok(Series([1.23, 4.56]))
  {
    ParseExample();
    ShortDecimalClean(1, '2', '3');
    ShortDecimalClean(4, '5', '6');
    assert "1.23" == [DigitChar(1), '.', '2', '3'];
    assert "4.56" == [DigitChar(4), '.', '5', '6'];
    DecodeTwoLines("1.23", "4.56", 1.23, 4.56);
  }

  /** A single answer is unwrapped to its value; no answer is an error. */
  lemma ScalarExample()
    ensures ChannelOutcome(["7.89" + "\r\n"]) == Ok(Scalar(7.89))
    ensures ChannelOutcome([]) == Err(NoData)
  {
    ParseExample();
    ShortDecimalClean(7, '8', '9');
    assert "7.89" == [DigitChar(7), '.', '8', '9'];
    DecodeOneLine("7.89", 7.89);
  }

  // ======================================================================
  // read_channel
  // ======================================================================

  /** The argument checks of `read_channel`, in the order the source makes
      them, and the command sent when all pass. */
  function CheckChannelRequest(channel: Value, n: Value, mode: Value): (r: Result<string>)
    ensures r.Ok? <==> IsChannel(channel) && n.PyInt? && IsMode(mode)
    ensures r.Ok? ==> r.value == MeasureCommand(mode, channel, n.i)
    ensures !IsChannel(channel) ==> r == Err(ChannelOutOfRange)
    ensures IsChannel(channel) && !n.PyInt? ==> r == Err(ReadingCountNotInt)
    ensures IsChannel(channel) && n.PyInt? && !IsMode(mode) ==> r == Err(ModeInvalid)
  {
    if !IsChannel(channel) then Err(ChannelOutOfRange)
    else if !n.PyInt? then Err(ReadingCountNotInt)
    else if !IsMode(mode) then Err(ModeInvalid)
    else Ok(MeasureCommand(mode, channel, n.i))
  }

  /** `read_channel`: a rejected argument writes nothing and leaves the input
      queue alone; otherwise exactly one command is written, the whole queue
      is drained and decoded. */
  method ReadChannel(ser: SerialPort, channel: Value, n: Value, mode: Value) returns (r: Result<Reading>)
    modifies ser
    ensures CheckChannelRequest(channel, n, mode).Err? ==>
      && r == Err(CheckChannelRequest(channel, n, mode).fault)
      && ser.written == old(ser.written) && ser.pending == old(ser.pending)
    ensures CheckChannelRequest(channel, n, mode).Ok? ==>
      && ser.written == old(ser.written) + [CheckChannelRequest(channel, n, mode).value]
      && ser.pending == []
      && r == ChannelOutcome(old(ser.pending))
  {
    var request := CheckChannelRequest(channel, n, mode);
    if request.Err? {
      return Err(request.fault);
    }
    ser.Write(request.value);
    var lines := ser.ReadLines();
    var values := DecodeLines(lines);
    if values.Err? {
      return Err(values.fault);
    }
    r := Ok(Shape(values.value));
  }

  // ======================================================================
  // read_channels
  // ======================================================================

  const ALL_CHANNELS: seq<Value> := [PyInt(1), PyInt(2), PyInt(3), PyInt(4), PyInt(5)]
  const SHORT_CHANNELS: seq<Value> := [PyInt(1), PyInt(2), PyInt(3)]
  const LONG_CHANNELS: seq<Value> := [PyInt(4), PyInt(5)]

  predicate AllChannels(items: seq<Value>) {
    forall i :: 0 <= i < |items| ==> IsChannel(items[i])
  }

  /** The channel selector of `read_channels`: a list whose entries all pass
      the channel test is used as it is; `'a'`, `'s'` and `'l'` name fixed
      groups; anything else is refused. */
  function ResolveSelector(channels: Value): (r: Result<seq<Value>>)
    ensures r.Ok? ==> AllChannels(r.value)
    ensures channels.PyList? ==>
      && (r.Ok? <==> AllChannels(channels.items))
      && (r.Ok? ==> r.value == channels.items)
      && (r.Err? ==> r.fault == ChannelOutOfRange)
    ensures channels == PyStr("a") ==> r == Ok(ALL_CHANNELS)
    ensures channels == PyStr("s") ==> r == Ok(SHORT_CHANNELS)
    ensures channels == PyStr("l") ==> r == Ok(LONG_CHANNELS)
    ensures !channels.PyList? && channels !in {PyStr("a"), PyStr("s"), PyStr("l")} ==>
      r == Err(SelectorInvalid)
  {
    match channels
    case PyList(items) => if AllChannels(items) then Ok(items) else Err(ChannelOutOfRange)
    case PyStr(s) =>
      if s == "a" then Ok(ALL_CHANNELS)
      else if s == "s" then Ok(SHORT_CHANNELS)
      else if s == "l" then Ok(LONG_CHANNELS)
      else Err(SelectorInvalid)
    case _ => Err(SelectorInvalid)
  }

  /** What `read_channels` is about to do once its arguments passed. */
  datatype Plan = Plan(channels: seq<Value>, mode: Value, count: int)

  predicate ValidPlan(p: Plan) {
    IsMode(p.mode) && AllChannels(p.channels)
  }

  /** All the argument checks of `read_channels`: the selector first, then
      the count, then the mode. */
  function PlanChannels(channels: Value, n: Value, mode: Value): (r: Result<Plan>)
    ensures r.Ok? ==> ValidPlan(r.value)
    ensures r.Ok? <==> ResolveSelector(channels).Ok? && n.PyInt? && IsMode(mode)
    ensures r.Ok? ==> r.value == Plan(ResolveSelector(channels).value, mode, n.i)
    ensures ResolveSelector(channels).Err? ==> r == Err(ResolveSelector(channels).fault)
    ensures ResolveSelector(channels).Ok? && !n.PyInt? ==> r == Err(ReadingCountNotInt)
    ensures ResolveSelector(channels).Ok? && n.PyInt? && !IsMode(mode) ==> r == Err(ModeInvalid)
  {
    match ResolveSelector(channels)
    case Err(e) => Err(e)
    case Ok(ch) =>
      if !n.PyInt? then Err(ReadingCountNotInt)
      else if !IsMode(mode) then Err(ModeInvalid)
      else Ok(Plan(ch, mode, n.i))
  }

  /** One measurement command per channel, in channel order. */
  function Commands(p: Plan): (cmds: seq<string>)
    requires ValidPlan(p)
    ensures |cmds| == |p.channels|
    ensures forall i :: 0 <= i < |cmds| ==> cmds[i] == MeasureCommand(p.mode, p.channels[i], p.count)
  {
    seq(|p.channels|, i requires 0 <= i < |p.channels| => MeasureCommand(p.mode, p.channels[i], p.count))
  }

  /** The clock readings taken after each command: `count` consecutive ones. */
  function Stamps(time: nat -> real, start: nat, count: nat): (ts: seq<real>)
    ensures |ts| == count
    ensures forall i :: 0 <= i < count ==> ts[i] == time(start + i)
  {
    seq(count, i requires 0 <= i < count => time(start + i))
  }

  /** One row of `read_channels`' output: `[channel, timestamp, value]`. */
  datatype Row = Row(channel: Value, timestamp: real, capacitance: real)

  function Min(a: int, b: int): int { if a <= b then a else b }

  /** `[list(el) for el in zip(ch, timestamps, values)]`: rows by position,
      as many as the shortest of the three. */
  function Zip(ch: seq<Value>, ts: seq<real>, vs: seq<real>): (rows: seq<Row>)
    ensures |rows| == Min(|ch|, Min(|ts|, |vs|))
    ensures forall i :: 0 <= i < |rows| ==> rows[i] == Row(ch[i], ts[i], vs[i])
  {
    if ch == [] || ts == [] || vs == [] then []
    else [Row(ch[0], ts[0], vs[0])] + Zip(ch[1..], ts[1..], vs[1..])
  }

  /** The result of `read_channels` once the lines have been drained. */
  function ChannelsOutcome(ch: seq<Value>, ts: seq<real>, lines: seq<string>): Result<seq<Row>> {
    match DecodeLines(lines)
    case Err(e) => Err(e)
    case Ok(vs) => Ok(Zip(ch, ts, vs))
  }

  /** Row i pairs the i-th channel and timestamp with the i-th line read; there
      are as many rows as the shorter of the channel list and the line list,
      because nothing but position ties an answer to its command. */
  lemma ChannelsOutcomeCorrect(ch: seq<Value>, ts: seq<real>, lines: seq<string>)
    requires |ts| == |ch|
    ensures ChannelsOutcome(ch, ts, lines) == Err(NoData) <==> lines == []
    ensures ChannelsOutcome(ch, ts, lines).Ok? <==>
      lines != [] && forall i :: 0 <= i < |lines| ==> ParseDecimal(Clean(lines[i])).Some?
    ensures ChannelsOutcome(ch, ts, lines).Err? ==>
      ChannelsOutcome(ch, ts, lines).fault == DecodeLines(lines).fault
    ensures ChannelsOutcome(ch, ts, lines).Ok? ==>
      var rows := ChannelsOutcome(ch, ts, lines).value;
      && |rows| == Min(|ch|, |lines|)
      && forall i :: 0 <= i < |rows| ==>
        rows[i] == Row(ch[i], ts[i], ParseDecimal(Clean(lines[i])).value)
  {
  }

  /** A board that answers one line short pairs its line with the first
      channel and silently drops the last channel. */
  lemma MissingAnswerDropsLast(c1: Value, c2: Value, t1: real, t2: real, x: string, a: real)
    requires forall i :: 0 <= i < |x| ==> !IsLineNoise(x[i])
    requires ParseDecimal(x) == Some(a)
    ensures ChannelsOutcome([c1, c2], [t1, t2], [x + "\r\n"]) == Ok([Row(c1, t1, a)])
  {
    TerminatedLine(x);
    var vs := DecodeLines([x + "\r\n"]).value;
    assert vs == [a];
    var rows := Zip([c1, c2], [t1, t2], vs);
    assert |rows| == 1 && rows[0] == Row(c1, t1, a);
    assert rows == [Row(c1, t1, a)];
  }

  /** The write loop of `read_channels`: for each command in order, write it
      and read the clock into `timestamps[i]`. The commands are those of the
      channels, one each (see `Commands`). */
  method SendCommands(ser: SerialPort, clock: Clock, cmds: seq<string>) returns (timestamps: array<real>)
    modifies ser, clock
    ensures fresh(timestamps)
    ensures ser.written == old(ser.written) + cmds
    ensures ser.pending == old(ser.pending)
    ensures clock.ticks == old(clock.ticks) + |cmds|
    ensures timestamps[..] == Stamps(clock.time, old(clock.ticks), |cmds|)
  {
    timestamps := new real[|cmds|];
    var i := 0;
    while i < |cmds|
      invariant 0 <= i <= |cmds|
      invariant ser.written == old(ser.written) + cmds[..i]
      invariant ser.pending == old(ser.pending)
      invariant clock.ticks == old(clock.ticks) + i
      invariant forall k :: 0 <= k < i ==> timestamps[k] == clock.time(old(clock.ticks) + k)
    {
      ser.Write(cmds[i]);
      var t := clock.Now();
      timestamps[i] := t;
      assert cmds[..i + 1] == cmds[..i] + [cmds[i]];
      i := i + 1;
    }
    assert cmds[..|cmds|] == cmds;
  }

  /** `read_channels`: all checks happen before the first write; then one
      command per channel is written in channel order, the clock is read
      right after each, the queue is drained once and the lines are decoded
      and paired with the channels by position. */
  method ReadChannels(ser: SerialPort, clock: Clock, channels: Value, n: Value, mode: Value)
    returns (r: Result<seq<Row>>)
    modifies ser, clock
    ensures PlanChannels(channels, n, mode).Err? ==>
      && r == Err(PlanChannels(channels, n, mode).fault)
      && ser.written == old(ser.written) && ser.pending == old(ser.pending)
      && clock.ticks == old(clock.ticks)
    ensures PlanChannels(channels, n, mode).Ok? ==>
      var plan := PlanChannels(channels, n, mode).value;
      && ser.written == old(ser.written) + Commands(plan)
      && ser.pending == []
      && clock.ticks == old(clock.ticks) + |plan.channels|
      && r == ChannelsOutcome(plan.channels,
                              Stamps(clock.time, old(clock.ticks), |plan.channels|),
                              old(ser.pending))
  {
    var checked := PlanChannels(channels, n, mode);
    if checked.Err? {
      return Err(checked.fault);
    }
    var plan := checked.value;
    var timestamps := SendCommands(ser, clock, Commands(plan));
    var lines := ser.ReadLines();
    var values := DecodeLines(lines);
    if values.Err? {
      return Err(values.fault);
    }
    r := Ok(Zip(plan.channels, timestamps[..], values.value));
  }
}
