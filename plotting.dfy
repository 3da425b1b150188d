/** The choice of the log file the plotting class loads, and the labels it
    gives the channels. The directory listing is an input; reading the CSV
    and drawing are not modelled. */
module Plotting {
  import opened Text
  import opened Outcomes

  const LOG_STEM := "levelmeters"

  predicate IsLogName(n: string) { StartsWith(n, LOG_STEM) }

  /** The names in the directory that `levelmeters*` matches, in listing order. */
  function LogNames(names: seq<string>): (m: seq<string>)
    ensures |m| <= |names|
    ensures forall k :: 0 <= k < |m| ==> m[k] in names && IsLogName(m[k])
    ensures forall n :: n in names && IsLogName(n) ==> n in m
  {
    if names == [] then []
    else
      var rest := LogNames(names[1..]);
      assert forall n :: n in names[1..] ==> n in names;
      assert forall n :: n in names ==> n == names[0] || n in names[1..];
      (if IsLogName(names[0]) then [names[0]] else []) + rest
  }

  /** Every name prefixed by the directory path. */
  function Prefixed(dataPath: string, names: seq<string>): (paths: seq<string>)
    ensures |paths| == |names|
    ensures forall k :: 0 <= k < |names| ==> paths[k] == dataPath + names[k]
  {
    seq(|names|, k requires 0 <= k < |names| => dataPath + names[k])
  }

  /** `glob.glob(data_path + 'levelmeters*')` over the names in the
      directory. The order of the listing is kept; nothing below depends on it. */
  function Glob(dataPath: string, names: seq<string>): seq<string> {
    Prefixed(dataPath, LogNames(names))
  }

  /** `int(re.findall(r'\d+', path)[0])`: the first run of digits anywhere
      in the path; a path without a digit raises. */
  function LeadingNumber(path: string): (r: Result<nat>)
    ensures r.Err? <==> NoDigits(path)
    ensures r.Err? ==> r.fault == PathWithoutDigits(path)
  {
    DigitRunsEmpty(path);
    var runs := DigitRuns(path);
    if runs == [] then Err(PathWithoutDigits(path)) else Ok(DigitsValue(runs[0]))
  }

  /** The leading numbers of all paths, in order; the first path without a
      digit raises before anything is compared. */
  function Dates(paths: seq<string>): (r: Result<seq<nat>>)
    ensures r.Ok? <==> forall k :: 0 <= k < |paths| ==> !NoDigits(paths[k])
    ensures r.Ok? ==> |r.value| == |paths|
    ensures r.Ok? ==> forall k :: 0 <= k < |paths| ==> LeadingNumber(paths[k]) == Ok(r.value[k])
    ensures r.Err? ==> exists k :: 0 <= k < |paths| && NoDigits(paths[k]) && r.fault == PathWithoutDigits(paths[k])
  {
    if paths == [] then Ok([])
    else
      assert forall k :: 1 <= k < |paths| ==> paths[k] == paths[1..][k - 1];
      match LeadingNumber(paths[0])
      case Err(e) => Err(e)
      case Ok(d) =>
        match Dates(paths[1..])
        case Err(e) => Err(e)
        case Ok(ds) => Ok([d] + ds)
  }

  /** `max` of a non-empty list: one of its elements, at least every one. */
  function Max(xs: seq<nat>): (m: nat)
    requires |xs| > 0
    ensures m in xs
    ensures forall k :: 0 <= k < |xs| ==> xs[k] <= m
  {
    if |xs| == 1 then xs[0]
    else
      var rest := Max(xs[1..]);
      assert forall k :: 1 <= k < |xs| ==> xs[k] == xs[1..][k - 1];
      if xs[0] >= rest then xs[0] else rest
  }

  /** `latest_date`: the largest leading number over the matching paths; no
      matching path at all is an error of its own. */
  function LatestDate(paths: seq<string>): (r: Result<nat>)
    ensures r.Ok? ==> |paths| > 0
    ensures r.Ok? ==> exists k :: 0 <= k < |paths| && LeadingNumber(paths[k]) == Ok(r.value)
    ensures r.Ok? ==> forall k :: 0 <= k < |paths| ==>
      LeadingNumber(paths[k]).Ok? && LeadingNumber(paths[k]).value <= r.value
    ensures Dates(paths).Ok? && paths == [] ==> r == Err(NoLogFiles)
    ensures Dates(paths).Err? ==> r == Err(Dates(paths).fault)
    ensures r.Ok? <==> Dates(paths).Ok? && paths != []
  {
    match Dates(paths)
    case Err(e) => Err(e)
    case Ok(ds) =>
      if ds == [] then Err(NoLogFiles)
      else
        var m := Max(ds);
        var k :| 0 <= k < |ds| && ds[k] == m;
        assert LeadingNumber(paths[k]) == Ok(m);
        Ok(m)
  }

  /** `'levelmeters_{}.csv'.format(n)`. */
  function DatedName(n: nat): string {
    LOG_STEM + "_" + NatToString(n) + ".csv"
  }

  /** The path `__init__` loads, as written: the date is taken from the
      whole path, directory included. */
  function LoadedFile(dataPath: string, names: seq<string>): Result<string> {
    match LatestDate(Glob(dataPath, names))
    case Err(e) => Err(e)
    case Ok(n) => Ok(dataPath + DatedName(n))
  }

  /** The path intended to be loaded: the date taken from the file names only. */
  function LoadedFileFixed(dataPath: string, names: seq<string>): Result<string> {
    match LatestDate(LogNames(names))
    case Err(e) => Err(e)
    case Ok(n) => Ok(dataPath + DatedName(n))
  }

  // ---------------------------------------------------------------- the names the logger writes

  /** The name of a file the acquisition loop writes has its own number as
      its leading number. */
  lemma DatedNameNumber(n: nat)
    ensures LeadingNumber(DatedName(n)) == Ok(n)
  {
    var d := NatToString(n);
    var stem := LOG_STEM + "_";
    assert NoDigits(stem);
    assert DatedName(n) == stem + (d + ".csv");
    DigitRunsSkip(stem, d + ".csv");
    DigitRunsFirst(d, ".csv");
  }

  /** A digit-free directory path does not change a leading number. */
  lemma LeadingNumberBehind(p: string, s: string)
    requires NoDigits(p)
    ensures LeadingNumber(p + s) == (if NoDigits(s) then Err(PathWithoutDigits(p + s)) else LeadingNumber(s))
  {
    DigitRunsSkip(p, s);
    DigitRunsEmpty(s);
    DigitRunsEmpty(p + s);
  }

  /** Prefixing every path by a digit-free directory changes no date, and
      fails exactly when the unprefixed names fail. */
  lemma {:induction false} DatesBehind(p: string, names: seq<string>)
    requires NoDigits(p)
    ensures Dates(Prefixed(p, names)).Ok? <==> Dates(names).Ok?
    ensures Dates(names).Ok? ==> Dates(Prefixed(p, names)).value == Dates(names).value
  {
    if names != [] {
      var ps := Prefixed(p, names);
      DatesBehind(p, names[1..]);
      assert ps[1..] == Prefixed(p, names[1..]);
      LeadingNumberBehind(p, names[0]);
      var a := Dates(ps);
      var b := Dates(names);
      assert a.Ok? ==> a.value == [LeadingNumber(ps[0]).value] + Dates(ps[1..]).value;
      assert b.Ok? ==> b.value == [LeadingNumber(names[0]).value] + Dates(names[1..]).value;
    }
  }

  /** With a directory path free of digits the file chosen as written is the
      intended one, and one fails exactly when the other does. */
  lemma LoadedFileAgrees(dataPath: string, names: seq<string>)
    requires NoDigits(dataPath)
    ensures LoadedFile(dataPath, names).Ok? <==> LoadedFileFixed(dataPath, names).Ok?
    ensures LoadedFile(dataPath, names).Ok? ==> LoadedFile(dataPath, names) == LoadedFileFixed(dataPath, names)
  {
    var logs := LogNames(names);
    DatesBehind(dataPath, logs);
    var a := Dates(Prefixed(dataPath, logs));
    var b := Dates(logs);
    if a.Ok? && logs != [] {
      assert LatestDate(Glob(dataPath, names)) == Ok(Max(a.value));
      assert LatestDate(logs) == Ok(Max(b.value));
    }
  }

  /** The names of the files written with the given dates, in order. */
  function DatedNames(dates: seq<nat>): (names: seq<string>)
    ensures |names| == |dates|
    ensures forall k :: 0 <= k < |dates| ==> names[k] == DatedName(dates[k])
  {
    seq(|dates|, k requires 0 <= k < |dates| => DatedName(dates[k]))
  }

  lemma DatedNameIsLogName(n: nat)
    ensures IsLogName(DatedName(n))
  {
    assert DatedName(n) == LOG_STEM + ("_" + NatToString(n) + ".csv");
  }

  lemma {:induction false} LogNamesOfDatedNames(dates: seq<nat>)
    ensures LogNames(DatedNames(dates)) == DatedNames(dates)
  {
    if dates != [] {
      var names := DatedNames(dates);
      LogNamesOfDatedNames(dates[1..]);
      assert names[1..] == DatedNames(dates[1..]);
      DatedNameIsLogName(dates[0]);
    }
  }

  /** The corrected selection loads the newest file the logger wrote: given
      the names `levelmeters_<n>.csv` it picks the largest `n`. */
  lemma LoadedFileFixedNewest(dataPath: string, dates: seq<nat>)
    requires |dates| > 0
    ensures LoadedFileFixed(dataPath, DatedNames(dates)) == Ok(dataPath + DatedName(Max(dates)))
  {
    var names := DatedNames(dates);
    LogNamesOfDatedNames(dates);
    forall k | 0 <= k < |names| ensures LeadingNumber(names[k]) == Ok(dates[k]) {
      DatedNameNumber(dates[k]);
    }
    DatesOfNumbers(names, dates);
  }

  /** Paths whose leading numbers are known give exactly those dates. */
  lemma DatesOfNumbers(paths: seq<string>, ns: seq<nat>)
    requires |paths| == |ns|
    requires forall k :: 0 <= k < |paths| ==> LeadingNumber(paths[k]) == Ok(ns[k])
    ensures Dates(paths) == Ok(ns)
  {
    var ds := Dates(paths);
    assert ds.Ok?;
    forall k | 0 <= k < |ns| ensures ds.value[k] == ns[k] {
      assert LeadingNumber(paths[k]) == Ok(ds.value[k]);
    }
    assert ds.value == ns;
  }

  // ---------------------------------------------------------------- the finding

  /** As written, a directory path with a digit in it decides the date: every
      matching path has the directory's first number as its leading number,
      so the file loaded is named after the directory, not after any log. */
  lemma DirectoryDigitDecides(dataPath: string, names: seq<string>, d: nat)
    requires LeadingNumber(dataPath) == Ok(d)
    requires Glob(dataPath, names) != []
    ensures LoadedFile(dataPath, names) == Ok(dataPath + DatedName(d))
  {
    var logs := LogNames(names);
    var paths := Glob(dataPath, names);
    forall k | 0 <= k < |paths| ensures LeadingNumber(paths[k]) == Ok(d) {
      var n := logs[k];
      assert n[0] == LOG_STEM[0] by {
        assert IsLogName(n);
        assert n[..|LOG_STEM|][0] == n[0];
      }
      LeadingNumberAfterDigits(dataPath, n);
    }
  }

  /** The first digit run of a path is not affected by text appended after
      it, provided that text does not continue the run. */
  lemma {:induction false} LeadingNumberAfterDigits(p: string, s: string)
    requires !NoDigits(p)
    requires s == [] || !IsDigit(s[0])
    ensures LeadingNumber(p + s) == LeadingNumber(p)
    decreases |p|
  {
    if IsDigit(p[0]) {
      LeadingNumberAfterRun(p, s);
    } else {
      var tail := p[1..];
      assert !NoDigits(tail) by {
        var i :| 0 <= i < |p| && IsDigit(p[i]);
        assert i > 0 && tail[i - 1] == p[i];
      }
      LeadingNumberAfterDigits(tail, s);
      SkipNonDigit(p);
      assert (p + s)[1..] == tail + s;
      SkipNonDigit(p + s);
    }
  }

  /** A leading non-digit does not change the first digit run of a path
      that has one after it. */
  lemma SkipNonDigit(q: string)
    requires |q| > 0 && !IsDigit(q[0]) && !NoDigits(q[1..])
    ensures LeadingNumber(q) == LeadingNumber(q[1..])
  {
    assert NoDigits([q[0]]);
    assert q == [q[0]] + q[1..];
    DigitRunsSkip([q[0]], q[1..]);
    DigitRunsEmpty(q[1..]);
    DigitRunsEmpty(q);
  }

  /** A path that starts with a digit run keeps that run first whatever
      non-continuing text follows. */
  lemma LeadingNumberAfterRun(p: string, s: string)
    requires |p| > 0 && IsDigit(p[0])
    requires s == [] || !IsDigit(s[0])
    ensures LeadingNumber(p + s) == LeadingNumber(p)
  {
    var k := DigitPrefix(p);
    var run := p[..k];
    var after := p[k..];
    assert p == run + after;
    assert p + s == run + (after + s);
    assert k > 0 by { assert p[..1] == [p[0]]; }
    if k < |p| {
      DigitRunsFirst(run, after);
      assert (after + s)[0] == after[0];
      DigitRunsFirst(run, after + s);
    } else {
      assert after == [];
      DigitRunsFirst(run, s);
      DigitRunsFirst(run, []);
      assert run + [] == run;
    }
  }

  /** A directory named `run1` and one log file `levelmeters_<n>.csv` with `n`
      other than 1: as written the file loaded is `levelmeters_1.csv`, which
      is not in the directory; the corrected selection loads the log. */
  lemma DirectoryDigitExample(dir: string, n: nat)
    requires dir == "./run1/"
    requires n != 1
    ensures LoadedFile(dir, [DatedName(n)]) == Ok(dir + DatedName(1))
    ensures dir + DatedName(1) != dir + DatedName(n)
    ensures LoadedFileFixed(dir, [DatedName(n)]) == Ok(dir + DatedName(n))
  {
    RunOneNumber(dir);
    var names := DatedNames([n]);
    assert names == [DatedName(n)];
    LogNamesOfDatedNames([n]);
    assert Glob(dir, names) == [dir + DatedName(n)];
    DirectoryDigitDecides(dir, names, 1);
    DatedNameInjective(1, n);
    assert (dir + DatedName(1))[|dir|..] == DatedName(1);
    assert (dir + DatedName(n))[|dir|..] == DatedName(n);
    LoadedFileFixedNewest(dir, [n]);
  }

  lemma RunOneNumber(dir: string)
    requires dir == "./run1/"
    ensures LeadingNumber(dir) == Ok(1)
  {
    var p := "./run";
    var rest := "1/";
    assert dir == p + rest;
    assert NoDigits(p);
    DigitRunsSkip(p, rest);
    assert rest == ['1'] + ['/'];
    DigitRunsFirst(['1'], ['/']);
    assert DigitsValue(['1']) == 1 by {
      assert ['1'][..0] == [];
    }
  }

  lemma DatedNameInjective(m: nat, n: nat)
    ensures DatedName(m) == DatedName(n) ==> m == n
  {
    DatedNameNumber(m);
    DatedNameNumber(n);
  }

  // ---------------------------------------------------------------- labels

  /** `names_dict`: the plot label of each channel. */
  const LABELS: map<string, string> := map[
    "1" := "SLM 1", "2" := "SLM 2", "3" := "SLM 3",
    "4" := "LLM (upper)", "5" := "LLM (lower)", "6" := "Reference 100 pF"]

  /** `names_dict[str(channel)]`, raising for a channel without a label. */
  function LabelFor(channel: int): (r: Result<string>)
    ensures r.Err? ==> r.fault == NoLabel(IntToString(channel))
    ensures r.Ok? ==> r.value in LABELS.Values
  {
    var key := IntToString(channel);
    if key in LABELS then Ok(LABELS[key]) else Err(NoLabel(key))
  }

  /** Exactly the channels 1 to 6 have a label. */
  lemma LabelForDefined(channel: int)
    ensures LabelFor(channel).Ok? <==> 1 <= channel <= 6
  {
    var key := IntToString(channel);
    if 1 <= channel <= 6 {
      assert key == [DigitChar(channel)];
    }
    if key in LABELS {
      assert |key| == 1;
      if channel >= 0 {
        assert channel < 10;
        assert DigitValue(key[0]) == channel by {
          assert key[..0] == [];
        }
      }
    }
  }

  /** The labels of the channels to plot, in order; the first channel
      without a label raises. */
  function PlotLabels(channels: seq<int>): (r: Result<seq<string>>)
    ensures r.Ok? ==> |r.value| == |channels|
    ensures r.Ok? ==> forall k :: 0 <= k < |channels| ==> LabelFor(channels[k]) == Ok(r.value[k])
    ensures r.Ok? <==> forall k :: 0 <= k < |channels| ==> LabelFor(channels[k]).Ok?
  {
    if channels == [] then Ok([])
    else
      assert forall k :: 1 <= k < |channels| ==> channels[k] == channels[1..][k - 1];
      match LabelFor(channels[0])
      case Err(e) => Err(e)
      case Ok(l) =>
        match PlotLabels(channels[1..])
        case Err(e) => Err(e)
        case Ok(ls) => Ok([l] + ls)
  }

  /** The label of a channel from 1 to 6 is the entry under its digit. */
  lemma LabelOfChannel(c: int)
    requires 1 <= c <= 6
    ensures LabelFor(c) == Ok(LABELS[[DigitChar(c)]])
  {
    assert IntToString(c) == [DigitChar(c)];
  }

  /** The two plots the script draws: the short level meters and the long ones. */
  lemma ScriptLabels()
    ensures PlotLabels([1, 2, 3]) == Ok(["SLM 1", "SLM 2", "SLM 3"])
    ensures PlotLabels([4, 5]) == Ok(["LLM (upper)", "LLM (lower)"])
  {
    LabelOfChannel(1);
    LabelOfChannel(2);
    LabelOfChannel(3);
    LabelOfChannel(4);
    LabelOfChannel(5);
    assert DigitChar(1) == '1' && DigitChar(2) == '2' && DigitChar(3) == '3';
    assert DigitChar(4) == '4' && DigitChar(5) == '5';
    var short := PlotLabels([1, 2, 3]);
    assert short.Ok?;
    assert short.value == ["SLM 1", "SLM 2", "SLM 3"];
    var long := PlotLabels([4, 5]);
    assert long.Ok?;
    assert long.value == ["LLM (upper)", "LLM (lower)"];
  }
}
