/** The acquisition script writes its logs under `./outputs/` and the
    plotting class, with its default directory, reads them back: the file
    it loads is the one named after the latest whole second. */
module LogRoundTrip {
  import opened Text
  import opened Outcomes
  import Acquisition
  import Plotting

  /** The logger's name for a non-negative second is the name the plotter
      formats from a date. */
  lemma SameName(n: nat)
    ensures Acquisition.LogFileName(Acquisition.LogFile(n)) == Plotting.DatedName(n)
  {
    assert Acquisition.LOG_PREFIX == Plotting.LOG_STEM + "_";
  }

  /** The files named by the given seconds, as the logger names them. */
  function LoggedNames(seconds: seq<nat>): (names: seq<string>)
    ensures |names| == |seconds|
    ensures forall k :: 0 <= k < |seconds| ==>
      names[k] == Acquisition.LogFileName(Acquisition.LogFile(seconds[k]))
  {
    seq(|seconds|, k requires 0 <= k < |seconds| => Acquisition.LogFileName(Acquisition.LogFile(seconds[k])))
  }

  lemma LoggedNamesAreDated(seconds: seq<nat>)
    ensures LoggedNames(seconds) == Plotting.DatedNames(seconds)
  {
    var names := LoggedNames(seconds);
    forall k | 0 <= k < |seconds| ensures names[k] == Plotting.DatedName(seconds[k]) {
      SameName(seconds[k]);
    }
  }

  lemma OutputDirHasNoDigits()
    ensures NoDigits(Acquisition.OUTPUT_DIR)
  {
  }

  lemma SamePath(n: nat)
    ensures Acquisition.OutputPath(Acquisition.LogFile(n)) == Acquisition.OUTPUT_DIR + Plotting.DatedName(n)
  {
    SameName(n);
  }

  /** Given the directory `./outputs/` the logger fills, the plotter loads
      the path of the log with the largest second. */
  lemma PlotterLoadsLatestLog(seconds: seq<nat>)
    requires |seconds| > 0
    ensures Plotting.LoadedFile(Acquisition.OUTPUT_DIR, LoggedNames(seconds))
      == Ok(Acquisition.OutputPath(Acquisition.LogFile(Plotting.Max(seconds))))
  {
    LoggedNamesAreDated(seconds);
    Plotting.LoadedFileFixedNewest(Acquisition.OUTPUT_DIR, seconds);
    OutputDirHasNoDigits();
    Plotting.LoadedFileAgrees(Acquisition.OUTPUT_DIR, LoggedNames(seconds));
    SamePath(Plotting.Max(seconds));
  }
}
