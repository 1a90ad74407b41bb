/**
 * Concrete runs of the model: how particular `collect` strings are read,
 * and the collaborator calls a whole start/stop bracket makes for them.
 */
module Scenarios {
  import opened Wrappers
  import opened Text
  import opened Tracing

  /** `ftrace` alone selects only ftrace. */
  lemma SelectFtrace()
    ensures Select("ftrace") == Selection(false, false, true, false, false)
  {
  }

  /** The digits after the first `systrace_<digit>` are the duration. */
  lemma DurationExample()
    ensures TraceTime("systrace_50") == Some("50")
  {
    var s := "systrace_50";
    assert MatchAt(s, 0);
    assert FindMatch(s, 0) == Some(0);
    assert DigitRun(s, 11) == [];
    assert DigitRun(s, 10) == "0";
    assert DigitRun(s, 9) == "50";
  }

  /** A plain `systrace` tag carries no duration. */
  lemma NoDurationExample()
    ensures TraceTime("energy,systrace") == None
  {
  }

  /** An empty `collect`: the bracket only dumps the platform description. */
  method EmptyRun(env: TestEnv, variant: Descriptor, outDir: string) returns (w: Workload)
    ensures w.log == [PlatformDump(outDir)]
    ensures w.traceFile == None && w.nrgReport == None
  {
    EmptySelection(outDir, variant.package, env.emeterPresent, None, None, None, None);
    w := new Workload(env, variant);
    w.outDir := outDir;
    var started := w.TracingStart(None);
    w.TracingStop();
  }

  /** The calls of an ftrace-only bracket: the trace is fetched into the file chosen at start. */
  lemma FtraceOnlyEvents(outDir: string, package: string, emeterPresent: bool, duration: Option<string>,
                         traceTime: Option<string>, session: Option<Session>)
    ensures var sel := Selection(false, false, true, false, false);
      StartEvents(sel, outDir, package, emeterPresent, duration) == [FtraceStart]
      && StopEvents(sel, outDir, package, emeterPresent, Some(Join(outDir, FtraceFile)), traceTime, session)
         == [FtraceStop, GetTrace(Some(Join(outDir, FtraceFile))), PlatformDump(outDir)]
  {
  }

  /** gfxinfo with both tracers: start refuses after the gfxinfo reset, and nothing is traced. */
  method ConflictRun(env: TestEnv, variant: Descriptor, collect: string) returns (w: Workload, r: Outcome<Error>)
    requires Select(collect) == Selection(true, false, true, true, false)
    ensures r == Fail(ConfigConflict)
    ensures w.log == [GfxReset(variant.package)]
    ensures w.traceFile == None
  {
    w := new Workload(env, variant);
    w.collect := collect;
    w.outDir := "/data/run";
    r := w.TracingStart(None);
  }

  /** The calls of a systrace-only bracket without a duration: end of input, then the wait. */
  lemma SystraceOnlyEvents(outDir: string, package: string, emeterPresent: bool, h: Session)
    ensures var sel := Selection(false, false, false, true, false);
      StartEvents(sel, outDir, package, emeterPresent, None) == [SystraceStart(Join(outDir, SystraceFile), None)]
      && StopEvents(sel, outDir, package, emeterPresent, Some(Join(outDir, SystraceFile)), None, Some(h))
         == [SendLine(h), Wait(h), PlatformDump(outDir)]
  {
  }
  /** A run's `collect` string with two tags, and its output directory. */
  const RunCollect: string := "ftrace,gfxinfo"
  const RunDir: string := "/tmp/run1"

  /** The tags `ftrace,gfxinfo` holds. */
  lemma FtraceGfxinfoHolds()
    ensures Contains(RunCollect, FtraceTag) && Contains(RunCollect, GfxinfoTag)
  {
    var c := RunCollect;
    assert StartsWith(c, FtraceTag);
    assert c[7..14] == GfxinfoTag;
    assert OccursAt(c, GfxinfoTag, 7);
    ContainsSpec(c, GfxinfoTag);
  }

  /** The tags `ftrace,gfxinfo` lacks: each has a character that does not occur in it. */
  lemma FtraceGfxinfoLacks()
    ensures !Contains(RunCollect, SurfaceFlingerTag) && !Contains(RunCollect, SystraceTag)
    ensures !Contains(RunCollect, EnergyTag)
  {
    var c := RunCollect;
    assert forall i :: 0 <= i < |c| ==> c[i] != 's' && c[i] != 'y';
    MissingCharNotContained(c, SurfaceFlingerTag, 0);
    MissingCharNotContained(c, SystraceTag, 0);
    MissingCharNotContained(c, EnergyTag, 5);
  }

  /** `ftrace,gfxinfo` selects ftrace and gfxinfo, and nothing else. */
  lemma SelectFtraceGfxinfo()
    ensures Select(RunCollect) == Selection(true, false, true, false, false)
  {
    FtraceGfxinfoHolds();
    FtraceGfxinfoLacks();
  }

  /** The files of a run in `/tmp/run1`. */
  lemma JoinRunFiles()
    ensures Join(RunDir, FtraceFile) == "/tmp/run1/trace.dat"
    ensures Join(RunDir, GfxinfoFile) == "/tmp/run1/dumpsys_gfxinfo.txt"
  {
    assert FtraceFile[0] != '/' && GfxinfoFile[0] != '/';
    assert RunDir[|RunDir| - 1] != '/';
    assert RunDir + "/" + FtraceFile == "/tmp/run1/trace.dat";
    assert RunDir + "/" + GfxinfoFile == "/tmp/run1/dumpsys_gfxinfo.txt";
  }

  /** The calls of an ftrace and gfxinfo bracket, for any output directory. */
  lemma FtraceGfxinfoCalls(outDir: string, package: string, emeterPresent: bool, duration: Option<string>,
                           traceTime: Option<string>, session: Option<Session>, before: Option<string>)
    ensures var sel := Selection(true, false, true, false, false);
      StartedTraceFile(sel, outDir, before) == Some(Join(outDir, FtraceFile))
      && StartEvents(sel, outDir, package, emeterPresent, duration) == [GfxReset(package), FtraceStart]
      && StopEvents(sel, outDir, package, emeterPresent, Some(Join(outDir, FtraceFile)), traceTime, session)
         == [FtraceStop, GetTrace(Some(Join(outDir, FtraceFile))),
             GfxDump(package, Join(outDir, GfxinfoFile)), GfxParse(Join(outDir, GfxinfoFile)),
             PlatformDump(outDir)]
  {
  }

  /**
   * An ftrace and gfxinfo bracket on `/tmp/run1`, read from the `collect`
   * string itself: start resets gfxinfo and starts ftrace on
   * `/tmp/run1/trace.dat`; stop fetches the trace into that file, dumps
   * and parses `/tmp/run1/dumpsys_gfxinfo.txt`, and dumps the platform.
   */
  lemma FtraceGfxinfoEvents(package: string, emeterPresent: bool, traceTime: Option<string>,
                            session: Option<Session>, before: Option<string>)
    ensures StartedTraceFile(Select(RunCollect), RunDir, before) == Some("/tmp/run1/trace.dat")
    ensures StartEvents(Select(RunCollect), RunDir, package, emeterPresent, TraceTime(RunCollect))
            == [GfxReset(package), FtraceStart]
    ensures StopEvents(Select(RunCollect), RunDir, package, emeterPresent, Some("/tmp/run1/trace.dat"),
                       traceTime, session)
         == [FtraceStop, GetTrace(Some("/tmp/run1/trace.dat")),
             GfxDump(package, "/tmp/run1/dumpsys_gfxinfo.txt"), GfxParse("/tmp/run1/dumpsys_gfxinfo.txt"),
             PlatformDump(RunDir)]
  {
    SelectFtraceGfxinfo();
    JoinRunFiles();
    FtraceGfxinfoCalls(RunDir, package, emeterPresent, TraceTime(RunCollect), traceTime, session, before);
  }
}
