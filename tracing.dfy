/**
 * The tracing lifecycle of one Android workload run: `tracingStart`
 * resets the selected dumpsys collectors and starts ftrace, systrace and
 * the energy meter; `tracingStop` collects their results in a fixed
 * order. Every collaborator call is recorded as an Event in a ghost log,
 * so the order and exclusivity rules become postconditions.
 */
module Tracing {
  import opened Wrappers
  import opened Text

  /** A workload variant: its class name and the Android package it drives. */
  datatype Descriptor = Descriptor(name: string, package: string)

  /** What the test environment offers a workload. */
  datatype TestEnv = TestEnv(adbName: string, installed: seq<string>, emeterPresent: bool)

  datatype Error =
    | NotAvailable(name: string)  // ValueError raised by getInstance
    | ConfigConflict              // ValueError raised by tracingStart

  /** The handle of a running systrace process, as returned by System.systrace_start. */
  datatype Session = Session(id: nat)

  /** Results stored on the instance; only the file each was produced from is kept. */
  datatype EnergyReport = EnergyReport(outDir: string)
  datatype FrameStats = FrameStats(dumpFile: string)
  datatype CompositorStats = CompositorStats(dumpFile: string)

  /** One call of the workload into a collaborator. */
  datatype Event =
    | GfxReset(package: string)
    | SurfaceFlingerReset(package: string)
    | FtraceStart
    | SystraceStart(traceFile: string, traceTime: Option<string>)
    | EmeterReset
    | EmeterReport(outDir: string)
    | FtraceStop
    | GetTrace(destination: Option<string>)
    | SendLine(session: Session)
    | Wait(session: Session)
    | GfxDump(package: string, dumpFile: string)
    | GfxParse(dumpFile: string)
    | SurfaceFlingerDump(package: string, dumpFile: string)
    | SurfaceFlingerParse(dumpFile: string)
    | PlatformDump(outDir: string)

  const GfxinfoTag: string := "gfxinfo"
  const SurfaceFlingerTag: string := "surfaceflinger"
  const FtraceTag: string := "ftrace"
  const SystraceTag: string := "systrace"
  const EnergyTag: string := "energy"

  const FtraceFile: string := "trace.dat"
  const SystraceFile: string := "trace.html"
  const GfxinfoFile: string := "dumpsys_gfxinfo.txt"
  const SurfaceFlingerFile: string := "dumpsys_surfaceflinger.txt"

  /**
   * The collectors a `collect` string selects. The source tests each tag
   * as a substring of the free-form string, so "systrace_5000" selects
   * systrace and "nosurfaceflinger" selects SurfaceFlinger.
   */
  datatype Selection = Selection(gfxinfo: bool, surfaceflinger: bool, ftrace: bool, systrace: bool, energy: bool)

  function Select(collect: string): Selection {
    Selection(Contains(collect, GfxinfoTag), Contains(collect, SurfaceFlingerTag),
              Contains(collect, FtraceTag), Contains(collect, SystraceTag), Contains(collect, EnergyTag))
  }

  /** Both tracers were asked for: tracingStart refuses this. */
  predicate Conflict(sel: Selection) {
    sel.ftrace && sel.systrace
  }

  /** Systrace is the tracer of this run (ftrace takes the `if` branch first). */
  predicate UsesSystrace(sel: Selection) {
    !sel.ftrace && sel.systrace
  }

  /** The energy meter takes part: the tag is present and the environment has a meter. */
  predicate EnergySelected(sel: Selection, emeterPresent: bool) {
    sel.energy && emeterPresent
  }

  // ---------------------------------------------------------------
  // Lifecycle phases
  // ---------------------------------------------------------------

  /**
   * The position of each call in the lifecycle: dumpsys resets, tracer
   * start, energy reset, then energy report, tracer stop, gfxinfo,
   * SurfaceFlinger and finally the platform dump.
   */
  function Phase(e: Event): nat {
    match e
    case GfxReset(_) => 0
    case SurfaceFlingerReset(_) => 1
    case FtraceStart => 2
    case SystraceStart(_, _) => 2
    case EmeterReset => 3
    case EmeterReport(_) => 4
    case FtraceStop => 5
    case GetTrace(_) => 5
    case SendLine(_) => 5
    case Wait(_) => 5
    case GfxDump(_, _) => 6
    case GfxParse(_) => 6
    case SurfaceFlingerDump(_, _) => 7
    case SurfaceFlingerParse(_) => 7
    case PlatformDump(_) => 8
  }

  /** No call comes after a call of a later phase. */
  ghost predicate Ordered(events: seq<Event>) {
    forall i, j :: 0 <= i < j < |events| ==> Phase(events[i]) <= Phase(events[j])
  }

  ghost predicate PhasesWithin(events: seq<Event>, lo: nat, hi: nat) {
    forall i :: 0 <= i < |events| ==> lo <= Phase(events[i]) <= hi
  }

  lemma OrderedAppend(a: seq<Event>, b: seq<Event>, lo: nat, mid: nat, hi: nat)
    requires Ordered(a) && Ordered(b) && lo <= mid <= hi
    requires PhasesWithin(a, lo, mid) && PhasesWithin(b, mid, hi)
    ensures Ordered(a + b) && PhasesWithin(a + b, lo, hi)
  {
    forall i, j | 0 <= i < j < |a + b| ensures Phase((a + b)[i]) <= Phase((a + b)[j]) {
      if j < |a| {
        assert (a + b)[i] == a[i] && (a + b)[j] == a[j];
      } else if i < |a| {
        assert (a + b)[i] == a[i] && (a + b)[j] == b[j - |a|];
      } else {
        assert (a + b)[i] == b[i - |a|] && (a + b)[j] == b[j - |a|];
      }
    }
    forall i | 0 <= i < |a + b| ensures lo <= Phase((a + b)[i]) <= hi {
      if i < |a| {
        assert (a + b)[i] == a[i];
      } else {
        assert (a + b)[i] == b[i - |a|];
      }
    }
  }

  lemma AppendAssoc(a: seq<Event>, b: seq<Event>, c: seq<Event>)
    ensures (a + b) + c == a + (b + c)
  {
  }

  // ---------------------------------------------------------------
  // Specification of tracingStart
  // ---------------------------------------------------------------

  /** The dumpsys resets, issued before the conflict check. */
  function ResetEvents(sel: Selection, package: string): seq<Event> {
    (if sel.gfxinfo then [GfxReset(package)] else [])
    + (if sel.surfaceflinger then [SurfaceFlingerReset(package)] else [])
  }

  /** The tracer start: ftrace wins over systrace, which is given its file and optional duration. */
  function TracerStartEvents(sel: Selection, outDir: string, duration: Option<string>): seq<Event> {
    if sel.ftrace then [FtraceStart]
    else if sel.systrace then [SystraceStart(Join(outDir, SystraceFile), duration)]
    else []
  }

  function EnergyStartEvents(sel: Selection, emeterPresent: bool): seq<Event> {
    if EnergySelected(sel, emeterPresent) then [EmeterReset] else []
  }

  /**
   * The calls tracingStart makes, up to the point where it returns or
   * raises; `duration` is the systrace duration it extracts.
   */
  function StartEvents(sel: Selection, outDir: string, package: string, emeterPresent: bool,
                       duration: Option<string>): seq<Event>
  {
    if Conflict(sel) then ResetEvents(sel, package)
    else ResetEvents(sel, package) + TracerStartEvents(sel, outDir, duration) + EnergyStartEvents(sel, emeterPresent)
  }

  /** trace_file after tracingStart, given its value before. */
  function StartedTraceFile(sel: Selection, outDir: string, before: Option<string>): Option<string> {
    if Conflict(sel) then before
    else if sel.ftrace then Some(Join(outDir, FtraceFile))
    else if sel.systrace then Some(Join(outDir, SystraceFile))
    else before
  }

  // ---------------------------------------------------------------
  // Specification of tracingStop
  // ---------------------------------------------------------------

  /** The systrace finalisation: end of input only for an unbounded trace, then the wait. */
  function SystraceStopEvents(session: Option<Session>, traceTime: Option<string>): seq<Event> {
    match session
    case None => []
    case Some(h) => (if traceTime.None? then [SendLine(h)] else []) + [Wait(h)]
  }

  function EnergyStopEvents(sel: Selection, outDir: string, emeterPresent: bool): seq<Event> {
    if EnergySelected(sel, emeterPresent) then [EmeterReport(outDir)] else []
  }

  /** Stopping ftrace and fetching its trace, or finalising the systrace session. */
  function TracerStopEvents(sel: Selection, traceFile: Option<string>, traceTime: Option<string>,
                            session: Option<Session>): seq<Event>
  {
    if sel.ftrace then [FtraceStop, GetTrace(traceFile)]
    else if sel.systrace then SystraceStopEvents(session, traceTime)
    else []
  }

  /** The gfxinfo dump, then the parse of the file it wrote. */
  function GfxStopEvents(sel: Selection, outDir: string, package: string): seq<Event> {
    if sel.gfxinfo
    then [GfxDump(package, Join(outDir, GfxinfoFile)), GfxParse(Join(outDir, GfxinfoFile))]
    else []
  }

  /** The SurfaceFlinger dump, then the parse of the file it wrote. */
  function SurfaceFlingerStopEvents(sel: Selection, outDir: string, package: string): seq<Event> {
    if sel.surfaceflinger
    then [SurfaceFlingerDump(package, Join(outDir, SurfaceFlingerFile)),
          SurfaceFlingerParse(Join(outDir, SurfaceFlingerFile))]
    else []
  }

  /** The collection steps of tracingStop, before the platform dump. */
  function CollectEvents(sel: Selection, outDir: string, package: string, emeterPresent: bool,
                         traceFile: Option<string>, traceTime: Option<string>, session: Option<Session>): seq<Event>
  {
    EnergyStopEvents(sel, outDir, emeterPresent)
    + TracerStopEvents(sel, traceFile, traceTime, session)
    + GfxStopEvents(sel, outDir, package)
    + SurfaceFlingerStopEvents(sel, outDir, package)
  }

  /** The calls tracingStop makes, in order. */
  function StopEvents(sel: Selection, outDir: string, package: string, emeterPresent: bool,
                      traceFile: Option<string>, traceTime: Option<string>, session: Option<Session>): seq<Event>
  {
    CollectEvents(sel, outDir, package, emeterPresent, traceFile, traceTime, session) + [PlatformDump(outDir)]
  }

  // ---------------------------------------------------------------
  // Properties of the lifecycle
  // ---------------------------------------------------------------

  /** A sequence whose calls all belong to one phase is ordered. */
  lemma SinglePhaseOrdered(events: seq<Event>, p: nat)
    requires PhasesWithin(events, p, p)
    ensures Ordered(events)
  {
  }

  lemma ResetOrdered(sel: Selection, package: string)
    ensures Ordered(ResetEvents(sel, package)) && PhasesWithin(ResetEvents(sel, package), 0, 1)
  {
  }

  lemma TracerStartPhase(sel: Selection, outDir: string, duration: Option<string>)
    ensures PhasesWithin(TracerStartEvents(sel, outDir, duration), 2, 2)
  {
  }

  lemma EnergyStartPhase(sel: Selection, emeterPresent: bool)
    ensures PhasesWithin(EnergyStartEvents(sel, emeterPresent), 3, 3)
  {
  }

  lemma StartOrdered(sel: Selection, outDir: string, package: string, emeterPresent: bool, duration: Option<string>)
    requires !Conflict(sel)
    ensures Ordered(StartEvents(sel, outDir, package, emeterPresent, duration))
    ensures PhasesWithin(StartEvents(sel, outDir, package, emeterPresent, duration), 0, 3)
  {
    var r := ResetEvents(sel, package);
    var ts := TracerStartEvents(sel, outDir, duration);
    var es := EnergyStartEvents(sel, emeterPresent);
    ResetOrdered(sel, package);
    TracerStartPhase(sel, outDir, duration);
    SinglePhaseOrdered(ts, 2);
    EnergyStartPhase(sel, emeterPresent);
    SinglePhaseOrdered(es, 3);
    OrderedAppend(r, ts, 0, 2, 2);
    OrderedAppend(r + ts, es, 0, 3, 3);
  }

  lemma EnergyStopPhase(sel: Selection, outDir: string, emeterPresent: bool)
    ensures PhasesWithin(EnergyStopEvents(sel, outDir, emeterPresent), 4, 4)
  {
  }

  lemma TracerStopPhase(sel: Selection, traceFile: Option<string>, traceTime: Option<string>, session: Option<Session>)
    ensures PhasesWithin(TracerStopEvents(sel, traceFile, traceTime, session), 5, 5)
  {
  }

  lemma GfxStopPhase(sel: Selection, outDir: string, package: string)
    ensures PhasesWithin(GfxStopEvents(sel, outDir, package), 6, 6)
  {
  }

  lemma SurfaceFlingerStopPhase(sel: Selection, outDir: string, package: string)
    ensures PhasesWithin(SurfaceFlingerStopEvents(sel, outDir, package), 7, 7)
  {
  }

  lemma CollectOrdered(sel: Selection, outDir: string, package: string, emeterPresent: bool,
                       traceFile: Option<string>, traceTime: Option<string>, session: Option<Session>)
    ensures Ordered(CollectEvents(sel, outDir, package, emeterPresent, traceFile, traceTime, session))
    ensures PhasesWithin(CollectEvents(sel, outDir, package, emeterPresent, traceFile, traceTime, session), 4, 7)
  {
    var er := EnergyStopEvents(sel, outDir, emeterPresent);
    var tt := TracerStopEvents(sel, traceFile, traceTime, session);
    var g := GfxStopEvents(sel, outDir, package);
    var f := SurfaceFlingerStopEvents(sel, outDir, package);
    EnergyStopPhase(sel, outDir, emeterPresent);
    SinglePhaseOrdered(er, 4);
    TracerStopPhase(sel, traceFile, traceTime, session);
    SinglePhaseOrdered(tt, 5);
    GfxStopPhase(sel, outDir, package);
    SinglePhaseOrdered(g, 6);
    SurfaceFlingerStopPhase(sel, outDir, package);
    SinglePhaseOrdered(f, 7);
    OrderedAppend(er, tt, 4, 5, 5);
    OrderedAppend(er + tt, g, 4, 6, 6);
    OrderedAppend(er + tt + g, f, 4, 7, 7);
  }

  /**
   * A run that starts without a conflict and then stops calls the
   * collaborators in lifecycle order.
   */
  lemma LifecycleOrdered(sel: Selection, outDir: string, package: string, emeterPresent: bool,
                         duration: Option<string>, traceFile: Option<string>, traceTime: Option<string>,
                         session: Option<Session>)
    requires !Conflict(sel)
    ensures Ordered(StartEvents(sel, outDir, package, emeterPresent, duration)
                    + StopEvents(sel, outDir, package, emeterPresent, traceFile, traceTime, session))
  {
    var start := StartEvents(sel, outDir, package, emeterPresent, duration);
    var body := CollectEvents(sel, outDir, package, emeterPresent, traceFile, traceTime, session);
    var last: seq<Event> := [PlatformDump(outDir)];
    StartOrdered(sel, outDir, package, emeterPresent, duration);
    CollectOrdered(sel, outDir, package, emeterPresent, traceFile, traceTime, session);
    SinglePhaseOrdered(last, 8);
    OrderedAppend(body, last, 4, 8, 8);
    OrderedAppend(start, body + last, 0, 4, 8);
  }

  /** The platform dump is the last call of tracingStop, and the only one of its kind. */
  lemma PlatformDumpLast(sel: Selection, outDir: string, package: string, emeterPresent: bool,
                         traceFile: Option<string>, traceTime: Option<string>, session: Option<Session>)
    ensures var stop := StopEvents(sel, outDir, package, emeterPresent, traceFile, traceTime, session);
      stop[|stop| - 1] == PlatformDump(outDir)
      && forall i :: 0 <= i < |stop| - 1 ==> !stop[i].PlatformDump?
  {
    var body := CollectEvents(sel, outDir, package, emeterPresent, traceFile, traceTime, session);
    var last: seq<Event> := [PlatformDump(outDir)];
    CollectOrdered(sel, outDir, package, emeterPresent, traceFile, traceTime, session);
    forall i | 0 <= i < |body| ensures !(body + last)[i].PlatformDump? {
      assert (body + last)[i] == body[i];
    }
  }

  /**
   * A conflicting selection only resets the dumpsys statistics: no tracer
   * is started, the energy meter is not reset and no trace file is chosen.
   */
  lemma ConflictStartsNothing(sel: Selection, outDir: string, package: string, emeterPresent: bool,
                              duration: Option<string>, before: Option<string>)
    requires Conflict(sel)
    ensures forall e :: e in StartEvents(sel, outDir, package, emeterPresent, duration) ==>
      e.GfxReset? || e.SurfaceFlingerReset?
    ensures StartedTraceFile(sel, outDir, before) == before
  {
  }

  /** A tracer start call. */
  predicate IsTracerStart(e: Event) {
    e.FtraceStart? || e.SystraceStart?
  }

  /**
   * Without a conflict, start launches at most one tracer: ftrace writing
   * `trace.dat` when selected, otherwise systrace writing `trace.html` with
   * the extracted duration, otherwise none, leaving the trace file as it was.
   */
  lemma TraceFileSelection(sel: Selection, outDir: string, package: string, emeterPresent: bool,
                           duration: Option<string>, before: Option<string>)
    requires !Conflict(sel)
    ensures var start := StartEvents(sel, outDir, package, emeterPresent, duration);
      sel.ftrace ==>
        StartedTraceFile(sel, outDir, before) == Some(Join(outDir, FtraceFile))
        && forall e :: e in start && IsTracerStart(e) ==> e == FtraceStart
    ensures var start := StartEvents(sel, outDir, package, emeterPresent, duration);
      var path := Join(outDir, SystraceFile);
      UsesSystrace(sel) ==>
        StartedTraceFile(sel, outDir, before) == Some(path)
        && forall e :: e in start && IsTracerStart(e) ==> e == SystraceStart(path, duration)
    ensures var start := StartEvents(sel, outDir, package, emeterPresent, duration);
      !sel.ftrace && !sel.systrace ==>
        StartedTraceFile(sel, outDir, before) == before && forall e :: e in start ==> !IsTracerStart(e)
    ensures var start := StartEvents(sel, outDir, package, emeterPresent, duration);
      forall i, j :: 0 <= i < j < |start| && IsTracerStart(start[i]) ==> !IsTracerStart(start[j])
  {
    var r := ResetEvents(sel, package);
    var ts := TracerStartEvents(sel, outDir, duration);
    var es := EnergyStartEvents(sel, emeterPresent);
    var start := StartEvents(sel, outDir, package, emeterPresent, duration);
    assert start == r + ts + es;
    forall i, j | 0 <= i < j < |start| && IsTracerStart(start[i]) ensures !IsTracerStart(start[j]) {
      assert i == |r| && |ts| == 1;
    }
  }

  lemma PhaseOfMember(events: seq<Event>, lo: nat, hi: nat, e: Event)
    requires PhasesWithin(events, lo, hi) && e in events
    ensures lo <= Phase(e) <= hi
  {
    var i :| 0 <= i < |events| && events[i] == e;
  }

  /**
   * Every call of tracingStop in the tracer, gfxinfo or SurfaceFlinger
   * phase comes from that step.
   */
  lemma StopPhaseMembers(sel: Selection, outDir: string, package: string, emeterPresent: bool,
                         traceFile: Option<string>, traceTime: Option<string>, session: Option<Session>, e: Event)
    requires e in StopEvents(sel, outDir, package, emeterPresent, traceFile, traceTime, session)
    ensures Phase(e) == 5 ==> e in TracerStopEvents(sel, traceFile, traceTime, session)
    ensures Phase(e) == 6 ==> e in GfxStopEvents(sel, outDir, package)
    ensures Phase(e) == 7 ==> e in SurfaceFlingerStopEvents(sel, outDir, package)
  {
    var er := EnergyStopEvents(sel, outDir, emeterPresent);
    var tt := TracerStopEvents(sel, traceFile, traceTime, session);
    var g := GfxStopEvents(sel, outDir, package);
    var f := SurfaceFlingerStopEvents(sel, outDir, package);
    assert e in er || e in tt || e in g || e in f || e == PlatformDump(outDir);
    if e in er {
      EnergyStopPhase(sel, outDir, emeterPresent);
      PhaseOfMember(er, 4, 4, e);
    } else if e in tt {
      TracerStopPhase(sel, traceFile, traceTime, session);
      PhaseOfMember(tt, 5, 5, e);
    } else if e in g {
      GfxStopPhase(sel, outDir, package);
      PhaseOfMember(g, 6, 6, e);
    } else if e in f {
      SurfaceFlingerStopPhase(sel, outDir, package);
      PhaseOfMember(f, 7, 7, e);
    }
  }

  /** Every gfxinfo call of tracingStop comes from its gfxinfo step. */
  lemma GfxCallsFromStep(sel: Selection, outDir: string, package: string, emeterPresent: bool,
                         traceFile: Option<string>, traceTime: Option<string>, session: Option<Session>)
    ensures forall e ::
      e in StopEvents(sel, outDir, package, emeterPresent, traceFile, traceTime, session) && (e.GfxDump? || e.GfxParse?)
      ==> e in GfxStopEvents(sel, outDir, package)
  {
    forall e | e in StopEvents(sel, outDir, package, emeterPresent, traceFile, traceTime, session)
      && (e.GfxDump? || e.GfxParse?)
      ensures e in GfxStopEvents(sel, outDir, package)
    {
      StopPhaseMembers(sel, outDir, package, emeterPresent, traceFile, traceTime, session, e);
    }
  }

  lemma GfxDumpThenParse(sel: Selection, outDir: string, package: string, emeterPresent: bool,
                         traceFile: Option<string>, traceTime: Option<string>, session: Option<Session>)
    requires sel.gfxinfo
    ensures var stop := StopEvents(sel, outDir, package, emeterPresent, traceFile, traceTime, session);
      var path := Join(outDir, GfxinfoFile);
      exists i :: 0 <= i < |stop| - 1 && stop[i] == GfxDump(package, path) && stop[i + 1] == GfxParse(path)
  {
    var k := |EnergyStopEvents(sel, outDir, emeterPresent) + TracerStopEvents(sel, traceFile, traceTime, session)|;
    var stop := StopEvents(sel, outDir, package, emeterPresent, traceFile, traceTime, session);
    assert stop[k] == GfxDump(package, Join(outDir, GfxinfoFile));
    assert stop[k + 1] == GfxParse(Join(outDir, GfxinfoFile));
  }

  /**
   * With gfxinfo selected, stop dumps the statistics to
   * `dumpsys_gfxinfo.txt` and immediately parses that same file; without
   * it there is no dump; and no other file is ever parsed as gfxinfo.
   */
  lemma GfxinfoRoundTrip(sel: Selection, outDir: string, package: string, emeterPresent: bool,
                         traceFile: Option<string>, traceTime: Option<string>, session: Option<Session>)
    ensures var stop := StopEvents(sel, outDir, package, emeterPresent, traceFile, traceTime, session);
      var path := Join(outDir, GfxinfoFile);
      (sel.gfxinfo <==>
         exists i :: 0 <= i < |stop| - 1 && stop[i] == GfxDump(package, path) && stop[i + 1] == GfxParse(path))
      && forall e :: e in stop && e.GfxParse? ==> e == GfxParse(path)
  {
    GfxCallsFromStep(sel, outDir, package, emeterPresent, traceFile, traceTime, session);
    if sel.gfxinfo {
      GfxDumpThenParse(sel, outDir, package, emeterPresent, traceFile, traceTime, session);
    } else {
      var stop := StopEvents(sel, outDir, package, emeterPresent, traceFile, traceTime, session);
      forall i | 0 <= i < |stop| ensures !stop[i].GfxDump? {
        assert stop[i] in stop;
      }
    }
  }

  /** Every SurfaceFlinger call of tracingStop comes from its SurfaceFlinger step. */
  lemma SurfaceFlingerCallsFromStep(sel: Selection, outDir: string, package: string, emeterPresent: bool,
                                    traceFile: Option<string>, traceTime: Option<string>, session: Option<Session>)
    ensures forall e ::
      e in StopEvents(sel, outDir, package, emeterPresent, traceFile, traceTime, session)
      && (e.SurfaceFlingerDump? || e.SurfaceFlingerParse?)
      ==> e in SurfaceFlingerStopEvents(sel, outDir, package)
  {
    forall e | e in StopEvents(sel, outDir, package, emeterPresent, traceFile, traceTime, session)
      && (e.SurfaceFlingerDump? || e.SurfaceFlingerParse?)
      ensures e in SurfaceFlingerStopEvents(sel, outDir, package)
    {
      StopPhaseMembers(sel, outDir, package, emeterPresent, traceFile, traceTime, session, e);
    }
  }

  lemma SurfaceFlingerDumpThenParse(sel: Selection, outDir: string, package: string, emeterPresent: bool,
                                    traceFile: Option<string>, traceTime: Option<string>, session: Option<Session>)
    requires sel.surfaceflinger
    ensures var stop := StopEvents(sel, outDir, package, emeterPresent, traceFile, traceTime, session);
      var path := Join(outDir, SurfaceFlingerFile);
      exists i :: 0 <= i < |stop| - 1 && stop[i] == SurfaceFlingerDump(package, path)
                  && stop[i + 1] == SurfaceFlingerParse(path)
  {
    var k := |EnergyStopEvents(sel, outDir, emeterPresent) + TracerStopEvents(sel, traceFile, traceTime, session)
              + GfxStopEvents(sel, outDir, package)|;
    var stop := StopEvents(sel, outDir, package, emeterPresent, traceFile, traceTime, session);
    assert stop[k] == SurfaceFlingerDump(package, Join(outDir, SurfaceFlingerFile));
    assert stop[k + 1] == SurfaceFlingerParse(Join(outDir, SurfaceFlingerFile));
  }

  /** The SurfaceFlinger counterpart of GfxinfoRoundTrip, with `dumpsys_surfaceflinger.txt`. */
  lemma SurfaceFlingerRoundTrip(sel: Selection, outDir: string, package: string, emeterPresent: bool,
                                traceFile: Option<string>, traceTime: Option<string>, session: Option<Session>)
    ensures var stop := StopEvents(sel, outDir, package, emeterPresent, traceFile, traceTime, session);
      var path := Join(outDir, SurfaceFlingerFile);
      (sel.surfaceflinger <==>
         exists i :: 0 <= i < |stop| - 1 && stop[i] == SurfaceFlingerDump(package, path)
                     && stop[i + 1] == SurfaceFlingerParse(path))
      && forall e :: e in stop && e.SurfaceFlingerParse? ==> e == SurfaceFlingerParse(path)
  {
    SurfaceFlingerCallsFromStep(sel, outDir, package, emeterPresent, traceFile, traceTime, session);
    if sel.surfaceflinger {
      SurfaceFlingerDumpThenParse(sel, outDir, package, emeterPresent, traceFile, traceTime, session);
    } else {
      var stop := StopEvents(sel, outDir, package, emeterPresent, traceFile, traceTime, session);
      forall i | 0 <= i < |stop| ensures !stop[i].SurfaceFlingerDump? {
        assert stop[i] in stop;
      }
    }
  }

  /**
   * Stopping systrace sends end of input to the session exactly when one is
   * held and no duration was given.
   */
  lemma SystraceSendsLine(sel: Selection, outDir: string, package: string, emeterPresent: bool,
                          traceFile: Option<string>, traceTime: Option<string>, session: Option<Session>,
                          h: Session)
    requires UsesSystrace(sel)
    ensures SendLine(h) in StopEvents(sel, outDir, package, emeterPresent, traceFile, traceTime, session)
            <==> session == Some(h) && traceTime.None?
  {
    var tt := TracerStopEvents(sel, traceFile, traceTime, session);
    if SendLine(h) in StopEvents(sel, outDir, package, emeterPresent, traceFile, traceTime, session) {
      StopPhaseMembers(sel, outDir, package, emeterPresent, traceFile, traceTime, session, SendLine(h));
      assert SendLine(h) in tt;
    }
  }

  /** Stopping systrace waits for the session exactly when one is held. */
  lemma SystraceWaits(sel: Selection, outDir: string, package: string, emeterPresent: bool,
                      traceFile: Option<string>, traceTime: Option<string>, session: Option<Session>,
                      h: Session)
    requires UsesSystrace(sel)
    ensures Wait(h) in StopEvents(sel, outDir, package, emeterPresent, traceFile, traceTime, session)
            <==> session == Some(h)
  {
    var tt := TracerStopEvents(sel, traceFile, traceTime, session);
    if Wait(h) in StopEvents(sel, outDir, package, emeterPresent, traceFile, traceTime, session) {
      StopPhaseMembers(sel, outDir, package, emeterPresent, traceFile, traceTime, session, Wait(h));
      assert Wait(h) in tt;
    }
  }

  /**
   * The trace file chosen at start is the one the trace is fetched into at
   * stop: `trace.dat` in the output directory when ftrace is selected.
   */
  lemma FtraceFetchedIntoStartedFile(sel: Selection, outDir: string, package: string, emeterPresent: bool,
                                     duration: Option<string>, before: Option<string>,
                                     traceTime: Option<string>, session: Option<Session>)
    requires !Conflict(sel) && sel.ftrace
    ensures FtraceStart in StartEvents(sel, outDir, package, emeterPresent, duration)
    ensures var stop := StopEvents(sel, outDir, package, emeterPresent,
                                   StartedTraceFile(sel, outDir, before), traceTime, session);
      exists i :: 0 <= i < |stop| - 1 && stop[i] == FtraceStop && stop[i + 1] == GetTrace(Some(Join(outDir, FtraceFile)))
  {
    var er := EnergyStopEvents(sel, outDir, emeterPresent);
    var stop := StopEvents(sel, outDir, package, emeterPresent,
                           StartedTraceFile(sel, outDir, before), traceTime, session);
    assert stop[|er|] == FtraceStop && stop[|er| + 1] == GetTrace(Some(Join(outDir, FtraceFile)));
  }

  /**
   * A systrace started without `systrace_<digits>` in `collect` is ended by
   * sending end of input before the wait; one started with a duration is
   * only waited for.
   */
  lemma SystraceDurationDecidesSignal(collect: string, outDir: string, package: string, emeterPresent: bool,
                                      launched: Session)
    requires UsesSystrace(Select(collect))
    ensures var start := StartEvents(Select(collect), outDir, package, emeterPresent, TraceTime(collect));
      SystraceStart(Join(outDir, SystraceFile), TraceTime(collect)) in start
    ensures var stop := StopEvents(Select(collect), outDir, package, emeterPresent,
                                   StartedTraceFile(Select(collect), outDir, None), TraceTime(collect), Some(launched));
      (SendLine(launched) in stop <==> forall p: nat :: !MatchAt(collect, p)) && Wait(launched) in stop
  {
    var sel := Select(collect);
    SystraceSendsLine(sel, outDir, package, emeterPresent,
                      StartedTraceFile(sel, outDir, None), TraceTime(collect), Some(launched), launched);
    SystraceWaits(sel, outDir, package, emeterPresent,
                  StartedTraceFile(sel, outDir, None), TraceTime(collect), Some(launched), launched);
  }

  /** With nothing selected, start calls nothing and stop only dumps the platform description. */
  lemma EmptySelection(outDir: string, package: string, emeterPresent: bool, duration: Option<string>,
                       traceFile: Option<string>, traceTime: Option<string>, session: Option<Session>)
    ensures Select("") == Selection(false, false, false, false, false)
    ensures StartEvents(Select(""), outDir, package, emeterPresent, duration) == []
    ensures StopEvents(Select(""), outDir, package, emeterPresent, traceFile, traceTime, session) == [PlatformDump(outDir)]
    ensures StartedTraceFile(Select(""), outDir, traceFile) == traceFile
  {
  }

  // ---------------------------------------------------------------
  // The workload instance
  // ---------------------------------------------------------------

  class Workload {
    const variant: Descriptor
    const adbName: string
    const emeterPresent: bool
    /** Set by the concrete workload before it brackets its run. */
    var collect: string
    var outDir: string
    /** Run results and the state held between start and stop. */
    var traceFile: Option<string>
    var traceTime: Option<string>
    var systraceOutput: Option<Session>
    var nrgReport: Option<EnergyReport>
    var gfxinfo: Option<FrameStats>
    var surfaceflinger: Option<CompositorStats>
    /** Every collaborator call made so far. */
    ghost var log: seq<Event>

    /** The state of a freshly constructed instance. */
    ghost predicate Initial()
      reads this
    {
      traceFile == None && nrgReport == None && traceTime == None && systraceOutput == None
      && gfxinfo == None && surfaceflinger == None && log == []
    }

    constructor (env: TestEnv, variant: Descriptor)
      ensures this.variant == variant && adbName == env.adbName && emeterPresent == env.emeterPresent
      ensures collect == "" && outDir == ""
      ensures Initial()
    {
      this.variant := variant;
      adbName := env.adbName;
      emeterPresent := env.emeterPresent;
      collect, outDir := "", "";
      traceFile, nrgReport := None, None;
      traceTime, systraceOutput := None, None;
      gfxinfo, surfaceflinger := None, None;
      log := [];
    }

    /** `_adb`: an adb command line addressed to this workload's device. */
    function Adb(cmd: string): (r: string)
      ensures |r| == |AdbPrefix| + |adbName| + 1 + |cmd|
      ensures StartsWith(r, AdbPrefix) && EndsWith(r, cmd)
      ensures r[|AdbPrefix|..|AdbPrefix| + |adbName|] == adbName
      ensures r[|AdbPrefix| + |adbName|] == ' '
      ensures r[|AdbPrefix| + |adbName| + 1..] == cmd
    {
      AdbCommand(adbName, cmd)
    }

    /**
     * `tracingStart`. `launched` is what System.systrace_start returns
     * when systrace is started (None for a launch that gave no handle).
     */
    method TracingStart(launched: Option<Session>) returns (r: Outcome<Error>)
      modifies this`traceFile, this`traceTime, this`systraceOutput, this`log
      ensures r == (if Conflict(Select(collect)) then Fail(ConfigConflict) else Pass)
      ensures log == old(log) + StartEvents(Select(collect), outDir, variant.package, emeterPresent, TraceTime(collect))
      ensures traceFile == StartedTraceFile(Select(collect), outDir, old(traceFile))
      ensures traceTime == (if !Conflict(Select(collect)) && UsesSystrace(Select(collect))
                            then TraceTime(collect) else old(traceTime))
      ensures systraceOutput == (if !Conflict(Select(collect)) && UsesSystrace(Select(collect))
                                 then launched else old(systraceOutput))
    {
      ghost var log0 := log;
      ResetDumpsys();
      if Contains(collect, FtraceTag) && Contains(collect, SystraceTag) {
        return Fail(ConfigConflict);
      }
      ghost var done := ResetEvents(Select(collect), variant.package);
      StartTracer(launched);
      AppendAssoc(log0, done, TracerStartEvents(Select(collect), outDir, TraceTime(collect)));
      done := done + TracerStartEvents(Select(collect), outDir, TraceTime(collect));
      if Contains(collect, EnergyTag) && emeterPresent {
        log := log + [EmeterReset];
      }
      AppendAssoc(log0, done, EnergyStartEvents(Select(collect), emeterPresent));
      r := Pass;
    }

    /** The first steps of tracingStart: reset the selected dumpsys statistics for the package. */
    method ResetDumpsys()
      modifies this`log
      ensures log == old(log) + ResetEvents(Select(collect), variant.package)
    {
      if Contains(collect, GfxinfoTag) {
        log := log + [GfxReset(variant.package)];
      }
      if Contains(collect, SurfaceFlingerTag) {
        log := log + [SurfaceFlingerReset(variant.package)];
      }
    }

    /** The tracer step of tracingStart, once the conflict check has passed. */
    method StartTracer(launched: Option<Session>)
      modifies this`traceFile, this`traceTime, this`systraceOutput, this`log
      ensures log == old(log) + TracerStartEvents(Select(collect), outDir, TraceTime(collect))
      ensures traceFile == (if Select(collect).ftrace then Some(Join(outDir, FtraceFile))
                            else if Select(collect).systrace then Some(Join(outDir, SystraceFile))
                            else old(traceFile))
      ensures traceTime == (if UsesSystrace(Select(collect)) then TraceTime(collect) else old(traceTime))
      ensures systraceOutput == (if UsesSystrace(Select(collect)) then launched else old(systraceOutput))
    {
      if Contains(collect, FtraceTag) {
        traceFile := Some(Join(outDir, FtraceFile));
        log := log + [FtraceStart];
      } else if Contains(collect, SystraceTag) {
        var path := Join(outDir, SystraceFile);
        traceFile := Some(path);
        traceTime := TraceTime(collect);
        log := log + [SystraceStart(path, traceTime)];
        systraceOutput := launched;
      }
    }

    /** `tracingStop`: collect every selected result, then dump the platform description. */
    method TracingStop()
      modifies this`nrgReport, this`gfxinfo, this`surfaceflinger, this`log
      ensures log == old(log) + StopEvents(Select(collect), outDir, variant.package, emeterPresent,
                                           traceFile, traceTime, systraceOutput)
      ensures nrgReport == (if EnergySelected(Select(collect), emeterPresent)
                            then Some(EnergyReport(outDir)) else old(nrgReport))
      ensures gfxinfo == (if Select(collect).gfxinfo
                          then Some(FrameStats(Join(outDir, GfxinfoFile))) else old(gfxinfo))
      ensures surfaceflinger == (if Select(collect).surfaceflinger
                                 then Some(CompositorStats(Join(outDir, SurfaceFlingerFile))) else old(surfaceflinger))
    {
      ghost var sel := Select(collect);
      ghost var log0 := log;
      StopEnergyMeter();
      ghost var done := EnergyStopEvents(sel, outDir, emeterPresent);
      StopTracer();
      AppendAssoc(log0, done, TracerStopEvents(sel, traceFile, traceTime, systraceOutput));
      done := done + TracerStopEvents(sel, traceFile, traceTime, systraceOutput);
      CollectGfxinfo();
      AppendAssoc(log0, done, GfxStopEvents(sel, outDir, variant.package));
      done := done + GfxStopEvents(sel, outDir, variant.package);
      CollectSurfaceFlinger();
      AppendAssoc(log0, done, SurfaceFlingerStopEvents(sel, outDir, variant.package));
      done := done + SurfaceFlingerStopEvents(sel, outDir, variant.package);
      log := log + [PlatformDump(outDir)];
      AppendAssoc(log0, done, [PlatformDump(outDir)]);
    }

    /** Step 1 of tracingStop: the energy report, when energy is selected and a meter exists. */
    method StopEnergyMeter()
      modifies this`nrgReport, this`log
      ensures log == old(log) + EnergyStopEvents(Select(collect), outDir, emeterPresent)
      ensures nrgReport == (if EnergySelected(Select(collect), emeterPresent)
                            then Some(EnergyReport(outDir)) else old(nrgReport))
    {
      if Contains(collect, EnergyTag) && emeterPresent {
        log := log + [EmeterReport(outDir)];
        nrgReport := Some(EnergyReport(outDir));
      }
    }

    /** Step 2 of tracingStop: stop ftrace and fetch its trace, or finalise the systrace session. */
    method StopTracer()
      modifies this`log
      ensures log == old(log) + TracerStopEvents(Select(collect), traceFile, traceTime, systraceOutput)
    {
      if Contains(collect, FtraceTag) {
        log := log + [FtraceStop];
        log := log + [GetTrace(traceFile)];
      } else if Contains(collect, SystraceTag) {
        if systraceOutput.None? {
          // Only a warning is logged: there is no session to finalise.
        } else {
          if traceTime.None? {
            // Systrace without a duration waits for <enter>.
            log := log + [SendLine(systraceOutput.value)];
          }
          log := log + [Wait(systraceOutput.value)];
        }
      }
    }

    /** Step 3 of tracingStop: dump gfxinfo to a file and parse that same file. */
    method CollectGfxinfo()
      modifies this`gfxinfo, this`log
      ensures log == old(log) + GfxStopEvents(Select(collect), outDir, variant.package)
      ensures gfxinfo == (if Select(collect).gfxinfo
                          then Some(FrameStats(Join(outDir, GfxinfoFile))) else old(gfxinfo))
    {
      if Contains(collect, GfxinfoTag) {
        var dumpFile := Join(outDir, GfxinfoFile);
        log := log + [GfxDump(variant.package, dumpFile)];
        log := log + [GfxParse(dumpFile)];
        gfxinfo := Some(FrameStats(dumpFile));
      }
    }

    /** Step 4 of tracingStop: dump SurfaceFlinger statistics to a file and parse that same file. */
    method CollectSurfaceFlinger()
      modifies this`surfaceflinger, this`log
      ensures log == old(log) + SurfaceFlingerStopEvents(Select(collect), outDir, variant.package)
      ensures surfaceflinger == (if Select(collect).surfaceflinger
                                 then Some(CompositorStats(Join(outDir, SurfaceFlingerFile))) else old(surfaceflinger))
    {
      if Contains(collect, SurfaceFlingerTag) {
        var dumpFile := Join(outDir, SurfaceFlingerFile);
        log := log + [SurfaceFlingerDump(variant.package, dumpFile)];
        log := log + [SurfaceFlingerParse(dumpFile)];
        surfaceflinger := Some(CompositorStats(dumpFile));
      }
    }
  }
}
