# Android workload base class: registry and tracing lifecycle

This project models the core of `libs/utils/android/workload.py`, the base class
of the Android workloads. The class has two jobs, and the model covers both.

- **Registry.** It keeps a process-wide registry of the workload variants
  installed on the target.
  - `_check_availables` queries the target's installed packages. It stores every
    variant whose package is installed under the variant's lower-cased name.
  - `getInstance` runs that discovery on first use only. It then looks a name up
    ignoring case, and either raises `ValueError` or builds a fresh workload.
- **Tracing.** It brackets a workload run with `tracingStart` and `tracingStop`.
  - A free-form `collect` string is tested for the substrings `gfxinfo`,
    `surfaceflinger`, `ftrace`, `systrace` and `energy`.
  - From those tests the instance chooses a trace file and extracts an optional
    `systrace_<digits>` duration.
  - It then calls the dumpsys, ftrace, systrace, energy-meter and platform
    collaborators in a fixed order, and stores their results.

Layout:

- `wrappers.dfy`: the `Option`, `Result` and `Outcome` datatypes.
- `text.dfy` (module `Text`): the pure string helpers.
  - `Contains` is Python's `sub in s`.
  - `Lower` is ASCII lower-casing.
  - `Join` is `os.path.join` of two components.
  - `TraceTime` is the `systrace_([0-9]+)` search.
  - `AdbCommand` is the `_adb` template.
- `tracing.dfy` (module `Tracing`):
  - the datatypes: `Descriptor`, `TestEnv`, `Error` and `Event`;
  - specification functions for the calls `tracingStart` and `tracingStop`
    make;
  - lemmas about ordering, exclusivity and round trips;
  - the class `Workload`, whose methods update the instance fields in place.
    Every collaborator call is appended to a ghost `log`, and each method
    states its new log as the old log followed by the matching specification
    function.
- `registry.dfy` (module `Registry`):
  - the specification function `Discover`, with lemmas about the keys and
    values it produces;
  - the class `WorkloadRegistry`, which holds `_packages` and `_availables` as
    the fields `packages` and `availables`.
- `scenarios.dfy` (module `Scenarios`): concrete runs and examples.

A collaborator's internals are not modelled; each call is recorded as an `Event`
value. Where a collaborator's result matters, it is a parameter. The systrace
session handle that `System.systrace_start` returns is `TracingStart`'s
`launched` argument. The installed-package list is `TestEnv.installed`, and the
presence of an energy meter is `TestEnv.emeterPresent`.

## Model

| member | source | states |
|---|---|---|
| `Text.MissingCharNotContained` | libs/utils/android/workload.py:95-100 | a `collect` string that lacks one of a tag's characters does not contain the tag, so `'tag' in self.collect` is false |
| `Text.ContainsSpec` | libs/utils/android/workload.py:95-100 | the left-to-right scan used for `'tag' in self.collect` succeeds exactly when the tag occurs at some position of the string |
| `Text.Lower` | libs/utils/android/workload.py:68 | lower-casing keeps the length and leaves no upper-case letter; each character is unchanged or is an upper-case letter shifted to its lower case |
| `Text.LowerIdentifiesCase` | libs/utils/android/workload.py:83 | two names have the same lower-cased key exactly when they differ only in the case of letters |
| `Text.Join` | libs/utils/android/workload.py:105 | an absolute name is returned as is; otherwise the result starts with the directory and ends with the name, with a `/` inserted between them exactly when the directory is non-empty and does not already end in `/` |
| `Text.JoinInjective` | libs/utils/android/workload.py:145-150 | one directory joined with two different relative names gives two different paths, so the trace, gfxinfo and SurfaceFlinger files never collide |
| `Text.DigitRun` | libs/utils/android/workload.py:112 | the greedy `[0-9]+`: the longest run of digits that starts at the given index |
| `Text.FindMatch` | libs/utils/android/workload.py:112 | `re.search`'s scan: the leftmost position where `systrace_` is followed by a digit, or None when there is no such position |
| `Text.TraceTime` | libs/utils/android/workload.py:112-113 | `_trace_time` is None exactly when no `systrace_<digit>` occurs; otherwise it is a non-empty all-digit string, and it is the maximal digit run after the first occurrence |
| `Text.AdbCommand` | libs/utils/android/workload.py:49-50 | the command is `adb -s `, then the device name, a space and the command; the length adds up and each part can be read back at its position |
| `Tracing.Workload.Adb` | libs/utils/android/workload.py:49-50 | `_adb` is `adb -s `, this workload's device name, one space, then the command, each readable back at its position |
| `Tracing.Workload.constructor` | libs/utils/android/workload.py:35-47 | a new instance keeps its variant and test environment, has `trace_file` and `nrg_report` set to None, has no other result, and has made no call |
| `Tracing.Workload.TracingStart` | libs/utils/android/workload.py:93-120 | the calls made are exactly `StartEvents` for the selection; the result is ConfigConflict exactly when both ftrace and systrace are selected; the trace file, duration and session change only as the selected tracer requires |
| `Tracing.Workload.ResetDumpsys` | libs/utils/android/workload.py:95-98 | the gfxinfo reset, then the SurfaceFlinger reset, each for the workload's package and only when selected |
| `Tracing.Workload.StartTracer` | libs/utils/android/workload.py:104-116 | ftrace has priority: with ftrace, `trace.dat` is chosen and ftrace is started; otherwise with systrace, `trace.html` and the extracted duration are used and the session handle is kept; otherwise nothing changes |
| `Tracing.Workload.TracingStop` | libs/utils/android/workload.py:122-154 | the calls made are exactly `StopEvents` for the selection and stored state; the energy report, gfxinfo and SurfaceFlinger results are set exactly when selected, from the files that were dumped |
| `Tracing.Workload.StopEnergyMeter` | libs/utils/android/workload.py:124-126 | the energy report is collected into the output directory and stored, only when energy is selected and a meter exists |
| `Tracing.Workload.StopTracer` | libs/utils/android/workload.py:128-142 | ftrace is stopped and its trace fetched into `trace_file`; for systrace the session is sent a line only when no duration was given and is always waited for; without a session there is only the warning |
| `Tracing.Workload.CollectGfxinfo` | libs/utils/android/workload.py:144-147 | when selected, gfxinfo is dumped to `dumpsys_gfxinfo.txt` in the output directory and that same file is parsed into the stored result |
| `Tracing.Workload.CollectSurfaceFlinger` | libs/utils/android/workload.py:149-152 | when selected, SurfaceFlinger is dumped to `dumpsys_surfaceflinger.txt` in the output directory and that same file is parsed into the stored result |
| `Tracing.StartOrdered` | libs/utils/android/workload.py:93-120 | without a conflict, start makes the dumpsys resets, then the tracer start, then the energy reset, in that order |
| `Tracing.CollectOrdered` | libs/utils/android/workload.py:124-152 | stop makes the energy report, then the tracer stop, then the gfxinfo calls, then the SurfaceFlinger calls, in that order |
| `Tracing.LifecycleOrdered` | libs/utils/android/workload.py:93-154 | a conflict-free start followed by a stop makes every call in lifecycle order, across the two methods |
| `Tracing.PlatformDumpLast` | libs/utils/android/workload.py:153-154 | when no collaborator raises, the platform dump into the output directory is made, is the last call of stop, and is made only once |
| `Tracing.ConflictStartsNothing` | libs/utils/android/workload.py:95-102 | with both tracers selected, start makes only dumpsys resets: no tracer start and no energy reset, and the trace file is unchanged |
| `Tracing.TraceFileSelection` | libs/utils/android/workload.py:104-116 | without a conflict, at most one tracer is started: ftrace with `trace.dat`, or else systrace with `trace.html` and the duration, or else none, with the trace file left as it was |
| `Tracing.GfxinfoRoundTrip` | libs/utils/android/workload.py:144-147 | gfxinfo is selected exactly when stop dumps it to `dumpsys_gfxinfo.txt` and parses that file right after; no other file is ever parsed as gfxinfo |
| `Tracing.SurfaceFlingerRoundTrip` | libs/utils/android/workload.py:149-152 | SurfaceFlinger is selected exactly when stop dumps it to `dumpsys_surfaceflinger.txt` and parses that file right after; no other file is ever parsed as SurfaceFlinger statistics |
| `Tracing.SystraceSendsLine` | libs/utils/android/workload.py:133-141 | with systrace as the tracer, a session receives end of input exactly when it is the one held and no duration was given |
| `Tracing.SystraceWaits` | libs/utils/android/workload.py:133-142 | with systrace as the tracer, a session is waited for exactly when it is the one held, so without a session there is neither send nor wait |
| `Tracing.FtraceFetchedIntoStartedFile` | libs/utils/android/workload.py:104-131 | with ftrace selected, start starts ftrace, and stop stops it and immediately fetches the trace into `trace.dat` in the output directory, the file chosen at start |
| `Tracing.SystraceDurationDecidesSignal` | libs/utils/android/workload.py:109-142 | systrace is started on `trace.html` with the extracted duration; stop sends end of input exactly when `collect` holds no `systrace_<digit>`, and always waits |
| `Tracing.EmptySelection` | libs/utils/android/workload.py:93-154 | an empty `collect` selects nothing; start makes no call, stop makes only the platform dump, and the trace file is unchanged |
| `Registry.DiscoverKeys` | libs/utils/android/workload.py:65-68 | a name is a key after discovery exactly when it was a key before or it is the lower-cased name of a variant whose package is installed |
| `Registry.DiscoverValue` | libs/utils/android/workload.py:65-68 | a key maps to the last installed variant with that name; if no installed variant has it, the key keeps its earlier value |
| `Registry.DiscoverExtends` | libs/utils/android/workload.py:67-68 | discovery never removes a key |
| `Registry.DiscoverSound` | libs/utils/android/workload.py:67-68 | every entry discovery adds is a known variant whose package is installed, stored under its own lower-cased name; a variant that is not installed is never added |
| `Registry.DiscoverExact` | libs/utils/android/workload.py:61-68 | starting from the empty map, the keys are exactly the lower-cased names of the installed variants, no more and no fewer |
| `Registry.DiscoverFinds` | libs/utils/android/workload.py:65-68 | an installed variant that no later installed variant shadows is found under its lower-cased name |
| `Registry.Lookup` | libs/utils/android/workload.py:83-87 | the lookup fails with NotAvailable for the requested name exactly when its lower-cased form is not a key; otherwise it gives that key's variant |
| `Registry.LookupIgnoresCase` | libs/utils/android/workload.py:83-87 | names that differ only in case either both fail or both resolve, and then to the same variant |
| `Registry.WorkloadRegistry.constructor` | libs/utils/android/workload.py:32-33 | the package cache starts as None and the availability map starts empty |
| `Registry.WorkloadRegistry.CheckAvailables` | libs/utils/android/workload.py:53-68 | the package list is queried once and cached; the map becomes `Discover` of its old value over the variants; the registry invariant holds |
| `Registry.WorkloadRegistry.GetInstance` | libs/utils/android/workload.py:74-87 | discovery runs only while the cache is None, with one query; later calls leave the cache, the map and the query count unchanged; the call fails exactly when the lower-cased name is not a key, else gives a fresh workload of that variant in its initial state |
| `Registry.LookupTwice` | libs/utils/android/workload.py:80-87 | two lookups query the packages at most once, and a name and a differently-cased spelling give the same variant |
| `Scenarios.EmptyRun` | libs/utils/android/workload.py:93-154 | with an empty `collect`, a whole start/stop bracket only dumps the platform description, and `trace_file` and `nrg_report` stay None |
| `Scenarios.ConflictRun` | libs/utils/android/workload.py:95-102 | with gfxinfo and both tracers, start resets gfxinfo and then fails with ConfigConflict, leaving `trace_file` None |
| `Scenarios.FtraceOnlyEvents` | libs/utils/android/workload.py:104-131 | the calls of an ftrace-only bracket: ftrace start; then ftrace stop, fetch into `trace.dat`, platform dump |
| `Scenarios.SystraceOnlyEvents` | libs/utils/android/workload.py:109-142 | the calls of a systrace-only bracket with no duration: systrace start on `trace.html`; then end of input, wait, platform dump |
| `Scenarios.DurationExample` | libs/utils/android/workload.py:112-113 | `systrace_50` gives the duration `50` |
| `Scenarios.NoDurationExample` | libs/utils/android/workload.py:112-113 | a bare `systrace` tag gives no duration |
| `Scenarios.FtraceGfxinfoHolds` | libs/utils/android/workload.py:95-104 | `ftrace,gfxinfo` contains the `ftrace` and `gfxinfo` tags |
| `Scenarios.FtraceGfxinfoLacks` | libs/utils/android/workload.py:97-118 | `ftrace,gfxinfo` contains none of the `surfaceflinger`, `systrace` and `energy` tags |
| `Scenarios.SelectFtraceGfxinfo` | libs/utils/android/workload.py:95-118 | `ftrace,gfxinfo` selects ftrace and gfxinfo and nothing else |
| `Scenarios.JoinRunFiles` | libs/utils/android/workload.py:105-145 | in `/tmp/run1` the trace file is `/tmp/run1/trace.dat` and the gfxinfo dump is `/tmp/run1/dumpsys_gfxinfo.txt` |
| `Scenarios.FtraceGfxinfoCalls` | libs/utils/android/workload.py:93-154 | for any output directory, an ftrace and gfxinfo bracket sets the trace file to `trace.dat` there and makes, in order: gfxinfo reset, ftrace start; ftrace stop, fetch into that file, gfxinfo dump and parse of `dumpsys_gfxinfo.txt`, platform dump |
| `Scenarios.FtraceGfxinfoEvents` | libs/utils/android/workload.py:93-154 | read from the `collect` string `ftrace,gfxinfo` with output directory `/tmp/run1`: the trace file is `/tmp/run1/trace.dat`, start calls gfxinfo reset then ftrace start, and stop fetches the trace into `/tmp/run1/trace.dat`, dumps and parses `/tmp/run1/dumpsys_gfxinfo.txt`, then dumps the platform |
| `Scenarios.SelectFtrace` | libs/utils/android/workload.py:95-118 | `ftrace` alone selects ftrace and nothing else |

## Left out

- Logging (`_log.debug`, `info` and `warning`) is not modelled. The systrace warning branch appears as "no call".
- Collaborator internals are not modelled. This covers `list_packages`, `System.gfxinfo_*`, `System.surfaceflinger_*`, `System.systrace_start`, `ftrace.*`, `emeter.*` and `platform_dump`. Each call becomes an `Event` in the ghost log.
  - The energy report is represented by the directory it was produced from.
  - The `GfxInfo` and `SurfaceFlinger` parsers are represented only by the file they parse.
- The systrace handle's process semantics are not modelled: `sendline` and the blocking `wait`, which has no timeout, are only the `SendLine` and `Wait` events.
- `__subclasses__()` is replaced by an explicit sequence of variant descriptors, in listing order. The subclasses themselves and `run` are not part of this model. `run` only raises `RuntimeError`.
  - The subclasses are what set `collect`, `out_dir` and `package`. In the model these are the public fields `collect` and `outDir` and the variant's package.
- `Tracing.Workload.constructor`: the source leaves `collect`, `out_dir`, `_trace_time`, `_systrace_output`, `gfxinfo` and `surfaceflinger` unset.
  - The model starts them as the empty string or None.
  - So the `AttributeError` the source raises when `tracingStop` reads `_systrace_output` before any systrace start is modelled as the "no session" warning branch.
- `Text.Lower`: Python's `str.lower` folds all of Unicode; the model folds ASCII letters only.
- `Text.Join`: only the two-component POSIX form of `os.path.join` is modelled.
- `Registry.WorkloadRegistry.CheckAvailables`: it extends the existing map, as the code does. Entries from an earlier discovery on another target survive, because `_availables` is never cleared.
  - `_availables` (workload.py:33) is never cleared and line 68 only adds to it, so after a repeated direct call the map can hold variants that are no longer installed. Its keys are exactly the installed variants only for the first, lazy discovery, which starts from the empty map (`Registry.DiscoverExact`).
- The registry models the class attributes as seen through `Workload` itself. Calling `getInstance` through a subclass assigns `_packages` on that subclass instead, and this is not modelled.
- `TracingStart` and `TracingStop` are each split into step methods, one per collector, so that each step's frame and log stay small. Together the steps make exactly the calls of the source method, in its order, when no collaborator fails.
- Collaborator faults are not modelled: every call is taken to return normally. In the source an exception from a collaborator (for example `emeter.report`, `ftrace.get_trace`, `System.gfxinfo_get` or the `GfxInfo` parser) reaches the caller and cuts the call sequence short at the failing call, so the later calls, including `platform_dump`, are skipped. The exact-log contracts of `Tracing.Workload.TracingStart`, `Tracing.Workload.TracingStop` and the ordering lemmas, including `Tracing.PlatformDumpLast`, hold for runs in which no collaborator raises.
- The specification functions read the `collect` tests through `Select`, which tests each tag once. `collect` does not change during a call, so this gives the same answers as the source's repeated `in` tests, which the method bodies perform.
