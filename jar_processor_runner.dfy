/**
 * The command-line driver of the JAR processors: the first argument names the processor, an
 * optional "-v" makes it verbose, and every remaining argument is handed to the processor
 * between `initialize`/`start` and `finish`; the first failing argument ends the run.
 */
module JarProcessorRunning {
  import opened Wrappers
  import opened JarEnvironment
  import ModuleChecking
  import FxmlChecking

  /** One of the processors the command line can name (the native artifact checker is not among them). */
  datatype Processor =
    | ModuleProcessor(module_: ModuleChecking.ModuleChecker)
    | FxmlProcessor(fxml: FxmlChecking.FxmlChecker)

  /** The processor a name selects, from the two instances the runner owns. */
  function ProcessorNamed(name: string, mc: ModuleChecking.ModuleChecker, fc: FxmlChecking.FxmlChecker): (p: Option<Processor>)
    ensures p.Some? <==> name == "ModuleChecker" || name == "FXMLChecker"
    ensures p.Some? ==> (p.value.ModuleProcessor? <==> name == "ModuleChecker")
    ensures p.Some? && p.value.ModuleProcessor? ==> p.value.module_ == mc
    ensures p.Some? && p.value.FxmlProcessor? ==> p.value.fxml == fc
  {
    if name == "ModuleChecker" then Some(ModuleProcessor(mc))
    else if name == "FXMLChecker" then Some(FxmlProcessor(fc))
    else None
  }

  /** The processor object, as a frame. */
  function Target(p: Processor): set<object> {
    match p
    case ModuleProcessor(m) => {m}
    case FxmlProcessor(f) => {f}
  }

  function JarOf(p: Processor): Option<JarTool>
    reads Target(p)
  {
    match p
    case ModuleProcessor(m) => m.jar
    case FxmlProcessor(f) => f.jar
  }

  /** The result objects the module checker keeps, as a frame. */
  function Results(p: Processor): set<object>
    reads Target(p)
  {
    match p
    case ModuleProcessor(m) => set r | r in m.checkResults
    case FxmlProcessor(_) => {}
  }

  /** A lifecycle call the runner makes on the processor; a `process` call records whether it succeeded. */
  datatype Call = InitializeCall(verbose: bool) | StartCall | ProcessCall(arg: string, succeeded: bool) | FinishCall

  /** How a run ends: through `errorExit` with a message, or normally. */
  datatype Outcome = Exited(message: string) | Completed

  /**
   * The calls after `start`: one `process` per argument in order while they succeed; a failing
   * one ends the run with its argument named; `finish` comes only after all have succeeded.
   */
  predicate Steps(trace: seq<Call>, files: seq<string>, outcome: Outcome)
    decreases |files|
  {
    if files == [] then trace == [FinishCall] && outcome == Completed
    else
      && trace != []
      && trace[0].ProcessCall?
      && trace[0].arg == files[0]
      && if trace[0].succeeded then Steps(trace[1..], files[1..], outcome)
         else trace == [trace[0]] && outcome == Exited("Processing failed for: " + files[0])
  }

  function Successes(files: seq<string>): (t: seq<Call>)
    ensures |t| == |files|
    ensures forall k :: 0 <= k < |files| ==> t[k] == ProcessCall(files[k], true)
  {
    seq(|files|, k requires 0 <= k < |files| => ProcessCall(files[k], true))
  }

  /** The successes of a concatenation are those of each part, in order. */
  lemma SuccessesAppend(a: seq<string>, b: seq<string>)
    ensures Successes(a + b) == Successes(a) + Successes(b)
  {
    forall k | 0 <= k < |a + b|
      ensures Successes(a + b)[k] == (Successes(a) + Successes(b))[k]
    {
      if k < |a| {
        assert (a + b)[k] == a[k];
      } else {
        assert (a + b)[k] == b[k - |a|];
      }
    }
  }

  /** A run of successes for the first `i` arguments leaves the rest of the run to the remaining ones. */
  lemma {:induction false} StepsAfterSuccesses(files: seq<string>, i: nat, tail: seq<Call>, outcome: Outcome)
    requires i <= |files|
    ensures Steps(Successes(files[..i]) + tail, files, outcome) <==> Steps(tail, files[i..], outcome)
    decreases i
  {
    if i > 0 {
      var t := Successes(files[..i]) + tail;
      assert t[0] == ProcessCall(files[0], true);
      assert t[1..] == Successes(files[1..][..i - 1]) + tail;
      assert files[1..][i - 1..] == files[i..];
      StepsAfterSuccesses(files[1..], i - 1, tail, outcome);
    } else {
      assert Successes(files[..0]) + tail == tail;
    }
  }

  /**
   * `finish` is called exactly when the run completes, every argument before the failing one
   * was processed successfully, and no argument is processed twice or out of order.
   */
  lemma {:induction false} StepsProperties(trace: seq<Call>, files: seq<string>, outcome: Outcome)
    requires Steps(trace, files, outcome)
    ensures (FinishCall in trace) <==> outcome == Completed
    ensures outcome == Completed ==> |trace| == |files| + 1 && trace[..|files|] == Successes(files)
    ensures outcome.Exited? ==>
              && 1 <= |trace| <= |files|
              && trace[..|trace| - 1] == Successes(files[..|trace| - 1])
              && trace[|trace| - 1] == ProcessCall(files[|trace| - 1], false)
              && outcome.message == "Processing failed for: " + files[|trace| - 1]
    decreases |files|
  {
    if files != [] && trace[0].succeeded {
      StepsProperties(trace[1..], files[1..], outcome);
      assert trace == [trace[0]] + trace[1..];
      if outcome == Completed {
        assert trace[..|files|] == [trace[0]] + trace[1..][..|files| - 1];
      } else {
        var n := |trace|;
        assert trace[..n - 1] == [trace[0]] + trace[1..][..n - 2];
        assert files[..n - 1] == [files[0]] + files[1..][..n - 2];
      }
    }
  }

  /** A trace extended from `before` by `rest` splits back into the two. */
  lemma CallsAfter(before: seq<Call>, rest: seq<Call>, calls: seq<Call>)
    requires calls == before + rest
    ensures |calls| >= |before| && calls[..|before|] == before && calls[|before|..] == rest
  {
  }

  /** `argsList.remove(0)` when the first argument is "-v": only a leading "-v" is an option. */
  function StripVerbose(args: seq<string>): (r: seq<string>)
    ensures args != [] && args[0] == "-v" ==> r == args[1..]
    ensures args == [] || args[0] != "-v" ==> r == args
  {
    if args != [] && args[0] == "-v" then args[1..] else args
  }

  /** The processor lifecycle, dispatched on the selected processor. */
  method InitializeProcessor(p: Processor, tool: JarTool, verbose: bool)
    modifies Target(p)
    ensures JarOf(p) == Some(tool)
    ensures Results(p) == old(Results(p))
  {
    match p
    case ModuleProcessor(m) => m.Initialize(tool, verbose);
    case FxmlProcessor(f) => f.Initialize(tool, verbose);
  }

  method StartProcessor(p: Processor)
    modifies Target(p)
    ensures JarOf(p) == old(JarOf(p))
    ensures Results(p) == {}
  {
    match p
    case ModuleProcessor(m) => m.Start();
    case FxmlProcessor(f) => f.Start();
  }

  method ProcessWith(p: Processor, disk: Disk, arg: string) returns (r: Result<(), Error>)
    requires JarOf(p).Some?
    modifies Target(p)
    ensures JarOf(p) == old(JarOf(p))
    ensures forall o :: o in Results(p) ==> o in old(Results(p)) || fresh(o)
  {
    match p
    case ModuleProcessor(m) => r := m.Process(disk, arg);
    case FxmlProcessor(f) => r := f.Process(disk, arg);
  }

  /** What `finish` prints: the two report lists of the module checker, or the FXML checker's class lines. */
  datatype FinishOutput =
    | ModuleReports(modular: seq<ModuleChecking.Report>, nonModular: seq<ModuleChecking.Report>)
    | FxmlLines(lines: set<string>)

  /** `finish` on the selected processor: the output is that of the processor's own `finish`. */
  method FinishProcessor(p: Processor) returns (output: FinishOutput)
    modifies Target(p), Results(p)
    ensures p.ModuleProcessor? ==>
              var states := old(ModuleChecking.Snapshots(p.module_.checkResults));
              output == ModuleReports(ModuleChecking.ReportsOf(states, true), ModuleChecking.ReportsOf(states, false))
    ensures p.FxmlProcessor? ==>
              output == FxmlLines(set c | c in old(p.fxml.fxmlClasses) :: FxmlChecking.FormatClass(old(p.fxml.targetFormat), c))
  {
    match p
    case ModuleProcessor(m) =>
      var modular, nonModular := m.Finish();
      output := ModuleReports(modular, nonModular);
    case FxmlProcessor(f) =>
      var lines := f.Finish();
      output := FxmlLines(lines);
  }

  class Runner {
    var verbose: bool
    const processor: Processor
    /** The lifecycle calls made so far. */
    var calls: seq<Call>

    constructor (processor: Processor)
      ensures this.processor == processor && !verbose && calls == []
    {
      this.processor := processor;
      verbose := false;
      calls := [];
    }

    /** `process(argsList)`: checks for the jar tool and arguments, then drives the lifecycle. */
    method Process(argsList: seq<string>, tool: Option<JarTool>, disk: Disk) returns (outcome: Outcome)
      requires this !in Target(processor)
      modifies this, Target(processor), Results(processor)
      ensures tool.None? ==> outcome == Exited("JAR tool not found.") && calls == old(calls)
      ensures tool.Some? && argsList == [] ==> outcome == Exited("No JAR file specified.") && calls == old(calls)
      ensures tool.Some? && argsList != [] ==>
                && verbose == (old(verbose) || argsList[0] == "-v")
                && var files := StripVerbose(argsList);
                && (files == [] ==> outcome == Completed && calls == old(calls))
                && (files != [] ==>
                      && |calls| >= |old(calls)| + 2
                      && calls[..|old(calls)| + 2] == old(calls) + [InitializeCall(verbose), StartCall]
                      && Steps(calls[|old(calls)| + 2..], files, outcome))
    {
      if tool.None? {
        return Exited("JAR tool not found.");
      }
      var args := argsList;
      if |args| == 0 {
        return Exited("No JAR file specified.");
      }
      if args[0] == "-v" {
        verbose := true;
        args := args[1..];
      }
      if |args| == 0 {
        return Completed;
      }
      outcome := Lifecycle(args, tool.value, disk);
    }

    /** The lifecycle proper: `initialize`, `start`, `process` per argument until one fails, `finish`. */
    method Lifecycle(args: seq<string>, tool: JarTool, disk: Disk) returns (outcome: Outcome)
      requires this !in Target(processor)
      modifies this`calls, Target(processor), Results(processor)
      ensures |calls| >= |old(calls)| + 2
      ensures calls[..|old(calls)| + 2] == old(calls) + [InitializeCall(verbose), StartCall]
      ensures Steps(calls[|old(calls)| + 2..], args, outcome)
    {
      ghost var before := calls + [InitializeCall(verbose), StartCall];
      InitializeProcessor(processor, tool, verbose);
      calls := calls + [InitializeCall(verbose)];
      StartProcessor(processor);
      calls := calls + [StartCall];
      var i := 0;
      while i < |args|
        invariant 0 <= i <= |args|
        invariant JarOf(processor) == Some(tool)
        invariant forall o :: o in Results(processor) ==> fresh(o)
        invariant calls == before + Successes(args[..i])
      {
        var r := ProcessWith(processor, disk, args[i]);
        if r.Err? {
          calls := calls + [ProcessCall(args[i], false)];
          outcome := Exited("Processing failed for: " + args[i]);
          StepsAfterSuccesses(args, i, [ProcessCall(args[i], false)], outcome);
          CallsAfter(before, Successes(args[..i]) + [ProcessCall(args[i], false)], calls);
          return;
        }
        assert args[..i + 1] == args[..i] + [args[i]];
        SuccessesAppend(args[..i], [args[i]]);
        calls := calls + [ProcessCall(args[i], true)];
        i := i + 1;
      }
      var printed := FinishProcessor(processor);
      calls := calls + [FinishCall];
      outcome := Completed;
      assert args[..|args|] == args;
      StepsAfterSuccesses(args, |args|, [FinishCall], outcome);
      CallsAfter(before, Successes(args[..|args|]) + [FinishCall], calls);
    }
  }

  /**
   * `main`: at least two arguments, the first naming a processor; the rest go to a fresh runner.
   * Since the runner always receives at least one argument, it never reports a missing JAR.
   */
  method RunMain(args: seq<string>, tool: Option<JarTool>, disk: Disk,
               mc: ModuleChecking.ModuleChecker, fc: FxmlChecking.FxmlChecker)
    returns (outcome: Outcome, calls: seq<Call>)
    modifies mc, fc, set r | r in mc.checkResults
    ensures |args| <= 1 ==> outcome == Exited("Not enough arguments.") && calls == []
    ensures |args| > 1 && ProcessorNamed(args[0], mc, fc).None? ==>
              outcome == Exited("No valid processor specified.") && calls == []
    ensures |args| > 1 && ProcessorNamed(args[0], mc, fc).Some? && tool.None? ==>
              outcome == Exited("JAR tool not found.") && calls == []
    ensures |args| > 1 && ProcessorNamed(args[0], mc, fc).Some? && tool.Some? ==>
              var files := StripVerbose(args[1..]);
              && (files == [] ==> outcome == Completed && calls == [])
              && (files != [] ==>
                    && |calls| >= 2
                    && calls[..2] == [InitializeCall(args[1] == "-v"), StartCall]
                    && Steps(calls[2..], files, outcome))
    ensures outcome != Exited("No JAR file specified.")
  {
    if |args| > 1 {
      var processor := ProcessorNamed(args[0], mc, fc);
      if processor.Some? {
        var runner := new Runner(processor.value);
        outcome := runner.Process(args[1..], tool, disk);
        calls := runner.calls;
        if tool.Some? && StripVerbose(args[1..]) != [] {
          StepsProperties(calls[2..], StripVerbose(args[1..]), outcome);
        }
      } else {
        outcome := Exited("No valid processor specified.");
        calls := [];
      }
    } else {
      outcome := Exited("Not enough arguments.");
      calls := [];
    }
  }
}
