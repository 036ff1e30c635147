/**
 * The orchestrator (createServicePush/createServicePush.go, `Run`): process
 * the arguments, then, unless service creation is switched off, create the
 * manifest parser, parse the manifest and create its services, then, unless
 * pushing is switched off, push the application.
 *
 * Every failure calls the exit handler's HandleError, and the uninstall probe
 * calls HandleOK, but `Run` does not return after either: with a recording
 * exit handler (createServicePush/mock/exitHandler_mock.go) the later steps
 * still run. The model therefore records every call in one ordered trace;
 * with the real exit handler, which calls os.Exit, only the trace up to the
 * first exit call (Effective) happens, and that call decides the exit code.
 */
module CreateServicePush {
  import opened Platform
  import opened Sequences
  import opened ServiceManifest
  import CspArguments

  /** A call on the collaborators or on the exit handler. */
  datatype Event =
    | Process(args: seq<string>)
    | CreateParser(filename: string)
    | Parse(varsFilePaths: seq<string>, vars: map<string, string>)
    | CreateServices(manifest: Manifest)
    | PushAsSubprocess(argv: seq<string>)
    | HandleError
    | HandleOK

  /** One step of a run: a recorded event, or a command on the CLI connection. */
  datatype Step = Called(event: Event) | Command(argv: seq<string>)

  /**
   * What the collaborators answer, after createServicePush/mock/createServiceDependency_mock.go:
   * the processed arguments and whether each step fails. The subprocess push
   * has three ways to fail: the working directory cannot be read
   * (`getwdHasError`), cf is neither in that directory nor on the PATH
   * (`lookPathHasError`), or the child `cf push` fails (`childHasError`).
   */
  datatype Outcomes = Outcomes(
    arguments: CspArguments.Args,
    argumentHasError: bool,
    createParserHasError: bool,
    parseHasError: bool,
    manifest: Manifest,
    createServiceHasError: bool,
    getwdHasError: bool,
    lookPathHasError: bool,
    childHasError: bool)

  /** `append([]string{"push"}, OtherCFArgs...)`. */
  function PushArgv(a: CspArguments.Args): seq<string>
  {
    ["push"] + a.otherCFArgs
  }

  /** HandleError after a step that failed. */
  function OnFailure(failed: bool): seq<Step>
  {
    if failed then [Called(HandleError)] else []
  }

  /** The manifest steps: CreateParser, Parse and CreateServices, each followed by HandleError when it fails. */
  function CreateSteps(o: Outcomes): seq<Step>
  {
    var a := o.arguments;
    if a.doNotCreateServices then []
    else
      [Called(CreateParser(a.serviceManifestFilename))] + OnFailure(o.createParserHasError)
        + [Called(Parse(a.staticVariablesFilePaths, a.staticVariables))] + OnFailure(o.parseHasError)
        + [Called(CreateServices(o.manifest))] + OnFailure(o.createServiceHasError)
  }

  /**
   * The push steps: none with --no-push; as a subprocess, HandleError when
   * the working directory or the cf binary cannot be found, then the child,
   * whose failure is not reported (its error goes to the `err` that
   * `cwd, err :=` declares inside that branch, not to the one checked after
   * it); in process, the `push` command, then HandleError when it fails.
   */
  function PushSteps(o: Outcomes, commandFails: bool): seq<Step>
  {
    var a := o.arguments;
    if a.doNotPush then []
    else if a.pushAsSubProcess then
      OnFailure(o.getwdHasError) + OnFailure(o.lookPathHasError) + [Called(PushAsSubprocess(PushArgv(a)))]
    else [Command(PushArgv(a))] + OnFailure(commandFails)
  }

  function FailureEvent(failed: bool): seq<Event>
  {
    if failed then [HandleError] else []
  }

  /** The calls of the manifest steps. */
  function CreateEvents(o: Outcomes): seq<Event>
  {
    var a := o.arguments;
    if a.doNotCreateServices then []
    else
      [CreateParser(a.serviceManifestFilename)] + FailureEvent(o.createParserHasError)
        + [Parse(a.staticVariablesFilePaths, a.staticVariables)] + FailureEvent(o.parseHasError)
        + [CreateServices(o.manifest)] + FailureEvent(o.createServiceHasError)
  }

  /** The calls of the push steps. */
  function PushEvents(o: Outcomes, commandFails: bool): seq<Event>
  {
    var a := o.arguments;
    if a.doNotPush then []
    else if a.pushAsSubProcess then
      FailureEvent(o.getwdHasError) + FailureEvent(o.lookPathHasError) + [PushAsSubprocess(PushArgv(a))]
    else FailureEvent(commandFails)
  }

  /** The commands of the push steps: the in-process push only. */
  function PushCommands(o: Outcomes): seq<seq<string>>
  {
    if o.arguments.doNotPush || o.arguments.pushAsSubProcess then [] else [PushArgv(o.arguments)]
  }

  /** The steps of Run, in order, when the CLI connection's commands fail exactly when `commandFails`. */
  function RunTrace(o: Outcomes, args: seq<string>, commandFails: bool): seq<Step>
  {
    [Called(Process(args))] + OnFailure(o.argumentHasError)
      + (if o.arguments.isUninstallingPlugin then [Called(HandleOK)] else [])
      + CreateSteps(o)
      + PushSteps(o, commandFails)
  }

  /** The calls Run records on its collaborators, in order. */
  function RunEvents(o: Outcomes, args: seq<string>, commandFails: bool): seq<Event>
  {
    [Process(args)] + FailureEvent(o.argumentHasError)
      + (if o.arguments.isUninstallingPlugin then [HandleOK] else [])
      + CreateEvents(o)
      + PushEvents(o, commandFails)
  }

  /** The recorded events of a trace. */
  function Events(trace: seq<Step>): seq<Event>
    decreases |trace|
  {
    if trace == [] then []
    else (if trace[0].Called? then [trace[0].event] else []) + Events(trace[1..])
  }

  /** The commands of a trace. */
  function Commands(trace: seq<Step>): seq<seq<string>>
    decreases |trace|
  {
    if trace == [] then []
    else (if trace[0].Command? then [trace[0].argv] else []) + Commands(trace[1..])
  }

  predicate IsExit(s: Step)
  {
    s == Called(HandleError) || s == Called(HandleOK)
  }

  predicate HasExit(trace: seq<Step>)
  {
    exists i :: 0 <= i < |trace| && IsExit(trace[i])
  }

  /**
   * The steps that happen when the exit handler ends the process: up to and
   * including the first exit call. No exit call comes before its last step,
   * a trace is cut short only right after an exit call, and a trace without
   * one is kept whole.
   */
  function Effective(trace: seq<Step>): (r: seq<Step>)
    ensures r <= trace
    ensures forall i :: 0 <= i < |r| - 1 ==> !IsExit(r[i])
    ensures |r| < |trace| ==> r != [] && IsExit(r[|r| - 1])
    ensures !HasExit(trace) ==> r == trace
    decreases |trace|
  {
    if trace == [] then []
    else if IsExit(trace[0]) then [trace[0]]
    else [trace[0]] + Effective(trace[1..])
  }

  /** The process's exit code: 1 when the first exit call is HandleError, 0 otherwise (HandleOK, or returning). */
  function ExitCode(trace: seq<Step>): nat
    decreases |trace|
  {
    if trace == [] then 0
    else if trace[0] == Called(HandleError) then 1
    else if trace[0] == Called(HandleOK) then 0
    else ExitCode(trace[1..])
  }

  // ---------------------------------------------------------------------
  // The collaborators and the orchestrator.
  // ---------------------------------------------------------------------

  /**
   * One object plays the argument processor, the manifest parser, the
   * service creator, the subprocess launcher and the exit handler, as the
   * tests' doubles do; it records every call in order.
   */
  class Collaborators {
    const outcomes: Outcomes
    var events: seq<Event>
    /** Every step of the run in order: the calls recorded here, with the commands on the CLI connection between them. */
    ghost var trace: seq<Step>

    constructor (outcomes: Outcomes)
      ensures this.outcomes == outcomes && events == [] && trace == []
    {
      this.outcomes := outcomes;
      events := [];
      trace := [];
    }

    method Process(args: seq<string>) returns (a: CspArguments.Args, failed: bool)
      modifies this
      ensures a == outcomes.arguments && failed == outcomes.argumentHasError
      ensures events == old(events) + [Event.Process(args)]
      ensures trace == old(trace) + [Called(Event.Process(args))]
    {
      events := events + [Event.Process(args)];
      trace := trace + [Called(Event.Process(args))];
      a, failed := outcomes.arguments, outcomes.argumentHasError;
    }

    method CreateParser(filename: string) returns (failed: bool)
      modifies this
      ensures failed == outcomes.createParserHasError
      ensures events == old(events) + [Event.CreateParser(filename)]
      ensures trace == old(trace) + [Called(Event.CreateParser(filename))]
    {
      events := events + [Event.CreateParser(filename)];
      trace := trace + [Called(Event.CreateParser(filename))];
      failed := outcomes.createParserHasError;
    }

    method Parse(varsFilePaths: seq<string>, vars: map<string, string>) returns (m: Manifest, failed: bool)
      modifies this
      ensures m == outcomes.manifest && failed == outcomes.parseHasError
      ensures events == old(events) + [Event.Parse(varsFilePaths, vars)]
      ensures trace == old(trace) + [Called(Event.Parse(varsFilePaths, vars))]
    {
      events := events + [Event.Parse(varsFilePaths, vars)];
      trace := trace + [Called(Event.Parse(varsFilePaths, vars))];
      m, failed := outcomes.manifest, outcomes.parseHasError;
    }

    method CreateServices(manifest: Manifest) returns (failed: bool)
      modifies this
      ensures failed == outcomes.createServiceHasError
      ensures events == old(events) + [Event.CreateServices(manifest)]
      ensures trace == old(trace) + [Called(Event.CreateServices(manifest))]
    {
      events := events + [Event.CreateServices(manifest)];
      trace := trace + [Called(Event.CreateServices(manifest))];
      failed := outcomes.createServiceHasError;
    }

    /** `os.Getwd()`: whether reading the working directory fails. */
    method Getwd() returns (failed: bool)
      ensures failed == outcomes.getwdHasError
    {
      failed := outcomes.getwdHasError;
    }

    /** `os.Stat` of `cf` in the working directory, then `exec.LookPath`: whether cf is found nowhere. */
    method LookPath() returns (failed: bool)
      ensures failed == outcomes.lookPathHasError
    {
      failed := outcomes.lookPathHasError;
    }

    /** `cmd.Run()` of the child `cf` with `argv`. */
    method PushAsSubprocess(argv: seq<string>) returns (failed: bool)
      modifies this
      ensures failed == outcomes.childHasError
      ensures events == old(events) + [Event.PushAsSubprocess(argv)]
      ensures trace == old(trace) + [Called(Event.PushAsSubprocess(argv))]
    {
      events := events + [Event.PushAsSubprocess(argv)];
      trace := trace + [Called(Event.PushAsSubprocess(argv))];
      failed := outcomes.childHasError;
    }

    method HandleError()
      modifies this
      ensures events == old(events) + [Event.HandleError]
      ensures trace == old(trace) + [Called(Event.HandleError)]
    {
      events := events + [Event.HandleError];
      trace := trace + [Called(Event.HandleError)];
    }

    method HandleOK()
      modifies this
      ensures events == old(events) + [Event.HandleOK]
      ensures trace == old(trace) + [Called(Event.HandleOK)]
    {
      events := events + [Event.HandleOK];
      trace := trace + [Called(Event.HandleOK)];
    }
  }

  lemma {:induction false} EventsAppend(a: seq<Step>, b: seq<Step>)
    ensures Events(a + b) == Events(a) + Events(b)
    ensures Commands(a + b) == Commands(a) + Commands(b)
    decreases |a|
  {
    if a == [] {
      assert a + b == b;
    } else {
      assert (a + b)[0] == a[0] && (a + b)[1..] == a[1..] + b;
      EventsAppend(a[1..], b);
      AppendAssoc(if a[0].Called? then [a[0].event] else [], Events(a[1..]), Events(b));
      AppendAssoc(if a[0].Command? then [a[0].argv] else [], Commands(a[1..]), Commands(b));
    }
  }

  /** Appending six pieces one by one appends their concatenation. */
  lemma Regroup<T>(x: seq<T>, a: seq<T>, b: seq<T>, c: seq<T>, d: seq<T>, e: seq<T>, f: seq<T>)
    ensures x + a + b + c + d + e + f == x + (a + b + c + d + e + f)
  {
    AppendAssoc(x, a, b);
    AppendAssoc(x, a + b, c);
    AppendAssoc(x, a + b + c, d);
    AppendAssoc(x, a + b + c + d, e);
    AppendAssoc(x, a + b + c + d + e, f);
  }

  /** Appending five pieces one by one appends their concatenation. */
  lemma RegroupFive<T>(x: seq<T>, a: seq<T>, b: seq<T>, c: seq<T>, d: seq<T>, e: seq<T>)
    ensures x + a + b + c + d + e == x + (a + b + c + d + e)
  {
    AppendAssoc(x, a, b);
    AppendAssoc(x, a + b, c);
    AppendAssoc(x, a + b + c, d);
    AppendAssoc(x, a + b + c + d, e);
  }

  lemma CalledEvents(e: Event)
    ensures Events([Called(e)]) == [e] && Commands([Called(e)]) == []
  {
    assert [Called(e)][1..] == [];
  }

  lemma FailureEvents(failed: bool)
    ensures Events(OnFailure(failed)) == FailureEvent(failed) && Commands(OnFailure(failed)) == []
  {
    if failed {
      CalledEvents(HandleError);
    }
  }

  /** Events and Commands of `a + b`, when those of `a` and `b` are known. */
  lemma Concat(a: seq<Step>, b: seq<Step>, ea: seq<Event>, eb: seq<Event>, ca: seq<seq<string>>, cb: seq<seq<string>>)
    requires Events(a) == ea && Events(b) == eb && Commands(a) == ca && Commands(b) == cb
    ensures Events(a + b) == ea + eb && Commands(a + b) == ca + cb
  {
    EventsAppend(a, b);
  }

  lemma CreateStepsEvents(o: Outcomes)
    ensures Commands(CreateSteps(o)) == []
    ensures Events(CreateSteps(o)) == CreateEvents(o)
  {
    var a := o.arguments;
    if !a.doNotCreateServices {
      var e1 := CreateParser(a.serviceManifestFilename);
      var e3 := Parse(a.staticVariablesFilePaths, a.staticVariables);
      var e5 := CreateServices(o.manifest);
      CalledEvents(e1);
      CalledEvents(e3);
      CalledEvents(e5);
      FailureEvents(o.createParserHasError);
      FailureEvents(o.parseHasError);
      FailureEvents(o.createServiceHasError);
      var s1, s2, s3 := [Called(e1)], OnFailure(o.createParserHasError), [Called(e3)];
      var s4, s5, s6 := OnFailure(o.parseHasError), [Called(e5)], OnFailure(o.createServiceHasError);
      var f2, f4, f6 := FailureEvent(o.createParserHasError), FailureEvent(o.parseHasError), FailureEvent(o.createServiceHasError);
      Concat(s1, s2, [e1], f2, [], []);
      Concat(s1 + s2, s3, [e1] + f2, [e3], [], []);
      Concat(s1 + s2 + s3, s4, [e1] + f2 + [e3], f4, [], []);
      Concat(s1 + s2 + s3 + s4, s5, [e1] + f2 + [e3] + f4, [e5], [], []);
      Concat(s1 + s2 + s3 + s4 + s5, s6, [e1] + f2 + [e3] + f4 + [e5], f6, [], []);
    }
  }

  lemma PushStepsEvents(o: Outcomes, commandFails: bool)
    ensures Commands(PushSteps(o, commandFails)) == PushCommands(o)
    ensures Events(PushSteps(o, commandFails)) == PushEvents(o, commandFails)
  {
    var a := o.arguments;
    if !a.doNotPush {
      if a.pushAsSubProcess {
        CalledEvents(PushAsSubprocess(PushArgv(a)));
        FailureEvents(o.getwdHasError);
        FailureEvents(o.lookPathHasError);
        Concat(OnFailure(o.getwdHasError), OnFailure(o.lookPathHasError),
               FailureEvent(o.getwdHasError), FailureEvent(o.lookPathHasError), [], []);
        Concat(OnFailure(o.getwdHasError) + OnFailure(o.lookPathHasError), [Called(PushAsSubprocess(PushArgv(a)))],
               FailureEvent(o.getwdHasError) + FailureEvent(o.lookPathHasError), [PushAsSubprocess(PushArgv(a))], [], []);
      } else {
        FailureEvents(commandFails);
        assert [Command(PushArgv(a))][1..] == [];
        Concat([Command(PushArgv(a))], OnFailure(commandFails), [], FailureEvent(commandFails), [PushArgv(a)], []);
      }
    }
  }

  /** The trace interleaves Run's calls on the collaborators with its commands on the connection. */
  lemma TraceProjections(o: Outcomes, args: seq<string>, commandFails: bool)
    ensures Events(RunTrace(o, args, commandFails)) == RunEvents(o, args, commandFails)
    ensures Commands(RunTrace(o, args, commandFails)) == PushCommands(o)
  {
    var s1, s2 := [Called(Process(args))], OnFailure(o.argumentHasError);
    var s3 := if o.arguments.isUninstallingPlugin then [Called(HandleOK)] else [];
    var e3: seq<Event> := if o.arguments.isUninstallingPlugin then [HandleOK] else [];
    CalledEvents(Process(args));
    FailureEvents(o.argumentHasError);
    if o.arguments.isUninstallingPlugin {
      CalledEvents(HandleOK);
    }
    CreateStepsEvents(o);
    PushStepsEvents(o, commandFails);
    Concat(s1, s2, [Process(args)], FailureEvent(o.argumentHasError), [], []);
    Concat(s1 + s2, s3, [Process(args)] + FailureEvent(o.argumentHasError), e3, [], []);
    Concat(s1 + s2 + s3, CreateSteps(o), [Process(args)] + FailureEvent(o.argumentHasError) + e3, CreateEvents(o), [], []);
    Concat(s1 + s2 + s3 + CreateSteps(o), PushSteps(o, commandFails),
           [Process(args)] + FailureEvent(o.argumentHasError) + e3 + CreateEvents(o), PushEvents(o, commandFails),
           [], PushCommands(o));
  }


  // ---------------------------------------------------------------------
  // What a run promises.
  // ---------------------------------------------------------------------

  /** Once a trace has called the exit handler, what follows it never happens. */
  lemma {:induction false} EffectiveAfterExit(a: seq<Step>, b: seq<Step>)
    requires HasExit(a)
    ensures Effective(a + b) == Effective(a) && ExitCode(a + b) == ExitCode(a)
    decreases |a|
  {
    assert (a + b)[0] == a[0];
    if !IsExit(a[0]) {
      assert HasExit(a[1..]) by {
        var i :| 0 <= i < |a| && IsExit(a[i]);
        assert a[1..][i - 1] == a[i];
      }
      assert (a + b)[1..] == a[1..] + b;
      EffectiveAfterExit(a[1..], b);
    }
  }

  /** Steps before any exit call all happen, and do not decide the exit code. */
  lemma {:induction false} EffectiveBeforeExit(a: seq<Step>, b: seq<Step>)
    requires !HasExit(a)
    ensures Effective(a + b) == a + Effective(b) && ExitCode(a + b) == ExitCode(b)
    decreases |a|
  {
    if a == [] {
      assert a + b == b;
    } else {
      assert (a + b)[0] == a[0] && (a + b)[1..] == a[1..] + b;
      assert !IsExit(a[0]);
      assert !HasExit(a[1..]) by {
        forall i | 0 <= i < |a[1..]| ensures !IsExit(a[1..][i]) {
          assert a[1..][i] == a[i + 1];
        }
      }
      EffectiveBeforeExit(a[1..], b);
      AppendAssoc([a[0]], a[1..], Effective(b));
      assert [a[0]] + a[1..] == a;
    }
  }

  /** The first three pieces of RunTrace: Process, its failure, the uninstall probe. */
  function Head(o: Outcomes, args: seq<string>): seq<Step>
  {
    [Called(Process(args))] + OnFailure(o.argumentHasError)
      + (if o.arguments.isUninstallingPlugin then [Called(HandleOK)] else [])
  }

  /** The calls of Head. */
  function HeadEvents(o: Outcomes, args: seq<string>): seq<Event>
  {
    [Process(args)] + FailureEvent(o.argumentHasError)
      + (if o.arguments.isUninstallingPlugin then [HandleOK] else [])
  }

  lemma RunTraceSplit(o: Outcomes, args: seq<string>, commandFails: bool)
    ensures RunTrace(o, args, commandFails) == Head(o, args) + CreateSteps(o) + PushSteps(o, commandFails)
    ensures RunEvents(o, args, commandFails) == HeadEvents(o, args) + CreateEvents(o) + PushEvents(o, commandFails)
  {
  }

  /** A trace whose head already calls the exit handler ends there. */
  lemma HeadDecides(o: Outcomes, args: seq<string>, commandFails: bool)
    requires HasExit(Head(o, args))
    ensures Effective(RunTrace(o, args, commandFails)) == Effective(Head(o, args))
    ensures ExitCode(RunTrace(o, args, commandFails)) == ExitCode(Head(o, args))
  {
    var h := Head(o, args);
    RunTraceSplit(o, args, commandFails);
    EffectiveAfterExit(h, CreateSteps(o));
    assert HasExit(h + CreateSteps(o)) by {
      var i :| 0 <= i < |h| && IsExit(h[i]);
      assert (h + CreateSteps(o))[i] == h[i];
    }
    EffectiveAfterExit(h + CreateSteps(o), PushSteps(o, commandFails));
  }

  /** An argument-processing error calls HandleError right after Process: the run ends there with exit code 1. */
  lemma ArgumentErrorExits(o: Outcomes, args: seq<string>, commandFails: bool)
    requires o.argumentHasError
    ensures Effective(RunTrace(o, args, commandFails)) == [Called(Process(args)), Called(HandleError)]
    ensures ExitCode(RunTrace(o, args, commandFails)) == 1
  {
    var h := Head(o, args);
    assert h[1] == Called(HandleError);
    HeadDecides(o, args, commandFails);
    var u := if o.arguments.isUninstallingPlugin then [Called(HandleOK)] else [];
    assert h == [Called(Process(args)), Called(HandleError)] + u;
    EffectiveAfterExit([Called(Process(args)), Called(HandleError)], u);
  }

  /** The uninstall probe, processed without error, calls HandleOK right after Process: the run ends there with exit code 0. */
  lemma UninstallExitsOK(o: Outcomes, args: seq<string>, commandFails: bool)
    requires !o.argumentHasError && o.arguments.isUninstallingPlugin
    ensures Effective(RunTrace(o, args, commandFails)) == [Called(Process(args)), Called(HandleOK)]
    ensures ExitCode(RunTrace(o, args, commandFails)) == 0
  {
    var h := Head(o, args);
    assert h == [Called(Process(args)), Called(HandleOK)];
    assert h[1] == Called(HandleOK);
    HeadDecides(o, args, commandFails);
  }

  /** A run that gets past Process goes on to the manifest steps. */
  lemma HeadPasses(o: Outcomes, args: seq<string>, commandFails: bool)
    requires !o.argumentHasError && !o.arguments.isUninstallingPlugin
    ensures Effective(RunTrace(o, args, commandFails))
         == [Called(Process(args))] + Effective(CreateSteps(o) + PushSteps(o, commandFails))
    ensures ExitCode(RunTrace(o, args, commandFails)) == ExitCode(CreateSteps(o) + PushSteps(o, commandFails))
  {
    var h := Head(o, args);
    assert h == [Called(Process(args))];
    RunTraceSplit(o, args, commandFails);
    AppendAssoc(h, CreateSteps(o), PushSteps(o, commandFails));
    assert !HasExit(h);
    EffectiveBeforeExit(h, CreateSteps(o) + PushSteps(o, commandFails));
  }

  /** A HandleError after steps without an exit call ends the run there, with exit code 1. */
  lemma ExitsAfter(pre: seq<Step>, rest: seq<Step>)
    requires !HasExit(pre)
    ensures Effective(pre + [Called(HandleError)] + rest) == pre + [Called(HandleError)]
    ensures ExitCode(pre + [Called(HandleError)] + rest) == 1
  {
    var t := [Called(HandleError)] + rest;
    AppendAssoc(pre, [Called(HandleError)], rest);
    EffectiveBeforeExit(pre, t);
    assert t[0] == Called(HandleError);
    assert Effective(t) == [Called(HandleError)] && ExitCode(t) == 1;
  }

  /**
   * Unless service creation is off, CreateParser is called right after
   * Process; when it fails the run ends there with exit code 1, before Parse.
   */
  lemma CreateParserFailureExits(o: Outcomes, args: seq<string>, commandFails: bool)
    requires !o.argumentHasError && !o.arguments.isUninstallingPlugin && !o.arguments.doNotCreateServices
    requires o.createParserHasError
    ensures Effective(RunTrace(o, args, commandFails))
         == [Called(Process(args)), Called(CreateParser(o.arguments.serviceManifestFilename)), Called(HandleError)]
    ensures ExitCode(RunTrace(o, args, commandFails)) == 1
  {
    HeadPasses(o, args, commandFails);
    var s1 := Called(CreateParser(o.arguments.serviceManifestFilename));
    var tail := ParserFailedSteps(o, PushSteps(o, commandFails));
    assert !HasExit([s1]);
    ExitsAfter([s1], tail);
  }

  /** The manifest and push steps after a failed CreateParser: CreateParser, HandleError, then `tail`. */
  lemma ParserFailedSteps(o: Outcomes, p: seq<Step>) returns (tail: seq<Step>)
    requires !o.arguments.doNotCreateServices && o.createParserHasError
    ensures CreateSteps(o) + p
         == [Called(CreateParser(o.arguments.serviceManifestFilename))] + [Called(HandleError)] + tail
  {
    var a := o.arguments;
    var x := [Called(CreateParser(a.serviceManifestFilename))] + [Called(HandleError)];
    var b, c := [Called(Parse(a.staticVariablesFilePaths, a.staticVariables))], OnFailure(o.parseHasError);
    var d, e := [Called(CreateServices(o.manifest))], OnFailure(o.createServiceHasError);
    RegroupFive(x, b, c, d, e, p);
    tail := b + c + d + e + p;
  }

  /** When CreateParser succeeds, Parse is called next with the vars files and vars; when it fails the run ends there with exit code 1. */
  lemma ParseFailureExits(o: Outcomes, args: seq<string>, commandFails: bool)
    requires !o.argumentHasError && !o.arguments.isUninstallingPlugin && !o.arguments.doNotCreateServices
    requires !o.createParserHasError && o.parseHasError
    ensures var a := o.arguments;
      Effective(RunTrace(o, args, commandFails))
        == [Called(Process(args)), Called(CreateParser(a.serviceManifestFilename)),
            Called(Parse(a.staticVariablesFilePaths, a.staticVariables)), Called(HandleError)]
    ensures ExitCode(RunTrace(o, args, commandFails)) == 1
  {
    var a := o.arguments;
    HeadPasses(o, args, commandFails);
    var s1 := Called(CreateParser(a.serviceManifestFilename));
    var s3 := Called(Parse(a.staticVariablesFilePaths, a.staticVariables));
    var c, p := CreateSteps(o), PushSteps(o, commandFails);
    var rest := [Called(CreateServices(o.manifest))] + OnFailure(o.createServiceHasError) + p;
    assert c == [s1] + [] + [s3] + [Called(HandleError)] + [Called(CreateServices(o.manifest))] + OnFailure(o.createServiceHasError);
    assert [s1] + [] + [s3] == [s1, s3];
    AppendAssoc([s1, s3] + [Called(HandleError)], [Called(CreateServices(o.manifest))] + OnFailure(o.createServiceHasError), p);
    AppendAssoc([s1, s3] + [Called(HandleError)], [Called(CreateServices(o.manifest))], OnFailure(o.createServiceHasError));
    assert c + p == [s1, s3] + [Called(HandleError)] + rest;
    assert !HasExit([s1, s3]);
    ExitsAfter([s1, s3], rest);
  }

  /** When parsing succeeds, CreateServices is called with the parsed manifest; when it fails the run ends there with exit code 1. */
  lemma CreateServicesFailureExits(o: Outcomes, args: seq<string>, commandFails: bool)
    requires !o.argumentHasError && !o.arguments.isUninstallingPlugin && !o.arguments.doNotCreateServices
    requires !o.createParserHasError && !o.parseHasError && o.createServiceHasError
    ensures var a := o.arguments;
      Effective(RunTrace(o, args, commandFails))
        == [Called(Process(args)), Called(CreateParser(a.serviceManifestFilename)),
            Called(Parse(a.staticVariablesFilePaths, a.staticVariables)), Called(CreateServices(o.manifest)),
            Called(HandleError)]
    ensures ExitCode(RunTrace(o, args, commandFails)) == 1
  {
    var a := o.arguments;
    HeadPasses(o, args, commandFails);
    var s1 := Called(CreateParser(a.serviceManifestFilename));
    var s3 := Called(Parse(a.staticVariablesFilePaths, a.staticVariables));
    var s5 := Called(CreateServices(o.manifest));
    CreateServicesFailedSteps(o);
    assert !HasExit([s1, s3, s5]);
    ExitsAfter([s1, s3, s5], PushSteps(o, commandFails));
  }

  /** The manifest steps after a failed CreateServices. */
  lemma CreateServicesFailedSteps(o: Outcomes)
    requires !o.arguments.doNotCreateServices
    requires !o.createParserHasError && !o.parseHasError && o.createServiceHasError
    ensures var a := o.arguments;
      CreateSteps(o) == [Called(CreateParser(a.serviceManifestFilename)),
                         Called(Parse(a.staticVariablesFilePaths, a.staticVariables)),
                         Called(CreateServices(o.manifest))] + [Called(HandleError)]
  {
  }

  /** An in-process push runs `push` followed by the forwarded arguments, and its failure is followed by HandleError. */
  lemma PushFailureRecordsError(o: Outcomes, args: seq<string>)
    requires !o.arguments.doNotPush && !o.arguments.pushAsSubProcess
    ensures PushCommands(o) == [["push"] + o.arguments.otherCFArgs]
    ensures RunEvents(o, args, true) == RunEvents(o, args, false) + [HandleError]
  {
  }

  /**
   * When the working directory cannot be read or cf cannot be found, the
   * subprocess push calls HandleError before the child is started: the run
   * ends there with exit code 1.
   */
  lemma SubprocessSetupFailureExits(o: Outcomes, args: seq<string>, commandFails: bool)
    requires !o.argumentHasError && !o.arguments.isUninstallingPlugin
    requires !o.createParserHasError && !o.parseHasError && !o.createServiceHasError
    requires !o.arguments.doNotPush && o.arguments.pushAsSubProcess
    requires o.getwdHasError || o.lookPathHasError
    ensures Effective(RunTrace(o, args, commandFails)) == [Called(Process(args))] + CreateSteps(o) + [Called(HandleError)]
    ensures ExitCode(RunTrace(o, args, commandFails)) == 1
  {
    HeadPasses(o, args, commandFails);
    var c := CreateSteps(o);
    CreateStepsClean(o);
    var rest := SetupFailedPushSteps(o, commandFails);
    AppendAssoc(c, [Called(HandleError)], rest);
    ExitsAfter(c, rest);
    AppendAssoc([Called(Process(args))], c, [Called(HandleError)]);
  }

  /** Manifest steps that all succeed call no exit handler. */
  lemma CreateStepsClean(o: Outcomes)
    requires !o.createParserHasError && !o.parseHasError && !o.createServiceHasError
    ensures !HasExit(CreateSteps(o))
  {
    var c := CreateSteps(o);
    forall i | 0 <= i < |c| ensures !IsExit(c[i]) {
    }
  }

  /** A subprocess push whose setup fails starts with HandleError. */
  lemma SetupFailedPushSteps(o: Outcomes, commandFails: bool) returns (rest: seq<Step>)
    requires !o.arguments.doNotPush && o.arguments.pushAsSubProcess
    requires o.getwdHasError || o.lookPathHasError
    ensures PushSteps(o, commandFails) == [Called(HandleError)] + rest
  {
    rest := PushSteps(o, commandFails)[1..];
  }

  /**
   * A child `cf push` that fails changes nothing in the run: with every
   * other step succeeding, HandleError is never called and the exit code
   * is 0, exactly as when the child succeeds.
   */
  lemma ChildFailureUnreported(o: Outcomes, args: seq<string>, commandFails: bool)
    requires !o.argumentHasError && !o.arguments.isUninstallingPlugin
    requires !o.createParserHasError && !o.parseHasError && !o.createServiceHasError
    requires !o.arguments.doNotPush && o.arguments.pushAsSubProcess
    requires !o.getwdHasError && !o.lookPathHasError && o.childHasError
    ensures RunTrace(o, args, commandFails) == RunTrace(o.(childHasError := false), args, commandFails)
    ensures PushAsSubprocess(["push"] + o.arguments.otherCFArgs) in RunEvents(o, args, commandFails)
    ensures HandleError !in RunEvents(o, args, commandFails)
    ensures ExitCode(RunTrace(o, args, commandFails)) == 0
  {
    CleanRun(o, args, false);
  }

  /** With service creation off, neither the parser nor the creator is called. */
  lemma NoManifestStepsWhenDisabled(o: Outcomes, args: seq<string>, commandFails: bool)
    requires o.arguments.doNotCreateServices
    ensures forall e :: e in RunEvents(o, args, commandFails) ==>
      !e.CreateParser? && !e.Parse? && !e.CreateServices?
  {
  }

  /** With --no-push, nothing is pushed, in process or as a subprocess. */
  lemma NoPushWhenDisabled(o: Outcomes, args: seq<string>, commandFails: bool)
    requires o.arguments.doNotPush
    ensures PushCommands(o) == []
    ensures forall e :: e in RunEvents(o, args, commandFails) ==> !e.PushAsSubprocess?
  {
  }

  /**
   * When every collaborator succeeds, HandleError is never called, the whole
   * run happens and exits 0, and the in-process push runs `push` followed by
   * the forwarded arguments.
   */
  lemma CleanRun(o: Outcomes, args: seq<string>, commandFails: bool)
    requires !o.argumentHasError && !o.arguments.isUninstallingPlugin
    requires !o.createParserHasError && !o.parseHasError && !o.createServiceHasError
    requires !o.getwdHasError && !o.lookPathHasError && !commandFails
    ensures HandleError !in RunEvents(o, args, commandFails)
    ensures Effective(RunTrace(o, args, commandFails)) == RunTrace(o, args, commandFails)
    ensures ExitCode(RunTrace(o, args, commandFails)) == 0
    ensures !o.arguments.doNotPush && !o.arguments.pushAsSubProcess ==>
      PushCommands(o) == [["push"] + o.arguments.otherCFArgs]
  {
    var t := RunTrace(o, args, commandFails);
    assert !HasExit(t) by {
      forall i | 0 <= i < |t| ensures !IsExit(t[i]) {
      }
    }
    EffectiveBeforeExit(t, []);
    assert t + [] == t;
  }

  /**
   * With the real argument processor, the uninstall probe exits 0 right after
   * processing and a first token other than the command name exits 1.
   */
  lemma RealProcessorFirstToken(o: Outcomes, args: seq<string>, env: seq<string>, commandFails: bool)
    requires |args| > 0 && CspArguments.EnvWellFormed(env)
    requires var r := CspArguments.ProcessSpec(CspArguments.Initial(), args, env);
      o.arguments == r.0 && o.argumentHasError == r.1.Some?
    ensures args[0] == CspArguments.UninstallSentinel ==>
      Effective(RunTrace(o, args, commandFails)) == [Called(Process(args)), Called(HandleOK)]
    ensures args[0] != CspArguments.UninstallSentinel && args[0] != CspArguments.CommandName ==>
      ExitCode(RunTrace(o, args, commandFails)) == 1
  {
    if args[0] == CspArguments.UninstallSentinel {
      UninstallExitsOK(o, args, commandFails);
    } else if args[0] != CspArguments.CommandName {
      ArgumentErrorExits(o, args, commandFails);
    }
  }

  class CreateServicePush {
    const deps: Collaborators

    constructor (deps: Collaborators)
      ensures this.deps == deps
    {
      this.deps := deps;
    }

    /** Run, without the console output. */
    method Run(cliConnection: Connection, args: seq<string>)
      modifies deps, cliConnection
      ensures deps.trace == old(deps.trace) + RunTrace(deps.outcomes, args, old(cliConnection.commandFails))
      ensures deps.events == old(deps.events) + RunEvents(deps.outcomes, args, old(cliConnection.commandFails))
      ensures cliConnection.State()
           == old(cliConnection.State()).(commands := old(cliConnection.commands) + PushCommands(deps.outcomes))
    {
      ghost var o := deps.outcomes;
      ghost var fails := cliConnection.commandFails;
      ghost var t0, e0 := deps.trace, deps.events;
      ghost var cf0 := cliConnection.State();
      var csp := ProcessArguments(args);
      ghost var t1, e1 := deps.trace, deps.events;
      if !csp.doNotCreateServices {
        CreateFromManifest(csp);
      } else {
        assert t1 + CreateSteps(o) == t1 && e1 + CreateEvents(o) == e1;
      }
      ghost var t2, e2 := deps.trace, deps.events;
      assert t2 == t1 + CreateSteps(o) && e2 == e1 + CreateEvents(o);
      assert cliConnection.State() == cf0;
      if !csp.doNotPush {
        Push(cliConnection, csp);
      } else {
        assert t2 + PushSteps(o, fails) == t2 && e2 + PushEvents(o, fails) == e2;
        assert cf0.commands + PushCommands(o) == cf0.commands;
      }
      assert deps.trace == t2 + PushSteps(o, fails) && deps.events == e2 + PushEvents(o, fails);
      AppendAssoc(t0, Head(o, args), CreateSteps(o));
      AppendAssoc(t0, Head(o, args) + CreateSteps(o), PushSteps(o, fails));
      AppendAssoc(e0, HeadEvents(o, args), CreateEvents(o));
      AppendAssoc(e0, HeadEvents(o, args) + CreateEvents(o), PushEvents(o, fails));
      RunTraceSplit(o, args, fails);
    }

    /** The argument step of Run: Process, HandleError when it fails, HandleOK when uninstalling. */
    method ProcessArguments(args: seq<string>) returns (csp: CspArguments.Args)
      modifies deps
      ensures csp == deps.outcomes.arguments
      ensures deps.trace == old(deps.trace) + Head(deps.outcomes, args)
      ensures deps.events == old(deps.events) + HeadEvents(deps.outcomes, args)
    {
      ghost var o := deps.outcomes;
      ghost var t0, e0 := deps.trace, deps.events;
      var failed;
      csp, failed := deps.Process(args);
      if failed {
        deps.HandleError();
      }
      if csp.isUninstallingPlugin {
        deps.HandleOK();
      }
      AppendAssoc(t0, [Called(Process(args))], OnFailure(o.argumentHasError));
      AppendAssoc(t0, [Called(Process(args))] + OnFailure(o.argumentHasError),
                  if o.arguments.isUninstallingPlugin then [Called(HandleOK)] else []);
      AppendAssoc(e0, [Process(args)], FailureEvent(o.argumentHasError));
      AppendAssoc(e0, [Process(args)] + FailureEvent(o.argumentHasError),
                  if o.arguments.isUninstallingPlugin then [HandleOK] else []);
    }

    /** The manifest steps of Run: CreateParser, Parse and CreateServices, with HandleError after each failure. */
    method CreateFromManifest(csp: CspArguments.Args)
      requires csp == deps.outcomes.arguments && !csp.doNotCreateServices
      modifies deps
      ensures deps.trace == old(deps.trace) + CreateSteps(deps.outcomes)
      ensures deps.events == old(deps.events) + CreateEvents(deps.outcomes)
    {
      ghost var o := deps.outcomes;
      ghost var t0, e0 := deps.trace, deps.events;
      ghost var s1, s2 := [Called(CreateParser(csp.serviceManifestFilename))], OnFailure(o.createParserHasError);
      ghost var s3, s4 := [Called(Parse(csp.staticVariablesFilePaths, csp.staticVariables))], OnFailure(o.parseHasError);
      ghost var s5, s6 := [Called(CreateServices(o.manifest))], OnFailure(o.createServiceHasError);
      ghost var v1, v2 := [CreateParser(csp.serviceManifestFilename)], FailureEvent(o.createParserHasError);
      ghost var v3, v4 := [Parse(csp.staticVariablesFilePaths, csp.staticVariables)], FailureEvent(o.parseHasError);
      ghost var v5, v6 := [CreateServices(o.manifest)], FailureEvent(o.createServiceHasError);
      var failed := deps.CreateParser(csp.serviceManifestFilename);
      if failed {
        deps.HandleError();
      }
      assert deps.trace == t0 + s1 + s2 && deps.events == e0 + v1 + v2;
      var manifest;
      manifest, failed := deps.Parse(csp.staticVariablesFilePaths, csp.staticVariables);
      if failed {
        deps.HandleError();
      }
      assert deps.trace == t0 + s1 + s2 + s3 + s4 && deps.events == e0 + v1 + v2 + v3 + v4;
      failed := deps.CreateServices(manifest);
      if failed {
        deps.HandleError();
      }
      assert deps.trace == t0 + s1 + s2 + s3 + s4 + s5 + s6;
      assert deps.events == e0 + v1 + v2 + v3 + v4 + v5 + v6;
      Regroup(t0, s1, s2, s3, s4, s5, s6);
      Regroup(e0, v1, v2, v3, v4, v5, v6);
    }

    /**
     * The push of Run. As a subprocess: HandleError when the working
     * directory or the cf binary cannot be found, then the child, whose
     * failure is dropped. In process: the `push` command on the connection,
     * with HandleError when it fails.
     */
    method Push(cliConnection: Connection, csp: CspArguments.Args)
      requires csp == deps.outcomes.arguments && !csp.doNotPush
      modifies deps, cliConnection
      ensures deps.trace == old(deps.trace) + PushSteps(deps.outcomes, old(cliConnection.commandFails))
      ensures deps.events == old(deps.events) + PushEvents(deps.outcomes, old(cliConnection.commandFails))
      ensures cliConnection.State()
           == old(cliConnection.State()).(commands := old(cliConnection.commands) + PushCommands(deps.outcomes))
    {
      if csp.pushAsSubProcess {
        var failed := deps.Getwd();
        if failed {
          deps.HandleError();
        }
        failed := deps.LookPath();
        if failed {
          deps.HandleError();
        }
        // The child's error is assigned to the `err` declared with the
        // working directory inside this branch; the check after the
        // branches reads the outer `err`, which stays nil.
        var childFailed := deps.PushAsSubprocess(["push"] + csp.otherCFArgs);
      } else {
        var ok := cliConnection.CliCommand(["push"] + csp.otherCFArgs);
        deps.trace := deps.trace + [Command(["push"] + csp.otherCFArgs)];
        if !ok {
          deps.HandleError();
        }
      }
    }
  }
}
