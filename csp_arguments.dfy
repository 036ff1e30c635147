/**
 * The create-service-push argument processor (cspArguments/cspArguments.go).
 *
 * The processor owns a table of seven flags. `Process` scans the tokens once,
 * left to right: a token that is not a flag is forwarded to `cf push`, a flag
 * runs its handler and skips its argument slot. The handlers of `--var` and
 * `--vars-file` are run through Go's `defer`, so they run after the scan, last
 * one first, and see the final value of every other flag's `processed` bit.
 * Every handler writes its error into the slot of its own token position and
 * the error at the lowest position is returned.
 *
 * The pure functions below (Layout, ScanFrom, RunDeferred, FirstErr,
 * ProcessSpec) specify the class's methods; the lemmas at the end state what
 * the processor promises about a whole invocation.
 */
module CspArguments {
  import opened Wrappers
  import opened Strings
  import opened Sequences

  const UninstallSentinel: string := "CLI-MESSAGE-UNINSTALL"
  const CommandName: string := "create-service-push"
  const DefaultManifestFilename: string := "services-manifest.yml"

  /** The keys of the flag table built by NewCSPArguments. */
  datatype FlagName =
    | Var                    // --var KEY=VALUE
    | VarsFile               // --vars-file PATH
    | UseEnvVarsPrefixedWith // --use-env-vars-prefixed-with PREFIX
    | NoPush                 // --no-push
    | PushAsSubprocess       // --push-as-subprocess
    | NoServiceManifest      // --no-service-manifest
    | ServiceManifest        // --service-manifest PATH

  function FlagToken(f: FlagName): string
  {
    match f
    case Var => "--var"
    case VarsFile => "--vars-file"
    case UseEnvVarsPrefixedWith => "--use-env-vars-prefixed-with"
    case NoPush => "--no-push"
    case PushAsSubprocess => "--push-as-subprocess"
    case NoServiceManifest => "--no-service-manifest"
    case ServiceManifest => "--service-manifest"
  }

  /** `csp.cspFlags[token]`: the flag a token names, if it names one. */
  function Lookup(token: string): (r: Option<FlagName>)
    ensures r.Some? ==> FlagToken(r.value) == token
    ensures r.None? ==> forall f: FlagName :: FlagToken(f) != token
  {
    if token == "--var" then Some(Var)
    else if token == "--vars-file" then Some(VarsFile)
    else if token == "--use-env-vars-prefixed-with" then Some(UseEnvVarsPrefixedWith)
    else if token == "--no-push" then Some(NoPush)
    else if token == "--push-as-subprocess" then Some(PushAsSubprocess)
    else if token == "--no-service-manifest" then Some(NoServiceManifest)
    else if token == "--service-manifest" then Some(ServiceManifest)
    else None
  }

  /** The `argumentCount` column of the flag table. */
  function ArgumentCount(f: FlagName): nat
  {
    match f
    case Var | VarsFile | UseEnvVarsPrefixedWith | ServiceManifest => 1
    case NoPush | PushAsSubprocess | NoServiceManifest => 0
  }

  /** The `shouldDefer` column of the flag table. */
  predicate ShouldDefer(f: FlagName)
  {
    f == Var || f == VarsFile
  }

  /** The public fields of `CSPArguments` together with the flags' `processed` bits. */
  datatype Args = Args(
    isUninstallingPlugin: bool,
    serviceManifestFilename: string,
    doNotCreateServices: bool,
    doNotPush: bool,
    pushAsSubProcess: bool,
    staticVariablesFilePaths: seq<string>,
    staticVariables: map<string, string>,
    otherCFArgs: seq<string>,
    processed: set<FlagName>)

  /** The record NewCSPArguments returns. */
  function Initial(): Args
  {
    Args(false, DefaultManifestFilename, false, false, false, [], map[], [], {})
  }

  /** The errors `Process` can return, one per `fmt.Errorf` of the source. */
  datatype ArgError =
    | NotCreateServicePush
    | VarMissingPair
    | VarNotKeyValue(token: string)
    | VarHangingInput(token: string)
    | VarsFileMissingName
    | VarsFileNotAName(token: string)
    | EnvPrefixMissing
    | NoPushWithSubprocess
    | SubprocessWithNoPush
    | NoManifestWithManifest
    | ManifestWithNoManifest
    | ManifestNotAName(shown: string)
    | ManifestMissingName

  /** Every entry of the environment has the `KEY=VALUE` shape os.Environ guarantees. */
  predicate EnvWellFormed(env: seq<string>)
  {
    forall i :: 0 <= i < |env| ==> '=' in env[i]
  }

  // ---------------------------------------------------------------------
  // The handlers, as functions of the record before the call.
  // ---------------------------------------------------------------------

  /** The validation of `--var` at position `i`: it depends only on the tokens. */
  function VarCheck(i: nat, args: seq<string>): Option<ArgError>
  {
    if i + 1 < |args| then
      var token := args[i + 1];
      if '=' in token then
        var value := SplitAtFirst(token, '=').1;
        if (value == " " || value == "") && i + 2 < |args| && !StartsWithDash(args[i + 2]) then
          Some(VarHangingInput(args[i + 2]))
        else None
      else Some(VarNotKeyValue(token))
    else Some(VarMissingPair)
  }

  /** The `--var` handler: binds the key, and forwards the pair when `--push-as-subprocess` was processed. */
  function VarSpec(s: Args, i: nat, args: seq<string>): (Args, Option<ArgError>)
  {
    var e := VarCheck(i, args);
    if e.Some? || i + 1 >= |args| then (s, e)
    else
      var kv := SplitAtFirst(args[i + 1], '=');
      (s.(staticVariables := s.staticVariables[kv.0 := kv.1],
          otherCFArgs := if PushAsSubprocess in s.processed then s.otherCFArgs + [args[i], args[i + 1]] else s.otherCFArgs,
          processed := s.processed + {Var}),
       None)
  }

  /** The validation of `--vars-file` at position `i`. */
  function VarsFileCheck(i: nat, args: seq<string>): Option<ArgError>
  {
    if i + 1 < |args| then
      if StartsWithDash(args[i + 1]) then Some(VarsFileNotAName(args[i + 1])) else None
    else Some(VarsFileMissingName)
  }

  /** The `--vars-file` handler: records the path, and forwards the pair when `--push-as-subprocess` was processed. */
  function VarsFileSpec(s: Args, i: nat, args: seq<string>): (Args, Option<ArgError>)
  {
    var e := VarsFileCheck(i, args);
    if e.Some? || i + 1 >= |args| then (s, e)
    else
      (s.(otherCFArgs := if PushAsSubprocess in s.processed then s.otherCFArgs + [args[i], args[i + 1]] else s.otherCFArgs,
          staticVariablesFilePaths := s.staticVariablesFilePaths + [args[i + 1]],
          processed := s.processed + {VarsFile}),
       None)
  }

  /** The bindings after folding, in order, every environment entry that starts with `prefix` into `vars`. */
  function EnvBindings(vars: map<string, string>, env: seq<string>, prefix: string): map<string, string>
    requires EnvWellFormed(env)
    decreases |env|
  {
    if env == [] then vars
    else
      var before := EnvBindings(vars, env[..|env| - 1], prefix);
      var entry := env[|env| - 1];
      if HasPrefix(entry, prefix) then
        var kv := SplitAtFirst(entry, '=');
        before[kv.0 := kv.1]
      else before
  }

  /** The `--use-env-vars-prefixed-with` handler. */
  function UseEnvSpec(s: Args, i: nat, args: seq<string>, env: seq<string>): (Args, Option<ArgError>)
    requires EnvWellFormed(env)
  {
    if i + 1 < |args| then
      (s.(staticVariables := EnvBindings(s.staticVariables, env, args[i + 1]),
          processed := s.processed + {UseEnvVarsPrefixedWith}),
       None)
    else (s, Some(EnvPrefixMissing))
  }

  function NoPushSpec(s: Args): (Args, Option<ArgError>)
  {
    if PushAsSubprocess in s.processed then (s, Some(NoPushWithSubprocess))
    else (s.(doNotPush := true, processed := s.processed + {NoPush}), None)
  }

  function PushAsSubprocessSpec(s: Args): (Args, Option<ArgError>)
  {
    if NoPush in s.processed then (s, Some(SubprocessWithNoPush))
    else (s.(pushAsSubProcess := true, processed := s.processed + {PushAsSubprocess}), None)
  }

  function NoServiceManifestSpec(s: Args): (Args, Option<ArgError>)
  {
    if ServiceManifest in s.processed then (s, Some(NoManifestWithManifest))
    else (s.(doNotCreateServices := true, processed := s.processed + {NoServiceManifest}), None)
  }

  /** The `--service-manifest` handler. Its bad-name message shows the stored file name, as the source does. */
  function ServiceManifestSpec(s: Args, i: nat, args: seq<string>): (Args, Option<ArgError>)
  {
    if i + 1 < |args| then
      if NoServiceManifest in s.processed then (s, Some(ManifestWithNoManifest))
      else if StartsWithDash(args[i + 1]) then (s, Some(ManifestNotAName(s.serviceManifestFilename)))
      else (s.(serviceManifestFilename := args[i + 1], processed := s.processed + {ServiceManifest}), None)
    else (s, Some(ManifestMissingName))
  }

  /** `property.handler(i, args, csp, &err)`. */
  function HandleSpec(s: Args, f: FlagName, i: nat, args: seq<string>, env: seq<string>): (Args, Option<ArgError>)
    requires EnvWellFormed(env)
  {
    match f
    case Var => VarSpec(s, i, args)
    case VarsFile => VarsFileSpec(s, i, args)
    case UseEnvVarsPrefixedWith => UseEnvSpec(s, i, args, env)
    case NoPush => NoPushSpec(s)
    case PushAsSubprocess => PushAsSubprocessSpec(s)
    case NoServiceManifest => NoServiceManifestSpec(s)
    case ServiceManifest => ServiceManifestSpec(s, i, args)
  }

  // ---------------------------------------------------------------------
  // The scan, the deferred handlers and the error slots.
  // ---------------------------------------------------------------------

  /** The role of a token: forwarded as it is, or a flag at its position. */
  datatype Item = Plain(token: string) | Flag(flag: FlagName, at: nat)

  /** Every flag item sits at a token that names that flag. */
  predicate WellPlaced(items: seq<Item>, args: seq<string>)
  {
    forall k :: 0 <= k < |items| && items[k].Flag? ==>
      items[k].at < |args| && Lookup(args[items[k].at]) == Some(items[k].flag)
  }

  /**
   * The roles of the tokens from position `i` on: a flag consumes its token and
   * skips `argumentCount` more, whatever those hold; every other token is plain.
   */
  function Layout(args: seq<string>, i: nat): (items: seq<Item>)
    ensures WellPlaced(items, args)
    ensures forall k :: 0 <= k < |items| && items[k].Flag? ==> i <= items[k].at
    decreases |args| - i
  {
    if i >= |args| then []
    else
      match Lookup(args[i])
      case None => [Plain(args[i])] + Layout(args, i + 1)
      case Some(f) => [Flag(f, i)] + Layout(args, i + 1 + ArgumentCount(f))
  }

  /**
   * The state of the scan: the record, the stack of deferred handlers (the top,
   * pushed last, at index 0), the error slots, and whether it stopped.
   */
  datatype Scan = Scan(st: Args, deferred: seq<(FlagName, nat)>, errs: seq<Option<ArgError>>, stopped: bool)

  function SetErr(errs: seq<Option<ArgError>>, p: nat, e: Option<ArgError>): seq<Option<ArgError>>
  {
    if p < |errs| then errs[p := e] else errs
  }

  /** One step of the scan loop. */
  function StepItem(sc: Scan, item: Item, args: seq<string>, env: seq<string>): Scan
    requires EnvWellFormed(env)
  {
    match item
    case Plain(t) => sc.(st := sc.st.(otherCFArgs := sc.st.otherCFArgs + [t]))
    case Flag(f, p) =>
      if ShouldDefer(f) then sc.(deferred := [(f, p)] + sc.deferred)
      else
        var r := HandleSpec(sc.st, f, p, args, env);
        Scan(r.0, sc.deferred, SetErr(sc.errs, p, r.1), r.1.Some?)
  }

  /** The scan loop over the remaining items; a handler error stops it. */
  function ScanFrom(sc: Scan, items: seq<Item>, args: seq<string>, env: seq<string>): Scan
    requires EnvWellFormed(env)
    decreases |items|
  {
    if items == [] || sc.stopped then sc
    else ScanFrom(StepItem(sc, items[0], args, env), items[1..], args, env)
  }
  /** The item the token at `i` starts. */
  function ItemAt(args: seq<string>, i: nat): Item
    requires i < |args|
  {
    match Lookup(args[i])
    case None => Plain(args[i])
    case Some(f) => Flag(f, i)
  }

  /** The position of the token after the item at `i` and its arguments. */
  function NextItemIndex(args: seq<string>, i: nat): nat
    requires i < |args|
  {
    match Lookup(args[i])
    case None => i + 1
    case Some(f) => i + 1 + ArgumentCount(f)
  }

  /** One step of the scan over a layout. */
  lemma ScanLayoutStep(sc: Scan, args: seq<string>, i: nat, env: seq<string>)
    requires EnvWellFormed(env) && i < |args| && !sc.stopped
    ensures ScanFrom(sc, Layout(args, i), args, env)
         == ScanFrom(StepItem(sc, ItemAt(args, i), args, env), Layout(args, NextItemIndex(args, i)), args, env)
  {
    var items := Layout(args, i);
    assert items[0] == ItemAt(args, i) && items[1..] == Layout(args, NextItemIndex(args, i));
  }

  /** The handler of a deferred flag: only `--var` and `--vars-file` are deferred. */
  function DeferredSpec(s: Args, f: FlagName, i: nat, args: seq<string>): (Args, Option<ArgError>)
  {
    if f == Var then VarSpec(s, i, args) else VarsFileSpec(s, i, args)
  }

  /** The deferred handlers run when Process returns, from the top of the stack down, each writing its own slot. */
  function RunDeferred(st: Args, errs: seq<Option<ArgError>>, stack: seq<(FlagName, nat)>,
                       args: seq<string>): (r: (Args, seq<Option<ArgError>>))
    ensures |r.1| == |errs|
    decreases |stack|
  {
    if stack == [] then (st, errs)
    else
      var r := DeferredSpec(st, stack[0].0, stack[0].1, args);
      RunDeferred(r.0, SetErr(errs, stack[0].1, r.1), stack[1..], args)
  }


  /** The first error in slot order, if any. */
  function FirstErr(errs: seq<Option<ArgError>>): (r: Option<ArgError>)
    ensures r.None? <==> forall i :: 0 <= i < |errs| ==> errs[i].None?
    ensures r.Some? ==> exists i :: 0 <= i < |errs| && errs[i] == r && forall j :: 0 <= j < i ==> errs[j].None?
    decreases |errs|
  {
    if errs == [] then None
    else if errs[0].Some? then errs[0]
    else
      var r := FirstErr(errs[1..]);
      assert forall i :: 1 <= i < |errs| ==> errs[i] == errs[1..][i - 1];
      r
  }

  function NoErrors(n: nat): (errs: seq<Option<ArgError>>)
  {
    seq(n, _ => None)
  }

  /** What `Process(args)` does to a record `s` and what it returns. */
  function ProcessSpec(s: Args, args: seq<string>, env: seq<string>): (Args, Option<ArgError>)
    requires |args| > 0
    requires EnvWellFormed(env)
  {
    if args[0] == UninstallSentinel then (s.(isUninstallingPlugin := true), None)
    else if args[0] != CommandName then (s, Some(NotCreateServicePush))
    else
      var rest := args[1..];
      if rest == [] then (s, None)
      else
        var sc := ScanFrom(Scan(s, [], NoErrors(|rest|), false), Layout(rest, 0), rest, env);
        var r := RunDeferred(sc.st, sc.errs, sc.deferred, rest);
        (r.0, FirstErr(r.1))
  }

  // ---------------------------------------------------------------------
  // The processor object.
  // ---------------------------------------------------------------------

  class CSPArguments {
    var isUninstallingPlugin: bool
    var serviceManifestFilename: string
    var doNotCreateServices: bool
    var doNotPush: bool
    var pushAsSubProcess: bool
    var staticVariablesFilePaths: seq<string>
    var staticVariables: map<string, string>
    var otherCFArgs: seq<string>
    /** The flags whose `processed` bit is set in the flag table. */
    var processed: set<FlagName>

    function State(): Args
      reads this
    {
      Args(isUninstallingPlugin, serviceManifestFilename, doNotCreateServices, doNotPush, pushAsSubProcess,
           staticVariablesFilePaths, staticVariables, otherCFArgs, processed)
    }

    /** NewCSPArguments. */
    constructor ()
      ensures State() == Initial()
    {
      isUninstallingPlugin := false;
      serviceManifestFilename := DefaultManifestFilename;
      doNotCreateServices := false;
      doNotPush := false;
      pushAsSubProcess := false;
      staticVariablesFilePaths := [];
      staticVariables := map[];
      otherCFArgs := [];
      processed := {};
    }

    method HandleVar(index: nat, args: seq<string>) returns (err: Option<ArgError>)
      modifies this
      ensures (State(), err) == VarSpec(old(State()), index, args)
    {
      if index + 1 < |args| {
        if '=' in args[index + 1] {
          var kv := SplitAtFirst(args[index + 1], '=');
          if kv.1 == " " || |kv.1| == 0 {
            if index + 2 < |args| {
              if !StartsWithDash(args[index + 2]) {
                return Some(VarHangingInput(args[index + 2]));
              }
            }
          }
          staticVariables := staticVariables[kv.0 := kv.1];
          if PushAsSubprocess in processed {
            otherCFArgs := otherCFArgs + [args[index], args[index + 1]];
          }
          processed := processed + {Var};
        } else {
          return Some(VarNotKeyValue(args[index + 1]));
        }
      } else {
        return Some(VarMissingPair);
      }
      err := None;
    }

    method HandleVarsFile(index: nat, args: seq<string>) returns (err: Option<ArgError>)
      modifies this
      ensures (State(), err) == VarsFileSpec(old(State()), index, args)
    {
      if index + 1 < |args| {
        if StartsWithDash(args[index + 1]) {
          return Some(VarsFileNotAName(args[index + 1]));
        }
        if PushAsSubprocess in processed {
          otherCFArgs := otherCFArgs + [args[index], args[index + 1]];
        }
        staticVariablesFilePaths := staticVariablesFilePaths + [args[index + 1]];
        processed := processed + {VarsFile};
      } else {
        return Some(VarsFileMissingName);
      }
      err := None;
    }

    method HandleUseEnv(index: nat, args: seq<string>, env: seq<string>) returns (err: Option<ArgError>)
      requires EnvWellFormed(env)
      modifies this
      ensures (State(), err) == UseEnvSpec(old(State()), index, args, env)
    {
      if index + 1 < |args| {
        var prefix := args[index + 1];
        var vars := staticVariables;
        var j := 0;
        while j < |env|
          invariant 0 <= j <= |env|
          invariant vars == EnvBindings(staticVariables, env[..j], prefix)
        {
          assert env[..j + 1][..j] == env[..j];
          if HasPrefix(env[j], prefix) {
            var kv := SplitAtFirst(env[j], '=');
            vars := vars[kv.0 := kv.1];
          }
          j := j + 1;
        }
        assert env[..|env|] == env;
        staticVariables := vars;
        processed := processed + {UseEnvVarsPrefixedWith};
      } else {
        return Some(EnvPrefixMissing);
      }
      err := None;
    }

    method HandleNoPush() returns (err: Option<ArgError>)
      modifies this
      ensures (State(), err) == NoPushSpec(old(State()))
    {
      if PushAsSubprocess in processed {
        return Some(NoPushWithSubprocess);
      }
      err := None;
      doNotPush := true;
      processed := processed + {NoPush};
    }

    method HandlePushAsSubprocess() returns (err: Option<ArgError>)
      modifies this
      ensures (State(), err) == PushAsSubprocessSpec(old(State()))
    {
      if NoPush in processed {
        return Some(SubprocessWithNoPush);
      }
      err := None;
      pushAsSubProcess := true;
      processed := processed + {PushAsSubprocess};
    }

    method HandleNoServiceManifest() returns (err: Option<ArgError>)
      modifies this
      ensures (State(), err) == NoServiceManifestSpec(old(State()))
    {
      if ServiceManifest in processed {
        return Some(NoManifestWithManifest);
      }
      err := None;
      doNotCreateServices := true;
      processed := processed + {NoServiceManifest};
    }

    method HandleServiceManifest(index: nat, args: seq<string>) returns (err: Option<ArgError>)
      modifies this
      ensures (State(), err) == ServiceManifestSpec(old(State()), index, args)
    {
      if index + 1 < |args| {
        if NoServiceManifest in processed {
          return Some(ManifestWithNoManifest);
        }
        if StartsWithDash(args[index + 1]) {
          return Some(ManifestNotAName(serviceManifestFilename));
        }
        serviceManifestFilename := args[index + 1];
        processed := processed + {ServiceManifest};
      } else {
        return Some(ManifestMissingName);
      }
      err := None;
    }

    /** Calls the handler of flag `f` for the token at `index`. */
    method Handle(f: FlagName, index: nat, args: seq<string>, env: seq<string>) returns (err: Option<ArgError>)
      requires EnvWellFormed(env)
      modifies this
      ensures (State(), err) == HandleSpec(old(State()), f, index, args, env)
    {
      match f
      case Var => err := HandleVar(index, args);
      case VarsFile => err := HandleVarsFile(index, args);
      case UseEnvVarsPrefixedWith => err := HandleUseEnv(index, args, env);
      case NoPush => err := HandleNoPush();
      case PushAsSubprocess => err := HandlePushAsSubprocess();
      case NoServiceManifest => err := HandleNoServiceManifest();
      case ServiceManifest => err := HandleServiceManifest(index, args);
    }

    /**
     * One pass of the scan loop's body for the token at `idx`: a deferred flag
     * is pushed on the stack, another flag runs its handler and fills its slot,
     * a plain token is forwarded; `next` is where the following item starts.
     */
    method ScanToken(rest: seq<string>, env: seq<string>, idx: nat,
                     deferred: seq<(FlagName, nat)>, errs: seq<Option<ArgError>>)
      returns (newDeferred: seq<(FlagName, nat)>, newErrs: seq<Option<ArgError>>, stopped: bool, next: nat)
      requires EnvWellFormed(env)
      requires idx < |rest| && |errs| == |rest|
      requires forall j :: 0 <= j < |deferred| ==> deferred[j].1 < |rest|
      modifies this
      ensures next == NextItemIndex(rest, idx)
      ensures |newErrs| == |rest|
      ensures forall j :: 0 <= j < |newDeferred| ==> newDeferred[j].1 < |rest|
      ensures Scan(State(), newDeferred, newErrs, stopped)
           == StepItem(Scan(old(State()), deferred, errs, false), ItemAt(rest, idx), rest, env)
    {
      newDeferred, newErrs, stopped := deferred, errs, false;
      var arg := rest[idx];
      var flag := Lookup(arg);
      if flag.Some? {
        var f := flag.value;
        if ShouldDefer(f) {
          newDeferred := [(f, idx)] + deferred;
        } else {
          var e := Handle(f, idx, rest, env);
          newErrs := errs[idx := e];
          stopped := e.Some?;
        }
        next := idx + 1 + ArgumentCount(f);
      } else {
        otherCFArgs := otherCFArgs + [arg];
        next := idx + 1;
      }
    }

    /**
     * The scan loop of the closure in Process: plain tokens are forwarded,
     * deferred flags are pushed on the stack, other flags run their handler and
     * a handler error ends the scan.
     */
    method ScanTokens(rest: seq<string>, env: seq<string>, errs: seq<Option<ArgError>>)
      returns (errArray: seq<Option<ArgError>>, deferred: seq<(FlagName, nat)>)
      requires EnvWellFormed(env)
      requires |errs| == |rest|
      modifies this
      ensures |errArray| == |rest|
      ensures forall j :: 0 <= j < |deferred| ==> deferred[j].1 < |rest|
      ensures var sc := ScanFrom(Scan(old(State()), [], errs, false), Layout(rest, 0), rest, env);
        State() == sc.st && errArray == sc.errs && deferred == sc.deferred
    {
      errArray := errs;
      deferred := [];
      var stopped := false;
      var idx := 0;
      ghost var scanned := ScanFrom(Scan(State(), [], errArray, false), Layout(rest, 0), rest, env);
      while idx < |rest| && !stopped
        invariant |errArray| == |rest|
        invariant forall j :: 0 <= j < |deferred| ==> deferred[j].1 < |rest|
        invariant ScanFrom(Scan(State(), deferred, errArray, stopped), Layout(rest, idx), rest, env) == scanned
        decreases |rest| - idx
      {
        ScanLayoutStep(Scan(State(), deferred, errArray, stopped), rest, idx, env);
        deferred, errArray, stopped, idx := ScanToken(rest, env, idx, deferred, errArray);
      }
    }

    /** The deferred handlers, run when the closure returns: from the top of the stack (the last deferred) down. */
    method RunDeferredHandlers(rest: seq<string>, errs: seq<Option<ArgError>>,
                               deferred: seq<(FlagName, nat)>)
      returns (errArray: seq<Option<ArgError>>)
      requires |errs| == |rest|
      requires forall j :: 0 <= j < |deferred| ==> deferred[j].1 < |rest|
      modifies this
      ensures (State(), errArray) == RunDeferred(old(State()), errs, deferred, rest)
    {
      errArray := errs;
      var k := 0;
      while k < |deferred|
        invariant 0 <= k <= |deferred|
        invariant |errArray| == |rest|
        invariant RunDeferred(State(), errArray, deferred[k..], rest) == RunDeferred(old(State()), errs, deferred, rest)
      {
        assert deferred[k..][1..] == deferred[k + 1..];
        var top := deferred[k];
        var e;
        if top.0 == Var {
          e := HandleVar(top.1, rest);
        } else {
          e := HandleVarsFile(top.1, rest);
        }
        errArray := errArray[top.1 := e];
        k := k + 1;
      }
    }

    /**
     * Process: the uninstall sentinel and the command-name check, then the scan
     * with its deferred handlers, then the first error by token position.
     * `env` stands for os.Environ().
     */
    method Process(args: seq<string>, env: seq<string>) returns (err: Option<ArgError>)
      requires |args| > 0
      requires EnvWellFormed(env)
      modifies this
      ensures (State(), err) == ProcessSpec(old(State()), args, env)
      ensures args[0] == UninstallSentinel ==>
        err == None && State() == old(State()).(isUninstallingPlugin := true)
      ensures args[0] != UninstallSentinel && args[0] != CommandName ==>
        err == Some(NotCreateServicePush) && State() == old(State())
    {
      if args[0] == UninstallSentinel {
        isUninstallingPlugin := true;
        return None;
      }
      if args[0] != CommandName {
        return Some(NotCreateServicePush);
      }
      var rest := args[1..];
      if |rest| == 0 {
        return None;
      }

      var errArray := NoErrors(|rest|);
      var deferred;
      errArray, deferred := ScanTokens(rest, env, errArray);
      errArray := RunDeferredHandlers(rest, errArray, deferred);
      err := FirstError(errArray);
    }
  }

  /** The loop over `errArray` that returns the first error. */
  method FirstError(errs: seq<Option<ArgError>>) returns (r: Option<ArgError>)
    ensures r == FirstErr(errs)
  {
    var i := 0;
    while i < |errs|
      invariant 0 <= i <= |errs|
      invariant FirstErr(errs) == FirstErr(errs[i..])
    {
      assert errs[i..][1..] == errs[i + 1..];
      if errs[i].Some? {
        return errs[i];
      }
      i := i + 1;
    }
    r := None;
  }

  // ---------------------------------------------------------------------
  // What the items of a layout contribute, as independent definitions.
  // ---------------------------------------------------------------------

  /** The plain tokens, in order: what is forwarded to `cf push` as it is. */
  function PlainTokens(items: seq<Item>): seq<string>
    decreases |items|
  {
    if items == [] then []
    else (if items[0].Plain? then [items[0].token] else []) + PlainTokens(items[1..])
  }

  /** The stack of deferred flags the items push: the last one on the command line on top, at index 0. */
  function DeferredStack(items: seq<Item>): seq<(FlagName, nat)>
    decreases |items|
  {
    if items == [] then []
    else DeferredStack(items[1..]) + (if items[0].Flag? && ShouldDefer(items[0].flag) then [(items[0].flag, items[0].at)] else [])
  }

  /** The flags that occur as flags (not as some flag's argument). */
  function FlagsOf(items: seq<Item>): set<FlagName>
    decreases |items|
  {
    if items == [] then {}
    else (if items[0].Flag? then {items[0].flag} else {}) + FlagsOf(items[1..])
  }

  /** The file name the last `--service-manifest` names, or `current` when there is none. */
  function ManifestName(items: seq<Item>, args: seq<string>, current: string): string
    decreases |items|
  {
    if items == [] then current
    else
      var next := if items[0].Flag? && items[0].flag == ServiceManifest && items[0].at + 1 < |args|
                  then args[items[0].at + 1] else current;
      ManifestName(items[1..], args, next)
  }

  /** Every `--service-manifest` among the items has an argument that does not start with "-". */
  predicate ManifestArgumentsValid(items: seq<Item>, args: seq<string>)
    decreases |items|
  {
    items == [] ||
    ((items[0].Flag? && items[0].flag == ServiceManifest ==>
        items[0].at + 1 < |args| && !StartsWithDash(args[items[0].at + 1]))
     && ManifestArgumentsValid(items[1..], args))
  }

  /** A deferred entry with its argument, when it is valid: what `--push-as-subprocess` forwards for it. */
  function ValidPair(e: (FlagName, nat), args: seq<string>): seq<string>
  {
    if DeferredCheck(e.0, e.1, args).None? && e.1 + 1 < |args| then [args[e.1], args[e.1 + 1]] else []
  }

  /** The path a deferred entry records: the argument of a valid `--vars-file`. */
  function ValidPath(e: (FlagName, nat), args: seq<string>): seq<string>
  {
    if e.0 == VarsFile && VarsFileCheck(e.1, args).None? && e.1 + 1 < |args| then [args[e.1 + 1]] else []
  }

  /** The valid deferred flags of a stack, each followed by its argument, from the top down. */
  function ForwardedPairs(stack: seq<(FlagName, nat)>, args: seq<string>): seq<string>
    decreases |stack|
  {
    if stack == [] then [] else ValidPair(stack[0], args) + ForwardedPairs(stack[1..], args)
  }

  /** The arguments of the valid `--vars-file` entries of a stack, from the top down. */
  function VarsFilePaths(stack: seq<(FlagName, nat)>, args: seq<string>): seq<string>
    decreases |stack|
  {
    if stack == [] then [] else ValidPath(stack[0], args) + VarsFilePaths(stack[1..], args)
  }

  /** The validation a deferred handler performs; it does not depend on the record. */
  function DeferredCheck(f: FlagName, p: nat, args: seq<string>): Option<ArgError>
  {
    if f == Var then VarCheck(p, args) else VarsFileCheck(p, args)
  }

  predicate AllNone(errs: seq<Option<ArgError>>)
  {
    forall i :: 0 <= i < |errs| ==> errs[i].None?
  }

  /** Position `q` holds a flag whose handler is deferred. */
  predicate DeferredAt(args: seq<string>, q: nat)
  {
    q < |args| && Lookup(args[q]).Some? && ShouldDefer(Lookup(args[q]).value)
  }

  predicate DeferredWellPlaced(stack: seq<(FlagName, nat)>, args: seq<string>)
  {
    forall j :: 0 <= j < |stack| ==>
      ShouldDefer(stack[j].0) && stack[j].1 < |args| && Lookup(args[stack[j].1]) == Some(stack[j].0)
  }

  /** The two pairs of flags that exclude each other are not both set. */
  predicate Exclusive(p: set<FlagName>)
  {
    !(NoPush in p && PushAsSubprocess in p) && !(ServiceManifest in p && NoServiceManifest in p)
  }

  /** The `--var` at position `p` is valid and binds `k` to `v`. */
  predicate VarBinds(args: seq<string>, p: nat, k: string, v: string)
  {
    VarCheck(p, args).None? && p + 1 < |args| && '=' in args[p + 1] && SplitAtFirst(args[p + 1], '=') == (k, v)
  }

  /** The `--var` at position `p` is valid and binds the key `k`. */
  predicate VarKeyIs(args: seq<string>, p: nat, k: string)
  {
    VarCheck(p, args).None? && p + 1 < |args| && '=' in args[p + 1] && SplitAtFirst(args[p + 1], '=').0 == k
  }

  /** The deferred entry `e` is a valid `--var` binding the key `k`. */
  predicate BindsKey(e: (FlagName, nat), args: seq<string>, k: string)
  {
    e.0 == Var && VarKeyIs(args, e.1, k)
  }

  predicate AllDeferred(stack: seq<(FlagName, nat)>)
  {
    forall j :: 0 <= j < |stack| ==> ShouldDefer(stack[j].0)
  }

  function EnvKey(entry: string): string
    requires '=' in entry
  {
    SplitAtFirst(entry, '=').0
  }

  // ---------------------------------------------------------------------
  // Lemmas: the environment bindings.
  // ---------------------------------------------------------------------

  /** Of several environment entries with the same key and the prefix, the last one wins. */
  lemma {:induction false} EnvLastMatchWins(vars: map<string, string>, env: seq<string>, prefix: string, j: nat)
    requires EnvWellFormed(env)
    requires j < |env| && HasPrefix(env[j], prefix)
    requires forall l :: j < l < |env| && HasPrefix(env[l], prefix) ==> EnvKey(env[l]) != EnvKey(env[j])
    ensures EnvKey(env[j]) in EnvBindings(vars, env, prefix)
    ensures EnvBindings(vars, env, prefix)[EnvKey(env[j])] == SplitAtFirst(env[j], '=').1
    decreases |env|
  {
    var init := env[..|env| - 1];
    if j < |env| - 1 {
      assert forall l :: j < l < |init| ==> init[l] == env[l];
      EnvLastMatchWins(vars, init, prefix, j);
    }
  }

  /** A key that no matching environment entry names keeps its binding. */
  lemma {:induction false} EnvUnmatchedKeyKept(vars: map<string, string>, env: seq<string>, prefix: string, k: string)
    requires EnvWellFormed(env)
    requires forall l :: 0 <= l < |env| && HasPrefix(env[l], prefix) ==> EnvKey(env[l]) != k
    ensures (k in EnvBindings(vars, env, prefix)) == (k in vars)
    ensures k in vars ==> EnvBindings(vars, env, prefix)[k] == vars[k]
    decreases |env|
  {
    if env != [] {
      var init := env[..|env| - 1];
      assert forall l :: 0 <= l < |init| ==> init[l] == env[l];
      EnvUnmatchedKeyKept(vars, init, prefix, k);
    }
  }

  // ---------------------------------------------------------------------
  // Lemmas: one handler.
  // ---------------------------------------------------------------------

  /** An immediate handler that succeeds sets its own bit and forwards nothing. */
  lemma ImmediateStepSucceeded(s: Args, f: FlagName, p: nat, args: seq<string>, env: seq<string>)
    requires EnvWellFormed(env) && !ShouldDefer(f)
    requires HandleSpec(s, f, p, args, env).1.None?
    ensures f == ServiceManifest ==> p + 1 < |args| && !StartsWithDash(args[p + 1])
    ensures var r := HandleSpec(s, f, p, args, env).0;
      && r.otherCFArgs == s.otherCFArgs
      && r.staticVariablesFilePaths == s.staticVariablesFilePaths
      && r.processed == s.processed + {f}
      && r.serviceManifestFilename == (if f == ServiceManifest then args[p + 1] else s.serviceManifestFilename)
      && (Exclusive(s.processed) ==> Exclusive(r.processed))
  {
  }

  /**
   * One deferred handler: its result is its validation, it forwards its pair
   * only under `--push-as-subprocess`, records a vars-file path, binds a key
   * when it is a valid `--var`, and changes no other setting.
   */
  lemma DeferredStep(s: Args, e: (FlagName, nat), args: seq<string>, k: string)
    requires ShouldDefer(e.0)
    ensures var r := DeferredSpec(s, e.0, e.1, args);
      && r.1 == DeferredCheck(e.0, e.1, args)
      && r.0.otherCFArgs == s.otherCFArgs + (if PushAsSubprocess in s.processed then ValidPair(e, args) else [])
      && r.0.staticVariablesFilePaths == s.staticVariablesFilePaths + ValidPath(e, args)
      && r.0.serviceManifestFilename == s.serviceManifestFilename
      && r.0.processed - {Var, VarsFile} == s.processed - {Var, VarsFile}
      && (PushAsSubprocess in r.0.processed <==> PushAsSubprocess in s.processed)
    ensures var m := DeferredSpec(s, e.0, e.1, args).0.staticVariables;
      BindsKey(e, args, k) ==> k in m && m[k] == SplitAtFirst(args[e.1 + 1], '=').1
    ensures var m := DeferredSpec(s, e.0, e.1, args).0.staticVariables;
      !BindsKey(e, args, k) ==>
        (k in m) == (k in s.staticVariables) && (k in s.staticVariables ==> m[k] == s.staticVariables[k])
  {
  }

  // ---------------------------------------------------------------------
  // Lemmas: the scan.
  // ---------------------------------------------------------------------

  /** What the scan keeps in any case: the stack's shape, the slots, and an error behind every stop. */
  lemma {:induction false} ScanKeepsShape(sc: Scan, items: seq<Item>, args: seq<string>, env: seq<string>)
    requires EnvWellFormed(env)
    requires WellPlaced(items, args)
    requires |sc.errs| == |args|
    requires DeferredWellPlaced(sc.deferred, args)
    requires !sc.stopped
    ensures var r := ScanFrom(sc, items, args, env);
      && |r.errs| == |args|
      && DeferredWellPlaced(r.deferred, args)
      && (r.stopped ==> exists q :: 0 <= q < |args| && r.errs[q].Some? && !DeferredAt(args, q))
    decreases |items|
  {
    if items != [] {
      var next := StepItem(sc, items[0], args, env);
      WellPlacedTail(items, args);
      if next.stopped {
        var p := items[0].at;
        assert next.errs[p].Some?;
      } else {
        ScanKeepsShape(next, items[1..], args, env);
      }
    }
  }

  lemma WellPlacedTail(items: seq<Item>, args: seq<string>)
    requires items != [] && WellPlaced(items, args)
    ensures WellPlaced(items[1..], args)
  {
    forall k | 0 <= k < |items[1..]| && items[1..][k].Flag?
      ensures items[1..][k].at < |args| && Lookup(args[items[1..][k].at]) == Some(items[1..][k].flag)
    {
      assert items[1..][k] == items[k + 1];
    }
  }

  /**
   * The first item of a scan that goes on, stated through the scan it leaves
   * (named, so that the inductions below need not look into the handlers again).
   */
  lemma ScanHead(sc: Scan, items: seq<Item>, args: seq<string>, env: seq<string>) returns (next: Scan)
    requires EnvWellFormed(env) && items != [] && !sc.stopped
    requires WellPlaced(items, args) && |sc.errs| == |args|
    ensures ScanFrom(sc, items, args, env) == ScanFrom(next, items[1..], args, env)
    ensures |next.errs| == |args|
    ensures !next.stopped ==>
      var it := items[0];
      && next.st.otherCFArgs == sc.st.otherCFArgs + (if it.Plain? then [it.token] else [])
      && next.deferred == (if it.Flag? && ShouldDefer(it.flag) then [(it.flag, it.at)] else []) + sc.deferred
      && next.st.staticVariablesFilePaths == sc.st.staticVariablesFilePaths
      && next.st.processed == sc.st.processed + ((if it.Flag? then {it.flag} else {}) - {Var, VarsFile})
      && (it.Flag? && it.flag == ServiceManifest ==> it.at + 1 < |args| && !StartsWithDash(args[it.at + 1]))
      && next.st.serviceManifestFilename ==
           (if it.Flag? && it.flag == ServiceManifest && it.at + 1 < |args| then args[it.at + 1]
            else sc.st.serviceManifestFilename)
      && (Exclusive(sc.st.processed) ==> Exclusive(next.st.processed))
      && (AllNone(sc.errs) ==> AllNone(next.errs))
  {
    next := StepItem(sc, items[0], args, env);
    if items[0].Flag? && !ShouldDefer(items[0].flag) && !next.stopped {
      ImmediateStepSucceeded(sc.st, items[0].flag, items[0].at, args, env);
    }
  }

  /** A scan that runs to the end forwards the plain tokens in order and stacks the deferred flags in order. */
  lemma {:induction false} ScanCompleted(sc: Scan, items: seq<Item>, args: seq<string>, env: seq<string>)
    requires EnvWellFormed(env)
    requires WellPlaced(items, args)
    requires |sc.errs| == |args|
    requires !sc.stopped
    requires !ScanFrom(sc, items, args, env).stopped
    ensures var r := ScanFrom(sc, items, args, env);
      && r.st.otherCFArgs == sc.st.otherCFArgs + PlainTokens(items)
      && r.deferred == DeferredStack(items) + sc.deferred
      && r.st.staticVariablesFilePaths == sc.st.staticVariablesFilePaths
      && (AllNone(sc.errs) ==> AllNone(r.errs))
    decreases |items|
  {
    if items != [] {
      WellPlacedTail(items, args);
      var next := ScanHead(sc, items, args, env);
      ScanCompleted(next, items[1..], args, env);
      var it := items[0];
      AppendAssoc(sc.st.otherCFArgs, if it.Plain? then [it.token] else [], PlainTokens(items[1..]));
      AppendAssoc(DeferredStack(items[1..]), if it.Flag? && ShouldDefer(it.flag) then [(it.flag, it.at)] else [], sc.deferred);
    }
  }

  /** A scan that runs to the end sets the bits of the immediate flags and keeps the exclusive pairs apart. */
  lemma {:induction false} ScanCompletedFlags(sc: Scan, items: seq<Item>, args: seq<string>, env: seq<string>)
    requires EnvWellFormed(env)
    requires WellPlaced(items, args)
    requires |sc.errs| == |args|
    requires !sc.stopped
    requires !ScanFrom(sc, items, args, env).stopped
    ensures var r := ScanFrom(sc, items, args, env);
      && r.st.processed == sc.st.processed + (FlagsOf(items) - {Var, VarsFile})
      && (Exclusive(sc.st.processed) ==> Exclusive(r.st.processed))
    decreases |items|
  {
    if items != [] {
      WellPlacedTail(items, args);
      var next := ScanHead(sc, items, args, env);
      ScanCompletedFlags(next, items[1..], args, env);
    }
  }

  /**
   * A scan that runs to the end leaves as manifest name the argument of the
   * last `--service-manifest`, each of which has an argument that is not a flag.
   */
  lemma {:induction false} ScanCompletedManifest(sc: Scan, items: seq<Item>, args: seq<string>, env: seq<string>)
    requires EnvWellFormed(env)
    requires WellPlaced(items, args)
    requires |sc.errs| == |args|
    requires !sc.stopped
    requires !ScanFrom(sc, items, args, env).stopped
    ensures var r := ScanFrom(sc, items, args, env);
      && r.st.serviceManifestFilename == ManifestName(items, args, sc.st.serviceManifestFilename)
      && ManifestArgumentsValid(items, args)
    decreases |items|
  {
    if items != [] {
      WellPlacedTail(items, args);
      var next := ScanHead(sc, items, args, env);
      ScanCompletedManifest(next, items[1..], args, env);
    }
  }

  // ---------------------------------------------------------------------
  // Lemmas: the deferred handlers.
  // ---------------------------------------------------------------------

  /** The deferred handlers write only their own slots. */
  lemma {:induction false} RunDeferredFrame(st: Args, errs: seq<Option<ArgError>>, stack: seq<(FlagName, nat)>,
                                            args: seq<string>, q: nat)
    requires q < |errs|
    requires forall j :: 0 <= j < |stack| ==> stack[j].1 != q
    ensures RunDeferred(st, errs, stack, args).1[q] == errs[q]
    decreases |stack|
  {
    if stack != [] {
      var r := DeferredSpec(st, stack[0].0, stack[0].1, args);
      RunDeferredFrame(r.0, SetErr(errs, stack[0].1, r.1), stack[1..], args, q);
    }
  }

  /**
   * The handler on top of the stack, which runs first, stated through the
   * state and the slots it leaves (named, so that the inductions below need
   * not look into the handlers again).
   */
  lemma DeferredTop(st: Args, errs: seq<Option<ArgError>>, stack: seq<(FlagName, nat)>,
                    args: seq<string>, k: string)
    returns (st1: Args, errs1: seq<Option<ArgError>>)
    requires stack != [] && ShouldDefer(stack[0].0)
    ensures RunDeferred(st, errs, stack, args) == RunDeferred(st1, errs1, stack[1..], args)
    ensures var e := stack[0];
      && errs1 == SetErr(errs, e.1, DeferredCheck(e.0, e.1, args))
      && st1.otherCFArgs == st.otherCFArgs + (if PushAsSubprocess in st.processed then ValidPair(e, args) else [])
      && st1.staticVariablesFilePaths == st.staticVariablesFilePaths + ValidPath(e, args)
      && st1.serviceManifestFilename == st.serviceManifestFilename
      && st1.processed - {Var, VarsFile} == st.processed - {Var, VarsFile}
      && (PushAsSubprocess in st1.processed <==> PushAsSubprocess in st.processed)
    ensures BindsKey(stack[0], args, k) ==>
      k in st1.staticVariables && st1.staticVariables[k] == SplitAtFirst(args[stack[0].1 + 1], '=').1
    ensures !BindsKey(stack[0], args, k) ==>
      (k in st1.staticVariables) == (k in st.staticVariables) &&
      (k in st.staticVariables ==> st1.staticVariables[k] == st.staticVariables[k])
  {
    var e := stack[0];
    var r := DeferredSpec(st, e.0, e.1, args);
    st1, errs1 := r.0, SetErr(errs, e.1, r.1);
    DeferredStep(st, e, args, k);
  }

  /** After the deferred handlers, each deferred flag's slot holds its own validation result. */
  lemma {:induction false} RunDeferredSlots(st: Args, errs: seq<Option<ArgError>>, stack: seq<(FlagName, nat)>,
                                            args: seq<string>)
    requires |errs| == |args|
    requires DeferredWellPlaced(stack, args)
    ensures forall j :: 0 <= j < |stack| ==>
      RunDeferred(st, errs, stack, args).1[stack[j].1] == DeferredCheck(stack[j].0, stack[j].1, args)
    decreases |stack|
  {
    if stack != [] {
      var top := stack[0];
      var tail := stack[1..];
      var st1, errs1 := DeferredTop(st, errs, stack, args, "");
      assert DeferredWellPlaced(tail, args);
      RunDeferredSlots(st1, errs1, tail, args);
      if forall j :: 0 <= j < |tail| ==> tail[j].1 != top.1 {
        RunDeferredFrame(st1, errs1, tail, args, top.1);
      } else {
        var j :| 0 <= j < |tail| && tail[j].1 == top.1;
        assert tail[j].0 == top.0;
      }
      forall j | 1 <= j < |stack| ensures stack[j] == tail[j - 1] { }
    }
  }

  /** The deferred handlers forward the valid flags' pairs from the top of the stack down, only under `--push-as-subprocess`. */
  lemma {:induction false} RunDeferredForwards(st: Args, errs: seq<Option<ArgError>>, stack: seq<(FlagName, nat)>,
                                               args: seq<string>)
    requires AllDeferred(stack)
    ensures RunDeferred(st, errs, stack, args).0.otherCFArgs == st.otherCFArgs +
      (if PushAsSubprocess in st.processed then ForwardedPairs(stack, args) else [])
    decreases |stack|
  {
    if stack != [] {
      var st1, errs1 := DeferredTop(st, errs, stack, args, "");
      RunDeferredForwards(st1, errs1, stack[1..], args);
      AppendAssoc(st.otherCFArgs, ValidPair(stack[0], args), ForwardedPairs(stack[1..], args));
    }
  }

  /** The deferred handlers record the valid vars-file paths from the top of the stack down. */
  lemma {:induction false} RunDeferredPaths(st: Args, errs: seq<Option<ArgError>>, stack: seq<(FlagName, nat)>,
                                            args: seq<string>)
    requires AllDeferred(stack)
    ensures RunDeferred(st, errs, stack, args).0.staticVariablesFilePaths
         == st.staticVariablesFilePaths + VarsFilePaths(stack, args)
    decreases |stack|
  {
    if stack != [] {
      var st1, errs1 := DeferredTop(st, errs, stack, args, "");
      RunDeferredPaths(st1, errs1, stack[1..], args);
      AppendAssoc(st.staticVariablesFilePaths, ValidPath(stack[0], args), VarsFilePaths(stack[1..], args));
    }
  }

  /** The deferred handlers, valid or not, leave the manifest name and the other flags' bits alone. */
  lemma {:induction false} RunDeferredKeepsSettings(st: Args, errs: seq<Option<ArgError>>, stack: seq<(FlagName, nat)>,
                                                    args: seq<string>)
    requires AllDeferred(stack)
    ensures RunDeferred(st, errs, stack, args).0.serviceManifestFilename == st.serviceManifestFilename
    ensures RunDeferred(st, errs, stack, args).0.processed - {Var, VarsFile} == st.processed - {Var, VarsFile}
    decreases |stack|
  {
    if stack != [] {
      var st1, errs1 := DeferredTop(st, errs, stack, args, "");
      RunDeferredKeepsSettings(st1, errs1, stack[1..], args);
    }
  }

  /** Deferred handlers none of which binds `k` leave `k`'s binding alone. */
  lemma {:induction false} RunDeferredKeepsKey(st: Args, errs: seq<Option<ArgError>>, stack: seq<(FlagName, nat)>,
                                               args: seq<string>, k: string)
    requires AllDeferred(stack)
    requires forall i :: 0 <= i < |stack| ==> !BindsKey(stack[i], args, k)
    ensures var r := RunDeferred(st, errs, stack, args).0;
      (k in r.staticVariables) == (k in st.staticVariables) &&
      (k in st.staticVariables ==> r.staticVariables[k] == st.staticVariables[k])
    decreases |stack|
  {
    if stack != [] {
      var st1, errs1 := DeferredTop(st, errs, stack, args, k);
      RunDeferredKeepsKey(st1, errs1, stack[1..], args, k);
    }
  }

  /**
   * Of several valid `--var` flags binding one key, the one deepest in the
   * stack (the first on the command line) runs last and wins.
   */
  lemma {:induction false} RunDeferredFirstVarWins(st: Args, errs: seq<Option<ArgError>>, stack: seq<(FlagName, nat)>,
                                                   args: seq<string>, j: nat, k: string, v: string)
    requires AllDeferred(stack)
    requires j < |stack| && stack[j].0 == Var && VarBinds(args, stack[j].1, k, v)
    requires forall i :: j < i < |stack| ==> !BindsKey(stack[i], args, k)
    ensures k in RunDeferred(st, errs, stack, args).0.staticVariables
    ensures RunDeferred(st, errs, stack, args).0.staticVariables[k] == v
    decreases |stack|
  {
    var st1, errs1 := DeferredTop(st, errs, stack, args, k);
    if j == 0 {
      RunDeferredKeepsKey(st1, errs1, stack[1..], args, k);
    } else {
      RunDeferredFirstVarWins(st1, errs1, stack[1..], args, j - 1, k, v);
    }
  }

  // ---------------------------------------------------------------------
  // Lemmas: whole invocations.
  // ---------------------------------------------------------------------

  lemma {:induction false} DeferredStackWellPlaced(items: seq<Item>, args: seq<string>)
    requires WellPlaced(items, args)
    ensures DeferredWellPlaced(DeferredStack(items), args)
    decreases |items|
  {
    if items != [] {
      WellPlacedTail(items, args);
      DeferredStackWellPlaced(items[1..], args);
    }
  }


  /**
   * A successful Process ran the scan to the end (no handler failed) and every
   * deferred flag was valid.
   */
  lemma {:induction false} SuccessMeansNoFailedHandler(s: Args, args: seq<string>, env: seq<string>)
    requires |args| > 1 && EnvWellFormed(env) && args[0] == CommandName
    requires ProcessSpec(s, args, env).1 == None
    ensures var rest := args[1..];
      var sc := ScanFrom(Scan(s, [], NoErrors(|rest|), false), Layout(rest, 0), rest, env);
      && !sc.stopped
      && sc.deferred == DeferredStack(Layout(rest, 0))
      && forall j :: 0 <= j < |sc.deferred| ==> DeferredCheck(sc.deferred[j].0, sc.deferred[j].1, rest).None?
  {
    var rest := args[1..];
    var items := Layout(rest, 0);
    var sc0 := Scan(s, [], NoErrors(|rest|), false);
    var sc := ScanFrom(sc0, items, rest, env);
    ScanKeepsShape(sc0, items, rest, env);
    var fin := RunDeferred(sc.st, sc.errs, sc.deferred, rest);
    assert AllNone(fin.1);
    if sc.stopped {
      var q :| 0 <= q < |rest| && sc.errs[q].Some? && !DeferredAt(rest, q);
      RunDeferredFrame(sc.st, sc.errs, sc.deferred, rest, q);
      assert false;
    }
    ScanCompleted(sc0, items, rest, env);
    RunDeferredSlots(sc.st, sc.errs, sc.deferred, rest);
    assert forall j :: 0 <= j < |sc.deferred| ==> fin.1[sc.deferred[j].1].None?;
  }

  /** Some deferred handler on the stack writes slot `q`. */
  predicate Stacked(stack: seq<(FlagName, nat)>, q: nat)
  {
    exists j :: 0 <= j < |stack| && stack[j].1 == q
  }

  /** The slots after the deferred handlers: a stacked position holds its validation, any other keeps the scan's slot. */
  lemma RunDeferredResult(st: Args, errs: seq<Option<ArgError>>, stack: seq<(FlagName, nat)>, args: seq<string>)
    requires |errs| == |args|
    requires DeferredWellPlaced(stack, args)
    ensures forall j :: 0 <= j < |stack| ==>
      RunDeferred(st, errs, stack, args).1[stack[j].1] == DeferredCheck(stack[j].0, stack[j].1, args)
    ensures forall q :: 0 <= q < |args| && !Stacked(stack, q) ==> RunDeferred(st, errs, stack, args).1[q] == errs[q]
  {
    RunDeferredSlots(st, errs, stack, args);
    forall q | 0 <= q < |args| && !Stacked(stack, q)
      ensures RunDeferred(st, errs, stack, args).1[q] == errs[q]
    {
      RunDeferredFrame(st, errs, stack, args, q);
    }
  }

  /**
   * A scan over the layout from `i` that stops has exactly one error, at the
   * immediate flag that stopped it, and every flag it stacked lies before that
   * flag.
   */
  lemma {:induction false} ScanStopsOnce(sc: Scan, args: seq<string>, i: nat, env: seq<string>)
    requires EnvWellFormed(env)
    requires |sc.errs| == |args| && AllNone(sc.errs) && !sc.stopped
    requires forall j :: 0 <= j < |sc.deferred| ==> sc.deferred[j].1 < i
    ensures var r := ScanFrom(sc, Layout(args, i), args, env);
      r.stopped ==> exists p :: (0 <= p < |r.errs| && r.errs[p].Some? && !DeferredAt(args, p)
        && (forall q :: 0 <= q < |r.errs| && q != p ==> r.errs[q].None?)
        && (forall j :: 0 <= j < |r.deferred| ==> r.deferred[j].1 < p))
    decreases |args| - i
  {
    if i < |args| {
      ScanLayoutStep(sc, args, i, env);
      var next := StepItem(sc, ItemAt(args, i), args, env);
      var after := Layout(args, NextItemIndex(args, i));
      if next.stopped {
        assert ScanFrom(next, after, args, env) == next;
        assert next.errs == sc.errs[i := next.errs[i]];
      } else {
        assert AllNone(next.errs);
        ScanStopsOnce(next, args, NextItemIndex(args, i), env);
      }
    }
  }

  /**
   * The converse of SuccessMeansNoFailedHandler: when the scan runs to the end
   * and every deferred flag is valid, Process returns no error.
   */
  lemma {:induction false} NoFailedHandlerMeansSuccess(s: Args, args: seq<string>, env: seq<string>)
    requires |args| > 1 && EnvWellFormed(env) && args[0] == CommandName
    requires var rest := args[1..];
      var sc := ScanFrom(Scan(s, [], NoErrors(|rest|), false), Layout(rest, 0), rest, env);
      && !sc.stopped
      && forall j :: 0 <= j < |sc.deferred| ==> DeferredCheck(sc.deferred[j].0, sc.deferred[j].1, rest).None?
    ensures ProcessSpec(s, args, env).1 == None
  {
    var rest := args[1..];
    var items := Layout(rest, 0);
    var sc0 := Scan(s, [], NoErrors(|rest|), false);
    var sc := ScanFrom(sc0, items, rest, env);
    ScanKeepsShape(sc0, items, rest, env);
    assert AllNone(sc0.errs);
    ScanCompleted(sc0, items, rest, env);
    RunDeferredResult(sc.st, sc.errs, sc.deferred, rest);
    var fin := RunDeferred(sc.st, sc.errs, sc.deferred, rest).1;
    forall q | 0 <= q < |fin| ensures fin[q].None? {
      if Stacked(sc.deferred, q) {
        var j :| 0 <= j < |sc.deferred| && sc.deferred[j].1 == q;
      }
    }
  }

  /** The first error is the one at `p` when every earlier slot is empty. */
  lemma FirstErrAt(errs: seq<Option<ArgError>>, p: nat)
    requires p < |errs| && errs[p].Some?
    requires forall k :: 0 <= k < p ==> errs[k].None?
    ensures FirstErr(errs) == errs[p]
  {
    assert FirstErr(errs).Some?;
    var i :| 0 <= i < |errs| && errs[i] == FirstErr(errs) && forall k :: 0 <= k < i ==> errs[k].None?;
    assert !(i < p) && !(p < i);
  }

  /**
   * A Process whose scan stops with an error at position `p`: that is the
   * scan's only error, every stacked flag lies before `p`, and when no stacked
   * flag is invalid, Process returns the error at `p`.
   */
  lemma {:induction false} StoppedScanFails(s: Args, args: seq<string>, env: seq<string>, p: nat)
    requires |args| > 1 && EnvWellFormed(env) && args[0] == CommandName
    requires var rest := args[1..];
      var sc := ScanFrom(Scan(s, [], NoErrors(|rest|), false), Layout(rest, 0), rest, env);
      sc.stopped && p < |sc.errs| && sc.errs[p].Some?
    ensures var rest := args[1..];
      var sc := ScanFrom(Scan(s, [], NoErrors(|rest|), false), Layout(rest, 0), rest, env);
      var d := sc.deferred;
      && (forall q :: 0 <= q < |sc.errs| && q != p ==> sc.errs[q].None?)
      && (forall j :: 0 <= j < |d| ==> d[j].1 < p)
      && ((forall j :: 0 <= j < |d| ==> DeferredCheck(d[j].0, d[j].1, rest).None?) ==>
            ProcessSpec(s, args, env).1 == sc.errs[p])
  {
    var rest := args[1..];
    var items := Layout(rest, 0);
    var sc0 := Scan(s, [], NoErrors(|rest|), false);
    var sc := ScanFrom(sc0, items, rest, env);
    var d := sc.deferred;
    ScanKeepsShape(sc0, items, rest, env);
    assert AllNone(sc0.errs);
    ScanStopsOnce(sc0, rest, 0, env);
    if forall j :: 0 <= j < |d| ==> DeferredCheck(d[j].0, d[j].1, rest).None? {
      OnlyScanErrorReturned(sc.st, sc.errs, d, rest, p);
    }
  }

  /** With every stacked flag valid and before the scan's only error, at `p`, that error is the first one. */
  lemma OnlyScanErrorReturned(st: Args, errs: seq<Option<ArgError>>, d: seq<(FlagName, nat)>, args: seq<string>, p: nat)
    requires |errs| == |args| && DeferredWellPlaced(d, args)
    requires p < |errs| && errs[p].Some?
    requires forall q :: 0 <= q < |errs| && q != p ==> errs[q].None?
    requires forall j :: 0 <= j < |d| ==> d[j].1 < p && DeferredCheck(d[j].0, d[j].1, args).None?
    ensures FirstErr(RunDeferred(st, errs, d, args).1) == errs[p]
  {
    RunDeferredResult(st, errs, d, args);
    var fin := RunDeferred(st, errs, d, args).1;
    assert !Stacked(d, p);
    forall q | 0 <= q < p ensures fin[q].None? {
      if Stacked(d, q) {
        var j :| 0 <= j < |d| && d[j].1 == q;
      }
    }
    FirstErrAt(fin, p);
  }

  /**
   * Whether or not the scan stopped, an invalid stacked flag with no invalid
   * stacked flag before it makes Process return that flag's error: every
   * error the scan itself left lies after the stacked flags, so the error at
   * the lowest position wins.
   */
  lemma {:induction false} LowestDeferredFailureWins(s: Args, args: seq<string>, env: seq<string>, j: nat)
    requires |args| > 1 && EnvWellFormed(env) && args[0] == CommandName
    requires var rest := args[1..];
      var d := ScanFrom(Scan(s, [], NoErrors(|rest|), false), Layout(rest, 0), rest, env).deferred;
      && j < |d| && DeferredCheck(d[j].0, d[j].1, rest).Some?
      && (forall i :: 0 <= i < |d| && d[i].1 < d[j].1 ==> DeferredCheck(d[i].0, d[i].1, rest).None?)
    ensures var rest := args[1..];
      var d := ScanFrom(Scan(s, [], NoErrors(|rest|), false), Layout(rest, 0), rest, env).deferred;
      ProcessSpec(s, args, env).1 == DeferredCheck(d[j].0, d[j].1, rest)
  {
    var rest := args[1..];
    var items := Layout(rest, 0);
    var sc0 := Scan(s, [], NoErrors(|rest|), false);
    var sc := ScanFrom(sc0, items, rest, env);
    var d := sc.deferred;
    ScanKeepsShape(sc0, items, rest, env);
    assert AllNone(sc0.errs);
    ScanStopsOnce(sc0, rest, 0, env);
    if !sc.stopped {
      ScanCompleted(sc0, items, rest, env);
    }
    var q0 := d[j].1;
    assert forall q :: 0 <= q < q0 ==> sc.errs[q].None?;
    RunDeferredResult(sc.st, sc.errs, d, rest);
    var fin := RunDeferred(sc.st, sc.errs, d, rest).1;
    forall q | 0 <= q < q0 ensures fin[q].None? {
      if Stacked(d, q) {
        var i :| 0 <= i < |d| && d[i].1 == q;
      }
    }
    FirstErrAt(fin, q0);
  }

  /**
   * A successful Process forwards the plain tokens in their order; then, only
   * when `--push-as-subprocess` was processed, each `--var`/`--vars-file` with
   * its argument, from the top of the defer stack down, that is, the last on
   * the command line first (Go runs deferred calls last in, first out).
   */
  lemma {:induction false} ProcessForwards(s: Args, args: seq<string>, env: seq<string>)
    requires |args| > 0 && EnvWellFormed(env) && args[0] == CommandName
    requires ProcessSpec(s, args, env).1 == None
    ensures var items := Layout(args[1..], 0);
      ProcessSpec(s, args, env).0.otherCFArgs == s.otherCFArgs + PlainTokens(items) +
        (if PushAsSubprocess in s.processed || PushAsSubprocess in FlagsOf(items)
         then ForwardedPairs(DeferredStack(items), args[1..]) else [])
  {
    var rest := args[1..];
    if rest != [] {
      var items := Layout(rest, 0);
      var sc0 := Scan(s, [], NoErrors(|rest|), false);
      var sc := ScanFrom(sc0, items, rest, env);
      SuccessMeansNoFailedHandler(s, args, env);
      ScanCompleted(sc0, items, rest, env);
      ScanCompletedFlags(sc0, items, rest, env);
      DeferredStackWellPlaced(items, rest);
      RunDeferredForwards(sc.st, sc.errs, sc.deferred, rest);
    }
  }

  /** A successful Process records the `--vars-file` paths from the top of the defer stack down: the last on the command line first. */
  lemma {:induction false} ProcessVarsFiles(s: Args, args: seq<string>, env: seq<string>)
    requires |args| > 0 && EnvWellFormed(env) && args[0] == CommandName
    requires ProcessSpec(s, args, env).1 == None
    ensures ProcessSpec(s, args, env).0.staticVariablesFilePaths ==
      s.staticVariablesFilePaths + VarsFilePaths(DeferredStack(Layout(args[1..], 0)), args[1..])
  {
    var rest := args[1..];
    if rest != [] {
      var items := Layout(rest, 0);
      var sc0 := Scan(s, [], NoErrors(|rest|), false);
      var sc := ScanFrom(sc0, items, rest, env);
      SuccessMeansNoFailedHandler(s, args, env);
      ScanCompleted(sc0, items, rest, env);
      DeferredStackWellPlaced(items, rest);
      RunDeferredPaths(sc.st, sc.errs, sc.deferred, rest);
    }
  }

  /**
   * After a successful Process the manifest name is the argument of the last
   * `--service-manifest`, or the name from before when there is none; and
   * every `--service-manifest` had an argument not starting with "-".
   */
  lemma {:induction false} ProcessManifestName(s: Args, args: seq<string>, env: seq<string>)
    requires |args| > 0 && EnvWellFormed(env) && args[0] == CommandName
    requires ProcessSpec(s, args, env).1 == None
    ensures var rest := args[1..];
      var items := Layout(rest, 0);
      && ProcessSpec(s, args, env).0.serviceManifestFilename == ManifestName(items, rest, s.serviceManifestFilename)
      && ManifestArgumentsValid(items, rest)
  {
    var rest := args[1..];
    if rest != [] {
      var items := Layout(rest, 0);
      var sc0 := Scan(s, [], NoErrors(|rest|), false);
      var sc := ScanFrom(sc0, items, rest, env);
      SuccessMeansNoFailedHandler(s, args, env);
      ScanCompletedManifest(sc0, items, rest, env);
      DeferredStackWellPlaced(items, rest);
      RunDeferredKeepsSettings(sc.st, sc.errs, sc.deferred, rest);
    }
  }


  /** `--no-push` and `--push-as-subprocess` together fail, in either order. */
  lemma {:induction false} PushFlagsConflict(s: Args, args: seq<string>, env: seq<string>)
    requires |args| > 0 && EnvWellFormed(env) && args[0] == CommandName
    requires Exclusive(s.processed)
    requires NoPush in FlagsOf(Layout(args[1..], 0)) && PushAsSubprocess in FlagsOf(Layout(args[1..], 0))
    ensures ProcessSpec(s, args, env).1.Some?
  {
    var rest := args[1..];
    if ProcessSpec(s, args, env).1 == None {
      SuccessMeansNoFailedHandler(s, args, env);
      ScanCompletedFlags(Scan(s, [], NoErrors(|rest|), false), Layout(rest, 0), rest, env);
    }
  }

  /** `--service-manifest` and `--no-service-manifest` together fail, in either order. */
  lemma {:induction false} ManifestFlagsConflict(s: Args, args: seq<string>, env: seq<string>)
    requires |args| > 0 && EnvWellFormed(env) && args[0] == CommandName
    requires Exclusive(s.processed)
    requires ServiceManifest in FlagsOf(Layout(args[1..], 0)) && NoServiceManifest in FlagsOf(Layout(args[1..], 0))
    ensures ProcessSpec(s, args, env).1.Some?
  {
    var rest := args[1..];
    if ProcessSpec(s, args, env).1 == None {
      SuccessMeansNoFailedHandler(s, args, env);
      ScanCompletedFlags(Scan(s, [], NoErrors(|rest|), false), Layout(rest, 0), rest, env);
    }
  }

  /**
   * In a successful Process, a `--var` binding key `k` to `v` that no earlier
   * `--var` on the command line binds (none deeper in the defer stack) leaves
   * `k` bound to `v`, whatever the environment prefix or later `--var` flags
   * bound.
   */
  lemma {:induction false} ProcessFirstVarWins(s: Args, args: seq<string>, env: seq<string>, j: nat, k: string, v: string)
    requires |args| > 0 && EnvWellFormed(env) && args[0] == CommandName
    requires ProcessSpec(s, args, env).1 == None
    requires var d := DeferredStack(Layout(args[1..], 0));
      j < |d| && d[j].0 == Var && VarBinds(args[1..], d[j].1, k, v) &&
      forall i :: j < i < |d| ==> !BindsKey(d[i], args[1..], k)
    ensures k in ProcessSpec(s, args, env).0.staticVariables
    ensures ProcessSpec(s, args, env).0.staticVariables[k] == v
  {
    var rest := args[1..];
    var items := Layout(rest, 0);
    var sc := ScanFrom(Scan(s, [], NoErrors(|rest|), false), items, rest, env);
    SuccessMeansNoFailedHandler(s, args, env);
    DeferredStackWellPlaced(items, rest);
    RunDeferredFirstVarWins(sc.st, sc.errs, sc.deferred, rest, j, k, v);
  }
}
