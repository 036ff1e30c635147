/**
 * The single-file revision of the plugin (create-services-plugin.go). Its
 * `Run` scans the arguments itself: `--service-manifest NAME`,
 * `--no-service-manifest` and `--no-push` are consumed and every other token
 * is forwarded to `cf push`. It then reads the manifest (unless the filename
 * is empty), creates its services with an older reconciler, and pushes unless
 * `--no-push` was given. Every error before the push ends the process with
 * exit status 1; a failed push is only reported.
 *
 * The older reconciler differs from serviceCreator.go in its user-provided
 * creators: they skip a service whenever its name exists, never update one,
 * and pass no tags. Its brokered creator is the same, except that each poll
 * loop drives a new progress spinner writing to standard output.
 */
module LegacyPlugin {
  import opened Wrappers
  import opened Strings
  import opened Sequences
  import opened Platform
  import opened ServiceManifest
  import SC = ServiceCreator
  import ProgressSpinner

  const CommandName := "create-service-push"
  const DefaultManifestFilename := "services-manifest.yml"

  // ---------------------------------------------------------------------
  // The argument loop.
  // ---------------------------------------------------------------------

  /** The three flags of this revision; every one of them starts with "--". */
  predicate IsFlag(token: string)
  {
    token == "--service-manifest" || token == "--no-service-manifest" || token == "--no-push"
  }

  /** The loop's variables: `manifestFilename`, the keys of `processedFlags`, `remainingArgs`. */
  datatype Flags = Flags(manifestFilename: string, processedFlags: set<string>, remainingArgs: seq<string>)

  const InitialFlags := Flags(DefaultManifestFilename, {}, [])

  /** The argument errors, each of which ends the process with status 1. */
  datatype ArgError =
    | ManifestWithNoManifest     // `--service-manifest` after `--no-service-manifest`
    | NoManifestWithManifest     // `--no-service-manifest` after `--service-manifest`
    | ManifestNameIsFlag(found: string)
    | ManifestNameMissing

  datatype Scan = Scanned(flags: Flags) | Rejected(error: ArgError)

  /**
   * The argument loop from index `i` with variables `f`. The filename of
   * `--service-manifest` is taken before it is checked, and the conflict
   * with `--no-service-manifest` is checked first; the filename's slot is
   * skipped.
   */
  function ScanFrom(args: seq<string>, i: nat, f: Flags): Scan
    requires i <= |args|
    decreases |args| - i
  {
    if i == |args| then Scanned(f)
    else if args[i] == "--service-manifest" then
      if i + 1 < |args| then
        if "--no-service-manifest" in f.processedFlags then Rejected(ManifestWithNoManifest)
        else if HasPrefix(args[i + 1], "--") then Rejected(ManifestNameIsFlag(args[i + 1]))
        else ScanFrom(args, i + 2, f.(manifestFilename := args[i + 1],
                                      processedFlags := f.processedFlags + {"--service-manifest"}))
      else Rejected(ManifestNameMissing)
    else if args[i] == "--no-service-manifest" then
      if "--service-manifest" in f.processedFlags then Rejected(NoManifestWithManifest)
      else ScanFrom(args, i + 1, f.(manifestFilename := "",
                                    processedFlags := f.processedFlags + {"--no-service-manifest"}))
    else if args[i] == "--no-push" then
      ScanFrom(args, i + 1, f.(processedFlags := f.processedFlags + {"--no-push"}))
    else ScanFrom(args, i + 1, f.(remainingArgs := f.remainingArgs + [args[i]]))
  }

  /** The `for argIdx` loop of Run over the arguments after the command name; an error stands for its os.Exit(1). */
  method ProcessArgs(args: seq<string>) returns (r: Scan)
    ensures r == ScanFrom(args, 0, InitialFlags)
  {
    var manifestFilename := DefaultManifestFilename;
    var processedFlags: set<string> := {};
    var remainingArgs: seq<string> := [];
    var argIdx := 0;
    while argIdx < |args|
      invariant 0 <= argIdx <= |args|
      invariant ScanFrom(args, argIdx, Flags(manifestFilename, processedFlags, remainingArgs))
             == ScanFrom(args, 0, InitialFlags)
      decreases |args| - argIdx
    {
      var arg := args[argIdx];
      if arg == "--service-manifest" {
        if argIdx + 1 < |args| {
          if "--no-service-manifest" in processedFlags {
            return Rejected(ManifestWithNoManifest);
          }
          manifestFilename := args[argIdx + 1];
          if HasPrefix(manifestFilename, "--") {
            return Rejected(ManifestNameIsFlag(manifestFilename));
          }
          processedFlags := processedFlags + {arg};
          argIdx := argIdx + 1;
        } else {
          return Rejected(ManifestNameMissing);
        }
      } else if arg == "--no-service-manifest" {
        if "--service-manifest" in processedFlags {
          return Rejected(NoManifestWithManifest);
        }
        manifestFilename := "";
        processedFlags := processedFlags + {arg};
      } else if arg == "--no-push" {
        processedFlags := processedFlags + {arg};
      } else {
        remainingArgs := remainingArgs + [arg];
      }
      argIdx := argIdx + 1;
    }
    r := Scanned(Flags(manifestFilename, processedFlags, remainingArgs));
  }

  // ---------------------------------------------------------------------
  // The older reconciler.
  // ---------------------------------------------------------------------

  /** `cups NAME OPTION PAYLOAD`: user-provided services are only ever created, and without tags. */
  function CupsCommand(name: string, option: string, payload: string): seq<string>
  {
    ["cups", name, option, payload]
  }

  /** createUserProvidedCredentialsService and createUserProvidedLogDrainService: skip whenever the name exists. */
  function UserProvidedSpec(cf: Cf, name: string, option: string, payload: string): (Cf, Option<SC.CreateError>)
  {
    if cf.getServicesFails then (cf, Some(SC.GetServicesFailed))
    else if name in cf.services then (cf, None)
    else SC.RunSpec(cf, CupsCommand(name, option, payload))
  }

  /** createUserProvidedRouteService: the URL is checked only for a service that does not exist yet. */
  function RouteSpec(cf: Cf, name: string, url: string, schemeOf: SC.SchemeOf): (Cf, Option<SC.CreateError>)
  {
    if cf.getServicesFails then (cf, Some(SC.GetServicesFailed))
    else if name in cf.services then (cf, None)
    else
      match schemeOf(url)
      case None => (cf, Some(SC.UrlParseFailed))
      case Some(scheme) =>
        if !IsHttpsScheme(scheme) then (cf, Some(SC.RouteSchemeUnsupported))
        else SC.RunSpec(cf, CupsCommand(name, "-r", url))
  }

  /** The body of the loop of createServices; a brokered service goes through the same createService as in serviceCreator.go. */
  function CreateOneSpec(cf: Cf, s: Service, marshal: SC.Marshal, schemeOf: SC.SchemeOf): (Cf, Option<SC.CreateError>)
  {
    if s.kind == "credentials" then UserProvidedSpec(cf, s.serviceName, "-p", marshal(s.credentials))
    else if s.kind == "drain" then UserProvidedSpec(cf, s.serviceName, "-l", s.url)
    else if s.kind == "route" then RouteSpec(cf, s.serviceName, s.url, schemeOf)
    else if s.kind == "brokered" || s.kind == "" then
      SC.BrokeredSpec(cf, s.serviceName, s.broker, s.planName, s.jsonParameters, s.tags, s.updateService)
    else (cf, Some(SC.UnsupportedType(s.kind)))
  }

  /** createServices: the services in order, up to and including the first that fails. */
  function CreateServicesSpec(cf: Cf, services: seq<Service>, marshal: SC.Marshal, schemeOf: SC.SchemeOf)
    : (Cf, Option<SC.CreateError>)
    decreases |services|
  {
    if services == [] then (cf, None)
    else
      var r := CreateOneSpec(cf, services[0], marshal, schemeOf);
      if r.1.Some? then r else CreateServicesSpec(r.0, services[1..], marshal, schemeOf)
  }

  /** What a new spinner writes when its Next is called with each of `messages`. */
  function SpinnerLines(messages: seq<string>): seq<string>
  {
    ProgressSpinner.Steps(ProgressSpinner.Initial, messages).written
  }

  /** What one service writes through its spinner: only a brokered command that succeeded polls. */
  function CreateOneOutput(cf: Cf, s: Service): seq<string>
  {
    SpinnerLines(SC.CreateOneMessages(cf, s))
  }

  /** What createServices writes through its spinners, in order. */
  function CreateServicesOutput(cf: Cf, services: seq<Service>, marshal: SC.Marshal, schemeOf: SC.SchemeOf)
    : seq<string>
    decreases |services|
  {
    if services == [] then []
    else
      var r := CreateOneSpec(cf, services[0], marshal, schemeOf);
      CreateOneOutput(cf, services[0])
        + if r.1.Some? then [] else CreateServicesOutput(r.0, services[1..], marshal, schemeOf)
  }

  /** Standard output, as far as the spinners write to it; the other prints are not modelled. */
  class Stdout {
    var written: seq<string>
  }

  /** The poll loop of createService, which hands each description it reads to the spinner `pb`. */
  method PollWithSpinner(cf: Connection, pb: ProgressSpinner.ProgressSpinner, name: string)
    returns (err: Option<SC.CreateError>)
    modifies cf, pb
    ensures (cf.State(), err) == SC.PollSpec(old(cf.State()))
    ensures pb.State() == ProgressSpinner.Steps(old(pb.State()), SC.PollMessages(old(cf.polls)))
  {
    while true
      invariant SC.PollSpec(cf.State()) == SC.PollSpec(old(cf.State()))
      invariant ProgressSpinner.Steps(pb.State(), SC.PollMessages(cf.polls))
             == ProgressSpinner.Steps(old(pb.State()), SC.PollMessages(old(cf.polls)))
      decreases |cf.polls|
    {
      var p := cf.GetService(name);
      match p
      case PollFailed =>
        return Some(SC.GetServiceFailed);
      case Answer(op) =>
        pb.Next(op.description);
        if op.state == "succeeded" {
          return None;
        } else if op.state == "failed" {
          return Some(SC.OperationFailed(op.description, op.state));
        }
    }
  }

  /** The CreateServicePush struct of this revision: a manifest and the connection to create its services through. */
  class CreateServicePush {
    const manifest: Manifest
    const cf: Connection
    const marshal: SC.Marshal
    const schemeOf: SC.SchemeOf
    const stdout: Stdout

    constructor (manifest: Manifest, cf: Connection, marshal: SC.Marshal, schemeOf: SC.SchemeOf, stdout: Stdout)
      ensures this.manifest == manifest && this.cf == cf && this.stdout == stdout
      ensures this.marshal == marshal && this.schemeOf == schemeOf
    {
      this.manifest := manifest;
      this.cf := cf;
      this.marshal := marshal;
      this.schemeOf := schemeOf;
      this.stdout := stdout;
    }

    /** `c.run(args...)`: the command through the connection. */
    method Run(args: seq<string>) returns (err: Option<SC.CreateError>)
      modifies cf
      ensures (cf.State(), err) == SC.RunSpec(old(cf.State()), args)
    {
      var ok := cf.CliCommand(args);
      err := if ok then None else Some(SC.CommandFailed);
    }

    method CreateUserProvidedCredentialsService(name: string, credentials: map<string, string>)
      returns (err: Option<SC.CreateError>)
      modifies cf
      ensures (cf.State(), err) == UserProvidedSpec(old(cf.State()), name, "-p", marshal(credentials))
    {
      var s := cf.GetServices();
      if s.None? {
        return Some(SC.GetServicesFailed);
      }
      var found := SC.ShouldSkip(s.value, name, false);
      if found {
        return None;
      }
      err := Run(CupsCommand(name, "-p", marshal(credentials)));
    }

    method CreateUserProvidedRouteService(name: string, url: string)
      returns (err: Option<SC.CreateError>)
      modifies cf
      ensures (cf.State(), err) == RouteSpec(old(cf.State()), name, url, schemeOf)
    {
      var s := cf.GetServices();
      if s.None? {
        return Some(SC.GetServicesFailed);
      }
      var found := SC.ShouldSkip(s.value, name, false);
      if found {
        return None;
      }
      var scheme := schemeOf(url);
      if scheme.None? {
        return Some(SC.UrlParseFailed);
      }
      if ToLowerAscii(scheme.value) != "https" {
        return Some(SC.RouteSchemeUnsupported);
      }
      err := Run(CupsCommand(name, "-r", url));
    }

    method CreateUserProvidedLogDrainService(name: string, url: string)
      returns (err: Option<SC.CreateError>)
      modifies cf
      ensures (cf.State(), err) == UserProvidedSpec(old(cf.State()), name, "-l", url)
    {
      var s := cf.GetServices();
      if s.None? {
        return Some(SC.GetServicesFailed);
      }
      var found := SC.ShouldSkip(s.value, name, false);
      if found {
        return None;
      }
      err := Run(CupsCommand(name, "-l", url));
    }

    /** createService: create or update, then poll with a new spinner writing to standard output. */
    method CreateService(name: string, broker: string, plan: string, jsonParam: string, tags: string,
                         updateSIParamsAndTags: bool)
      returns (err: Option<SC.CreateError>)
      modifies cf, stdout
      ensures (cf.State(), err)
           == SC.BrokeredSpec(old(cf.State()), name, broker, plan, jsonParam, tags, updateSIParamsAndTags)
      ensures stdout.written == old(stdout.written) + CreateOneOutput(old(cf.State()),
        Service(name, "", broker, plan, "", updateSIParamsAndTags, map[], tags, jsonParam))
    {
      var s := cf.GetServices();
      if s.None? {
        return Some(SC.GetServicesFailed);
      }
      var skip := SC.ShouldSkip(s.value, name, updateSIParamsAndTags);
      if skip {
        return None;
      }
      var optionalArgs: seq<string> := [];
      if tags != "" {
        optionalArgs := optionalArgs + ["-t"];
        optionalArgs := optionalArgs + [tags];
      }
      if jsonParam != "" {
        optionalArgs := optionalArgs + ["-c"];
        optionalArgs := optionalArgs + [jsonParam];
      }
      assert optionalArgs == SC.OptionalArgs(tags, jsonParam);
      if updateSIParamsAndTags {
        err := Run(["update-service", name] + optionalArgs);
      } else {
        err := Run(["create-service", broker, plan, name] + optionalArgs);
      }
      if err.Some? {
        return err;
      }
      var pb := new ProgressSpinner.ProgressSpinner();
      err := PollWithSpinner(cf, pb, name);
      stdout.written := stdout.written + pb.written;
    }

    /** The dispatch on the service's type in the loop of createServices. */
    method CreateOne(s: Service) returns (err: Option<SC.CreateError>)
      modifies cf, stdout
      ensures (cf.State(), err) == CreateOneSpec(old(cf.State()), s, marshal, schemeOf)
      ensures stdout.written == old(stdout.written) + CreateOneOutput(old(cf.State()), s)
    {
      if s.kind == "credentials" {
        err := CreateUserProvidedCredentialsService(s.serviceName, s.credentials);
      } else if s.kind == "drain" {
        err := CreateUserProvidedLogDrainService(s.serviceName, s.url);
      } else if s.kind == "route" {
        err := CreateUserProvidedRouteService(s.serviceName, s.url);
      } else if s.kind == "brokered" || s.kind == "" {
        err := CreateService(s.serviceName, s.broker, s.planName, s.jsonParameters, s.tags, s.updateService);
      } else {
        err := Some(SC.UnsupportedType(s.kind));
      }
    }

    /** createServices: the loop over the manifest that breaks on the first error. */
    method CreateServices() returns (err: Option<SC.CreateError>)
      modifies cf, stdout
      ensures (cf.State(), err) == CreateServicesSpec(old(cf.State()), manifest.services, marshal, schemeOf)
      ensures stdout.written
           == old(stdout.written) + CreateServicesOutput(old(cf.State()), manifest.services, marshal, schemeOf)
    {
      var services := manifest.services;
      err := None;
      var i := 0;
      while i < |services|
        invariant 0 <= i <= |services|
        invariant err.None?
        invariant CreateServicesSpec(cf.State(), services[i..], marshal, schemeOf)
               == CreateServicesSpec(old(cf.State()), services, marshal, schemeOf)
        invariant stdout.written + CreateServicesOutput(cf.State(), services[i..], marshal, schemeOf)
               == old(stdout.written) + CreateServicesOutput(old(cf.State()), services, marshal, schemeOf)
      {
        assert services[i..][0] == services[i] && services[i..][1..] == services[i + 1..];
        ghost var before := cf.State();
        ghost var shown := stdout.written;
        err := CreateOne(services[i]);
        AppendAssoc(shown, CreateOneOutput(before, services[i]),
          if err.Some? then [] else CreateServicesOutput(cf.State(), services[i + 1..], marshal, schemeOf));
        if err.Some? {
          return;
        }
        i := i + 1;
      }
    }
  }

  // ---------------------------------------------------------------------
  // Run.
  // ---------------------------------------------------------------------

  /** os.Stat, os.Open and ParseManifest of the named file, as one answer. */
  datatype Load = NotFound | OpenFailed | ParseFailed | Parsed(manifest: Manifest)

  type Loader = string -> Load

  /** Why the process exits with status 1. */
  datatype Failure =
    | ArgumentError(argError: ArgError)
    | ManifestNotFound(filename: string)
    | ManifestUnopenable(filename: string)
    | ManifestUnparsable
    | CreateFailed(createError: SC.CreateError)

  /** Run returns, or the process ends through os.Exit(1). */
  datatype Outcome = Returned | Exited(failure: Failure)

  /** The exit status of the process. */
  function ExitStatus(o: Outcome): int
  {
    if o.Returned? then 0 else 1
  }

  /** Step 2 of Run: when the filename is not empty, read the manifest and create its services. */
  function ManifestStage(cf: Cf, filename: string, load: Loader, marshal: SC.Marshal, schemeOf: SC.SchemeOf)
    : (Cf, Option<Failure>)
  {
    if |filename| == 0 then (cf, None)
    else
      match load(filename)
      case NotFound => (cf, Some(ManifestNotFound(filename)))
      case OpenFailed => (cf, Some(ManifestUnopenable(filename)))
      case ParseFailed => (cf, Some(ManifestUnparsable))
      case Parsed(m) =>
        var r := CreateServicesSpec(cf, m.services, marshal, schemeOf);
        (r.0, if r.1.Some? then Some(CreateFailed(r.1.value)) else None)
  }

  /** What step 2 writes through the spinners. */
  function ManifestOutput(cf: Cf, filename: string, load: Loader, marshal: SC.Marshal, schemeOf: SC.SchemeOf)
    : seq<string>
  {
    if |filename| == 0 then []
    else
      match load(filename)
      case Parsed(m) => CreateServicesOutput(cf, m.services, marshal, schemeOf)
      case _ => []
  }

  /** Step 3 of Run: `push` with the forwarded arguments, unless `--no-push` was given. */
  function PushCommands(f: Flags): seq<seq<string>>
  {
    if "--no-push" in f.processedFlags then [] else [["push"] + f.remainingArgs]
  }

  /** Run on a connection in state `cf`: the state it leaves and how it ends. */
  function RunSpec(cf: Cf, args: seq<string>, load: Loader, marshal: SC.Marshal, schemeOf: SC.SchemeOf)
    : (Cf, Outcome)
    requires |args| > 0
  {
    if args[0] != CommandName then (cf, Returned)
    else
      match ScanFrom(args[1..], 0, InitialFlags)
      case Rejected(e) => (cf, Exited(ArgumentError(e)))
      case Scanned(f) =>
        var m := ManifestStage(cf, f.manifestFilename, load, marshal, schemeOf);
        if m.1.Some? then (m.0, Exited(m.1.value))
        else (m.0.(commands := m.0.commands + PushCommands(f)), Returned)
  }

  /** What Run writes through the spinners. */
  function RunOutput(cf: Cf, args: seq<string>, load: Loader, marshal: SC.Marshal, schemeOf: SC.SchemeOf)
    : seq<string>
    requires |args| > 0
  {
    if args[0] != CommandName then []
    else
      match ScanFrom(args[1..], 0, InitialFlags)
      case Rejected(_) => []
      case Scanned(f) => ManifestOutput(cf, f.manifestFilename, load, marshal, schemeOf)
  }

  /** Step 2 of Run: the manifest file is checked, opened and parsed, and its services created. */
  method ReadManifestAndCreate(cliConnection: Connection, manifestFilename: string, load: Loader,
                               marshal: SC.Marshal, schemeOf: SC.SchemeOf, stdout: Stdout)
    returns (failure: Option<Failure>)
    modifies cliConnection, stdout
    ensures (cliConnection.State(), failure)
         == ManifestStage(old(cliConnection.State()), manifestFilename, load, marshal, schemeOf)
    ensures stdout.written == old(stdout.written) + ManifestOutput(old(cliConnection.State()), manifestFilename, load, marshal, schemeOf)
  {
    if |manifestFilename| > 0 {
      match load(manifestFilename)
      case NotFound =>
        return Some(ManifestNotFound(manifestFilename));
      case OpenFailed =>
        return Some(ManifestUnopenable(manifestFilename));
      case ParseFailed =>
        return Some(ManifestUnparsable);
      case Parsed(manifest) =>
        var createServicesObject := new CreateServicePush(manifest, cliConnection, marshal, schemeOf, stdout);
        var err := createServicesObject.CreateServices();
        if err.Some? {
          return Some(CreateFailed(err.value));
        }
    }
    failure := None;
  }

  /**
   * Run(cliConnection, args). The CLI always passes the command name as
   * `args[0]`; the receiver's fields are not read.
   */
  method Run(cliConnection: Connection, args: seq<string>, load: Loader, marshal: SC.Marshal,
             schemeOf: SC.SchemeOf, stdout: Stdout)
    returns (outcome: Outcome)
    requires |args| > 0
    modifies cliConnection, stdout
    ensures (cliConnection.State(), outcome) == RunSpec(old(cliConnection.State()), args, load, marshal, schemeOf)
    ensures stdout.written == old(stdout.written) + RunOutput(old(cliConnection.State()), args, load, marshal, schemeOf)
  {
    if args[0] != CommandName {
      return Returned;
    }
    var scan := ProcessArgs(args[1..]);
    if scan.Rejected? {
      return Exited(ArgumentError(scan.error));
    }
    var flags := scan.flags;
    var failure := ReadManifestAndCreate(cliConnection, flags.manifestFilename, load, marshal, schemeOf, stdout);
    if failure.Some? {
      return Exited(failure.value);
    }
    if "--no-push" !in flags.processedFlags {
      // A failed push is only reported.
      var _ := cliConnection.CliCommand(["push"] + flags.remainingArgs);
    } else {
      assert cliConnection.commands + PushCommands(flags) == cliConnection.commands;
    }
    outcome := Returned;
  }

  // ---------------------------------------------------------------------
  // Lemmas: the argument loop.
  // ---------------------------------------------------------------------

  /** No token of `s` is one of the three flags. */
  predicate NoFlag(s: seq<string>)
  {
    forall k :: 0 <= k < |s| ==> !IsFlag(s[k])
  }

  lemma FlagsStartWithDashes(token: string)
    requires IsFlag(token)
    ensures HasPrefix(token, "--")
  {
    assert token[..2] == "--";
  }

  /** `--service-manifest` and `--no-service-manifest` are never both recorded by a scan that succeeds. */
  lemma {:induction false} ScanNeverBoth(args: seq<string>, i: nat, f: Flags)
    requires i <= |args|
    requires !("--service-manifest" in f.processedFlags && "--no-service-manifest" in f.processedFlags)
    ensures ScanFrom(args, i, f).Scanned? ==>
      var r := ScanFrom(args, i, f).flags;
      !("--service-manifest" in r.processedFlags && "--no-service-manifest" in r.processedFlags)
    decreases |args| - i
  {
    if i < |args| {
      if args[i] == "--service-manifest" {
        if i + 1 < |args| && "--no-service-manifest" !in f.processedFlags && !HasPrefix(args[i + 1], "--") {
          ScanNeverBoth(args, i + 2, f.(manifestFilename := args[i + 1],
                                       processedFlags := f.processedFlags + {"--service-manifest"}));
        }
      } else if args[i] == "--no-service-manifest" {
        if "--service-manifest" !in f.processedFlags {
          ScanNeverBoth(args, i + 1, f.(manifestFilename := "",
                                       processedFlags := f.processedFlags + {"--no-service-manifest"}));
        }
      } else if args[i] == "--no-push" {
        ScanNeverBoth(args, i + 1, f.(processedFlags := f.processedFlags + {"--no-push"}));
      } else {
        ScanNeverBoth(args, i + 1, f.(remainingArgs := f.remainingArgs + [args[i]]));
      }
    }
  }

  /**
   * A scan that succeeds records a flag exactly when the flag occurs among
   * the tokens it read: a flag token can never be taken as the manifest's
   * name, since a name starting with "--" is refused.
   */
  lemma {:induction false} FlagTokenRecorded(args: seq<string>, i: nat, f: Flags, flag: string)
    requires i <= |args| && IsFlag(flag) && ScanFrom(args, i, f).Scanned?
    ensures flag in ScanFrom(args, i, f).flags.processedFlags <==> flag in f.processedFlags || flag in args[i..]
    decreases |args| - i
  {
    if i < |args| {
      assert args[i..] == [args[i]] + args[i + 1..];
      if args[i] == "--service-manifest" {
        assert args[i + 1..] == [args[i + 1]] + args[i + 2..];
        FlagsStartWithDashes(flag);
        assert args[i + 1] != flag;
        FlagTokenRecorded(args, i + 2, f.(manifestFilename := args[i + 1],
                                         processedFlags := f.processedFlags + {"--service-manifest"}), flag);
      } else if args[i] == "--no-service-manifest" {
        FlagTokenRecorded(args, i + 1, f.(manifestFilename := "",
                                         processedFlags := f.processedFlags + {"--no-service-manifest"}), flag);
      } else if args[i] == "--no-push" {
        FlagTokenRecorded(args, i + 1, f.(processedFlags := f.processedFlags + {"--no-push"}), flag);
      } else {
        FlagTokenRecorded(args, i + 1, f.(remainingArgs := f.remainingArgs + [args[i]]), flag);
      }
    }
  }

  /** Once `--no-service-manifest` is recorded, a scan that succeeds ends with an empty filename. */
  lemma {:induction false} NoManifestKeepsEmpty(args: seq<string>, i: nat, f: Flags)
    requires i <= |args|
    requires "--no-service-manifest" in f.processedFlags ==> f.manifestFilename == ""
    ensures ScanFrom(args, i, f).Scanned? ==>
      var r := ScanFrom(args, i, f).flags;
      "--no-service-manifest" in r.processedFlags ==> r.manifestFilename == ""
    decreases |args| - i
  {
    if i < |args| {
      if args[i] == "--service-manifest" {
        if i + 1 < |args| && "--no-service-manifest" !in f.processedFlags && !HasPrefix(args[i + 1], "--") {
          NoManifestKeepsEmpty(args, i + 2, f.(manifestFilename := args[i + 1],
                                              processedFlags := f.processedFlags + {"--service-manifest"}));
        }
      } else if args[i] == "--no-service-manifest" {
        if "--service-manifest" !in f.processedFlags {
          NoManifestKeepsEmpty(args, i + 1, f.(manifestFilename := "",
                                              processedFlags := f.processedFlags + {"--no-service-manifest"}));
        }
      } else if args[i] == "--no-push" {
        NoManifestKeepsEmpty(args, i + 1, f.(processedFlags := f.processedFlags + {"--no-push"}));
      } else {
        NoManifestKeepsEmpty(args, i + 1, f.(remainingArgs := f.remainingArgs + [args[i]]));
      }
    }
  }

  /** Tokens none of which is a flag are all forwarded, in their order, and nothing else changes. */
  lemma {:induction false} UnflaggedForwardedInOrder(args: seq<string>, i: nat, f: Flags)
    requires i <= |args| && NoFlag(args[i..])
    ensures ScanFrom(args, i, f) == Scanned(f.(remainingArgs := f.remainingArgs + args[i..]))
    decreases |args| - i
  {
    if i < |args| {
      assert args[i..][0] == args[i];
      var rest, tokens := args[i + 1..], args[i..];
      forall k | 0 <= k < |rest|
        ensures !IsFlag(rest[k])
      {
        assert rest[k] == tokens[k + 1];
      }
      UnflaggedForwardedInOrder(args, i + 1, f.(remainingArgs := f.remainingArgs + [args[i]]));
      assert args[i..] == [args[i]] + args[i + 1..];
      AppendAssoc(f.remainingArgs, [args[i]], args[i + 1..]);
    } else {
      assert f.remainingArgs + args[i..] == f.remainingArgs;
    }
  }

  /** A scan that succeeds only appends to the forwarded tokens, and never forwards a flag or the manifest's name slot as a flag. */
  lemma {:induction false} ForwardedAreNotFlags(args: seq<string>, i: nat, f: Flags)
    requires i <= |args| && NoFlag(f.remainingArgs) && ScanFrom(args, i, f).Scanned?
    ensures f.remainingArgs <= ScanFrom(args, i, f).flags.remainingArgs
    ensures NoFlag(ScanFrom(args, i, f).flags.remainingArgs)
    decreases |args| - i
  {
    if i < |args| {
      if args[i] == "--service-manifest" {
        ForwardedAreNotFlags(args, i + 2, f.(manifestFilename := args[i + 1],
                                            processedFlags := f.processedFlags + {"--service-manifest"}));
      } else if args[i] == "--no-service-manifest" {
        ForwardedAreNotFlags(args, i + 1, f.(manifestFilename := "",
                                            processedFlags := f.processedFlags + {"--no-service-manifest"}));
      } else if args[i] == "--no-push" {
        ForwardedAreNotFlags(args, i + 1, f.(processedFlags := f.processedFlags + {"--no-push"}));
      } else {
        var g := f.(remainingArgs := f.remainingArgs + [args[i]]);
        assert NoFlag(g.remainingArgs);
        ForwardedAreNotFlags(args, i + 1, g);
      }
    }
  }

  /**
   * An example for one manifest name: the two manifest flags conflict in
   * either order, each order with its own error (BothManifestFlagsExit states
   * the conflict for every argument list).
   */
  lemma ConflictInEitherOrder(name: string)
    requires !HasPrefix(name, "--")
    ensures ScanFrom(["--service-manifest", name, "--no-service-manifest"], 0, InitialFlags)
         == Rejected(NoManifestWithManifest)
    ensures ScanFrom(["--no-service-manifest", "--service-manifest", name], 0, InitialFlags)
         == Rejected(ManifestWithNoManifest)
  {
  }

  // ---------------------------------------------------------------------
  // Lemmas: Run.
  // ---------------------------------------------------------------------

  /** Run ignores a command that is not its own: nothing is called and nothing written. */
  lemma NotOurCommand(cf: Cf, args: seq<string>, load: Loader, marshal: SC.Marshal, schemeOf: SC.SchemeOf)
    requires |args| > 0 && args[0] != CommandName
    ensures RunSpec(cf, args, load, marshal, schemeOf) == (cf, Returned)
    ensures RunOutput(cf, args, load, marshal, schemeOf) == []
  {
  }

  /** An argument error ends the process with status 1 before the manifest is read or any command is run. */
  lemma ArgumentErrorExitsFirst(cf: Cf, args: seq<string>, load: Loader, marshal: SC.Marshal, schemeOf: SC.SchemeOf)
    requires |args| > 0 && args[0] == CommandName && ScanFrom(args[1..], 0, InitialFlags).Rejected?
    ensures RunSpec(cf, args, load, marshal, schemeOf)
         == (cf, Exited(ArgumentError(ScanFrom(args[1..], 0, InitialFlags).error)))
    ensures ExitStatus(RunSpec(cf, args, load, marshal, schemeOf).1) == 1
    ensures RunOutput(cf, args, load, marshal, schemeOf) == []
  {
  }

  /** Both manifest flags, in whatever order and wherever they stand, end the process with status 1 and no command. */
  lemma BothManifestFlagsExit(cf: Cf, args: seq<string>, load: Loader, marshal: SC.Marshal, schemeOf: SC.SchemeOf)
    requires |args| > 0 && args[0] == CommandName
    requires "--service-manifest" in args[1..] && "--no-service-manifest" in args[1..]
    ensures RunSpec(cf, args, load, marshal, schemeOf).0 == cf
    ensures RunSpec(cf, args, load, marshal, schemeOf).1.Exited?
    ensures RunSpec(cf, args, load, marshal, schemeOf).1.failure.ArgumentError?
  {
    var tokens := args[1..];
    if ScanFrom(tokens, 0, InitialFlags).Scanned? {
      assert tokens[0..] == tokens;
      ScanNeverBoth(tokens, 0, InitialFlags);
      FlagTokenRecorded(tokens, 0, InitialFlags, "--service-manifest");
      FlagTokenRecorded(tokens, 0, InitialFlags, "--no-service-manifest");
      assert false;
    }
  }

  /**
   * Where the loop reads `--service-manifest` (position `i` of the tokens
   * after the command name, reached with variables `g`), a missing next
   * token, or one starting with "--", ends the process with status 1 and
   * no command.
   */
  lemma ManifestNameRequired(cf: Cf, args: seq<string>, i: nat, g: Flags, load: Loader, marshal: SC.Marshal,
                             schemeOf: SC.SchemeOf)
    requires |args| > 0 && args[0] == CommandName
    requires i < |args[1..]| && ScanFrom(args[1..], 0, InitialFlags) == ScanFrom(args[1..], i, g)
    requires args[1..][i] == "--service-manifest"
    requires i + 1 == |args[1..]| || HasPrefix(args[1..][i + 1], "--")
    ensures RunSpec(cf, args, load, marshal, schemeOf).0 == cf
    ensures RunSpec(cf, args, load, marshal, schemeOf).1.Exited?
    ensures RunSpec(cf, args, load, marshal, schemeOf).1.failure.ArgumentError?
  {
  }

  /** With `--no-push` anywhere among the arguments, nothing is run after the services are created. */
  lemma NoPushSuppressesPush(cf: Cf, args: seq<string>, f: Flags, load: Loader, marshal: SC.Marshal,
                             schemeOf: SC.SchemeOf)
    requires |args| > 0 && args[0] == CommandName && ScanFrom(args[1..], 0, InitialFlags) == Scanned(f)
    requires "--no-push" in args[1..]
    ensures RunSpec(cf, args, load, marshal, schemeOf).0 == ManifestStage(cf, f.manifestFilename, load, marshal, schemeOf).0
  {
    assert args[1..][0..] == args[1..];
    FlagTokenRecorded(args[1..], 0, InitialFlags, "--no-push");
    var m := ManifestStage(cf, f.manifestFilename, load, marshal, schemeOf);
    assert m.0.commands + [] == m.0.commands;
  }

  /**
   * Without `--no-push`, once the services are created Run pushes with the
   * forwarded arguments and returns, even when the push fails.
   */
  lemma PushForwardsRemaining(cf: Cf, args: seq<string>, f: Flags, load: Loader, marshal: SC.Marshal,
                              schemeOf: SC.SchemeOf)
    requires |args| > 0 && args[0] == CommandName && ScanFrom(args[1..], 0, InitialFlags) == Scanned(f)
    requires "--no-push" !in args[1..]
    requires ManifestStage(cf, f.manifestFilename, load, marshal, schemeOf).1.None?
    ensures var m := ManifestStage(cf, f.manifestFilename, load, marshal, schemeOf).0;
      RunSpec(cf, args, load, marshal, schemeOf) == (Command(m, ["push"] + f.remainingArgs).0, Returned)
    ensures NoFlag(f.remainingArgs)
  {
    assert args[1..][0..] == args[1..];
    FlagTokenRecorded(args[1..], 0, InitialFlags, "--no-push");
    ForwardedAreNotFlags(args[1..], 0, InitialFlags);
  }

  /** Arguments without any of the three flags read the default manifest and are all passed to `push`, in order. */
  lemma PlainArgumentsPushed(cf: Cf, args: seq<string>, load: Loader, marshal: SC.Marshal, schemeOf: SC.SchemeOf)
    requires |args| > 0 && args[0] == CommandName && NoFlag(args[1..])
    requires ManifestStage(cf, DefaultManifestFilename, load, marshal, schemeOf).1.None?
    ensures var m := ManifestStage(cf, DefaultManifestFilename, load, marshal, schemeOf).0;
      RunSpec(cf, args, load, marshal, schemeOf) == (Command(m, ["push"] + args[1..]).0, Returned)
  {
    assert args[1..][0..] == args[1..];
    UnflaggedForwardedInOrder(args[1..], 0, InitialFlags);
    assert [] + args[1..] == args[1..];
  }

  /**
   * `--no-service-manifest` (without `--service-manifest`) empties the
   * filename: the manifest is not read, no service is created, nothing is
   * written, and only the push can run.
   */
  lemma NoManifestSkipsCreation(cf: Cf, args: seq<string>, f: Flags, load: Loader, marshal: SC.Marshal,
                                schemeOf: SC.SchemeOf)
    requires |args| > 0 && args[0] == CommandName && ScanFrom(args[1..], 0, InitialFlags) == Scanned(f)
    requires "--no-service-manifest" in args[1..]
    ensures f.manifestFilename == ""
    ensures RunSpec(cf, args, load, marshal, schemeOf) == (cf.(commands := cf.commands + PushCommands(f)), Returned)
    ensures RunOutput(cf, args, load, marshal, schemeOf) == []
  {
    assert args[1..][0..] == args[1..];
    FlagTokenRecorded(args[1..], 0, InitialFlags, "--no-service-manifest");
    NoManifestKeepsEmpty(args[1..], 0, InitialFlags);
  }

  // ---------------------------------------------------------------------
  // Lemmas: the older reconciler.
  // ---------------------------------------------------------------------

  /** The existence check of this revision: user-provided services are skipped whenever their name exists. */
  predicate Skips(existing: seq<string>, s: Service)
  {
    s.serviceName in existing && (SC.IsUserProvided(s.kind) || !s.updateService)
  }

  /** The command the creator for `s` issues when it does not skip it. */
  function PlannedCommand(s: Service, marshal: SC.Marshal): (r: seq<string>)
    ensures |r| >= 2 && s.serviceName in r
    ensures r[0] == "update-service" <==> !SC.IsUserProvided(s.kind) && s.updateService
    ensures SC.IsUserProvided(s.kind) ==> r[0] == "cups" && |r| == 4
  {
    if s.kind == "credentials" then CupsCommand(s.serviceName, "-p", marshal(s.credentials))
    else if s.kind == "drain" then CupsCommand(s.serviceName, "-l", s.url)
    else if s.kind == "route" then CupsCommand(s.serviceName, "-r", s.url)
    else SC.BrokeredCommand(s.serviceName, s.broker, s.planName, s.jsonParameters, s.tags, s.updateService)
  }

  /** The commands of the services that are not skipped, in manifest order. */
  function PlannedCommands(existing: seq<string>, services: seq<Service>, marshal: SC.Marshal): seq<seq<string>>
    decreases |services|
  {
    if services == [] then []
    else
      (if Skips(existing, services[0]) then [] else [PlannedCommand(services[0], marshal)])
        + PlannedCommands(existing, services[1..], marshal)
  }

  /** One service leaves the connection as SC.Follows says and, when it succeeds, has issued its planned command unless it skipped. */
  lemma CreateOneStep(cf: Cf, s: Service, marshal: SC.Marshal, schemeOf: SC.SchemeOf)
    ensures var r := CreateOneSpec(cf, s, marshal, schemeOf);
      && SC.Follows(cf, r.0)
      && (r.1.None? ==>
            r.0.commands == cf.commands + (if Skips(cf.services, s) then [] else [PlannedCommand(s, marshal)]))
  {
    if s.kind == "brokered" || s.kind == "" {
      BrokeredStep(cf, s, marshal, schemeOf);
    } else {
      OtherStep(cf, s, marshal, schemeOf);
    }
  }

  lemma BrokeredStep(cf: Cf, s: Service, marshal: SC.Marshal, schemeOf: SC.SchemeOf)
    requires s.kind == "brokered" || s.kind == ""
    ensures var r := CreateOneSpec(cf, s, marshal, schemeOf);
      && SC.Follows(cf, r.0)
      && (r.1.None? ==>
            r.0.commands == cf.commands + (if Skips(cf.services, s) then [] else [PlannedCommand(s, marshal)]))
  {
    assert CreateOneSpec(cf, s, marshal, schemeOf) == SC.CreateOneSpec(cf, s, marshal, schemeOf);
    assert PlannedCommand(s, marshal) == SC.PlannedCommand(s, marshal);
    assert Skips(cf.services, s) == SC.Skips(cf.services, s.serviceName, s.updateService);
    SC.CreateOneStep(cf, s, marshal, schemeOf);
  }

  lemma OtherStep(cf: Cf, s: Service, marshal: SC.Marshal, schemeOf: SC.SchemeOf)
    requires s.kind != "brokered" && s.kind != ""
    ensures var r := CreateOneSpec(cf, s, marshal, schemeOf);
      && SC.Follows(cf, r.0)
      && (r.1.None? ==>
            r.0.commands == cf.commands + (if Skips(cf.services, s) then [] else [PlannedCommand(s, marshal)]))
  {
    var p := PlannedCommand(s, marshal);
    OtherShape(cf, s, marshal, schemeOf);
    assert cf.polls[0..] == cf.polls;
    assert SC.Follows(cf, Command(cf, p).0);
  }

  /** A service that is not brokered either leaves the connection alone, succeeding only when skipped, or runs its command. */
  lemma OtherShape(cf: Cf, s: Service, marshal: SC.Marshal, schemeOf: SC.SchemeOf)
    requires s.kind != "brokered" && s.kind != ""
    ensures var r := CreateOneSpec(cf, s, marshal, schemeOf);
      || (r.0 == cf && (r.1.None? ==> Skips(cf.services, s)))
      || (r.0 == Command(cf, PlannedCommand(s, marshal)).0 && (r.1.None? ==> !Skips(cf.services, s)))
  {
  }

  /**
   * A service of a known type is left alone, with success and no command,
   * exactly when its name exists and it is user-provided or not to be updated.
   */
  lemma SkipsExactly(cf: Cf, s: Service, marshal: SC.Marshal, schemeOf: SC.SchemeOf)
    requires !cf.getServicesFails && SC.IsSupported(s.kind)
    ensures var r := CreateOneSpec(cf, s, marshal, schemeOf);
      (r.1.None? && r.0.commands == cf.commands) <==> Skips(cf.services, s)
  {
    CreateOneStep(cf, s, marshal, schemeOf);
  }

  /** A user-provided service is never updated: its `update` setting changes nothing, and its command is `cups` without tags. */
  lemma UserProvidedNeverUpdated(cf: Cf, s: Service, marshal: SC.Marshal, schemeOf: SC.SchemeOf)
    requires SC.IsUserProvided(s.kind)
    ensures CreateOneSpec(cf, s, marshal, schemeOf) == CreateOneSpec(cf, s.(updateService := !s.updateService), marshal, schemeOf)
    ensures PlannedCommand(s, marshal) == PlannedCommand(s.(updateService := !s.updateService), marshal)
  {
  }

  /**
   * The route's URL is checked only after the existence check: an existing
   * route is skipped whatever its URL; a new one fails without a command
   * exactly when its URL does not parse or its scheme is not https.
   */
  lemma RouteCheckedAfterExists(cf: Cf, s: Service, marshal: SC.Marshal, schemeOf: SC.SchemeOf)
    requires !cf.getServicesFails && s.kind == "route"
    ensures s.serviceName in cf.services ==> CreateOneSpec(cf, s, marshal, schemeOf) == (cf, None)
    ensures s.serviceName !in cf.services ==>
      var r := CreateOneSpec(cf, s, marshal, schemeOf);
      var https := schemeOf(s.url).Some? && IsHttpsScheme(schemeOf(s.url).value);
      && ((r.1.Some? && r.0 == cf) <==> !https)
      && (https ==> r.0.commands == cf.commands + [PlannedCommand(s, marshal)])
  {
    var r := CreateOneSpec(cf, s, marshal, schemeOf);
    if s.serviceName !in cf.services && schemeOf(s.url).Some? && IsHttpsScheme(schemeOf(s.url).value) {
      assert |r.0.commands| == |cf.commands| + 1;
    }
  }

  /** Brokered services are created exactly as serviceCreator.go creates them. */
  lemma BrokeredAsInReconciler(cf: Cf, s: Service, marshal: SC.Marshal, schemeOf: SC.SchemeOf)
    requires s.kind == "brokered" || s.kind == ""
    ensures CreateOneSpec(cf, s, marshal, schemeOf) == SC.CreateOneSpec(cf, s, marshal, schemeOf)
  {
  }

  /** A service of an unknown type fails with that type named, before any call on the connection. */
  lemma UnsupportedTypeFails(cf: Cf, s: Service, marshal: SC.Marshal, schemeOf: SC.SchemeOf)
    requires !SC.IsSupported(s.kind)
    ensures CreateOneSpec(cf, s, marshal, schemeOf) == (cf, Some(SC.UnsupportedType(s.kind)))
  {
  }

  /**
   * Every brokered service polls with a spinner of its own: when its command
   * succeeded and the first answer has a new description, its output starts
   * with that description and the glyph "/" of a new spinner.
   */
  lemma SpinnerPerService(cf: Cf, s: Service, op: Operation)
    requires (s.kind == "brokered" || s.kind == "") && !cf.getServicesFails && !cf.commandFails
    requires !SC.Skips(cf.services, s.serviceName, s.updateService)
    requires |cf.polls| > 0 && cf.polls[0] == Answer(op) && op.description != ""
    ensures |CreateOneOutput(cf, s)| >= 2 && CreateOneOutput(cf, s)[..2] == [op.description + "\n", "/\r"]
  {
    var messages := SC.PollMessages(cf.polls);
    assert messages[0] == op.description;
    ProgressSpinner.FirstNext(op.description);
    ProgressSpinner.StepsFromNew(messages);
    var first := ProgressSpinner.AfterNext(ProgressSpinner.Initial, messages[0]);
    assert CreateOneOutput(cf, s)[..|first.written|] == first.written;
  }

  /** Creating `a + b` is creating `a`, then, unless it failed, `b`. */
  lemma {:induction false} CreateServicesAppend(cf: Cf, a: seq<Service>, b: seq<Service>, marshal: SC.Marshal,
                                                schemeOf: SC.SchemeOf)
    ensures CreateServicesSpec(cf, a + b, marshal, schemeOf) ==
      var r := CreateServicesSpec(cf, a, marshal, schemeOf);
      if r.1.Some? then r else CreateServicesSpec(r.0, b, marshal, schemeOf)
    decreases |a|
  {
    if a != [] {
      assert (a + b)[0] == a[0] && (a + b)[1..] == a[1..] + b;
      var r := CreateOneSpec(cf, a[0], marshal, schemeOf);
      if r.1.None? {
        CreateServicesAppend(r.0, a[1..], b, marshal, schemeOf);
      }
    } else {
      assert a + b == b;
    }
  }

  /** The loop breaks on the first error: the services after it are not touched. */
  lemma StopsAtFirstError(cf: Cf, a: seq<Service>, b: seq<Service>, marshal: SC.Marshal, schemeOf: SC.SchemeOf)
    requires CreateServicesSpec(cf, a, marshal, schemeOf).1.Some?
    ensures CreateServicesSpec(cf, a + b, marshal, schemeOf) == CreateServicesSpec(cf, a, marshal, schemeOf)
  {
    CreateServicesAppend(cf, a, b, marshal, schemeOf);
  }

  /** A successful createServices issues the planned commands of the services it does not skip, in manifest order. */
  lemma {:induction false} CreateServicesSucceeded(cf: Cf, services: seq<Service>, marshal: SC.Marshal,
                                                   schemeOf: SC.SchemeOf)
    requires CreateServicesSpec(cf, services, marshal, schemeOf).1.None?
    ensures CreateServicesSpec(cf, services, marshal, schemeOf).0.commands
         == cf.commands + PlannedCommands(cf.services, services, marshal)
    decreases |services|
  {
    if services != [] {
      var s := services[0];
      var r := CreateOneSpec(cf, s, marshal, schemeOf);
      CreateOneStep(cf, s, marshal, schemeOf);
      CreateServicesSucceeded(r.0, services[1..], marshal, schemeOf);
      AppendAssoc(cf.commands,
                     if Skips(cf.services, s) then [] else [PlannedCommand(s, marshal)],
                     PlannedCommands(cf.services, services[1..], marshal));
    }
  }
}
