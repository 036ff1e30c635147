/**
 * The service reconciler (serviceCreator/serviceCreator.go). It walks the
 * manifest's services in order, dispatches on each one's type and stops at
 * the first error. Every creator first lists the existing services and skips
 * a service whose name exists unless it is to be updated; the update form of
 * a command is issued whenever `updateService` is set, whether or not the
 * service exists. A brokered service is followed by polling its last
 * operation until it succeeds or fails.
 *
 * The pure functions below (the *Spec functions, ReconcileSpec) specify the
 * methods; the lemmas state what a whole reconciliation promises.
 */
module ServiceCreator {
  import opened Wrappers
  import opened Strings
  import opened Sequences
  import opened Platform
  import opened ServiceManifest
  import ProgressReporter

  /** The errors the reconciler returns, one per error path of the source. */
  datatype CreateError =
    | GetServicesFailed
    | CommandFailed
    | GetServiceFailed
    | UnsupportedType(kind: string)
    | UrlParseFailed
    | RouteSchemeUnsupported
    | OperationFailed(description: string, state: string)

  /** encoding/json.Marshal of a credentials map (it cannot fail on a map of strings). */
  type Marshal = map<string, string> -> string

  /** net/url.Parse, reduced to what the route check reads: the scheme, or nothing when the URL does not parse. */
  type SchemeOf = string -> Option<string>

  /** The existence check of every creator: the name is listed and the service is not to be updated. */
  predicate Skips(existing: seq<string>, name: string, updateService: bool)
  {
    name in existing && !updateService
  }

  /** The types the reconciler knows; an empty type means brokered. */
  predicate IsSupported(kind: string)
  {
    kind == "credentials" || kind == "drain" || kind == "route" || kind == "brokered" || kind == ""
  }

  predicate IsUserProvided(kind: string)
  {
    kind == "credentials" || kind == "drain" || kind == "route"
  }

  /** `cups`/`uups NAME OPTION PAYLOAD -t TAGS`: the command of the three user-provided creators. */
  function UserProvidedCommand(name: string, option: string, payload: string, tags: string,
                               updateService: bool): seq<string>
  {
    [if updateService then "uups" else "cups", name, option, payload, "-t", tags]
  }

  /** The optional arguments of a brokered service: `-t TAGS` then `-c PARAMS`, each only when not empty. */
  function OptionalArgs(tags: string, jsonParam: string): (r: seq<string>)
    ensures |r| == (if tags != "" then 2 else 0) + (if jsonParam != "" then 2 else 0)
    ensures tags != "" ==> r[..2] == ["-t", tags]
    ensures jsonParam != "" ==> r[|r| - 2..] == ["-c", jsonParam]
  {
    (if tags != "" then ["-t", tags] else []) + (if jsonParam != "" then ["-c", jsonParam] else [])
  }

  /** `update-service NAME ...` or `create-service BROKER PLAN NAME ...`. */
  function BrokeredCommand(name: string, broker: string, plan: string, jsonParam: string, tags: string,
                           updateService: bool): seq<string>
  {
    (if updateService then ["update-service", name] else ["create-service", broker, plan, name])
      + OptionalArgs(tags, jsonParam)
  }

  /** `c.run(args...)`: the command's effect and its error. */
  function RunSpec(cf: Cf, args: seq<string>): (Cf, Option<CreateError>)
  {
    var r := Command(cf, args);
    (r.0, if r.1 then None else Some(CommandFailed))
  }

  /** createUserProvidedCredentialsService. */
  function CredentialsSpec(cf: Cf, name: string, credentials: map<string, string>, tags: string,
                           updateService: bool, marshal: Marshal): (Cf, Option<CreateError>)
  {
    if cf.getServicesFails then (cf, Some(GetServicesFailed))
    else if Skips(cf.services, name, updateService) then (cf, None)
    else RunSpec(cf, UserProvidedCommand(name, "-p", marshal(credentials), tags, updateService))
  }

  /** createUserProvidedRouteService: the scheme is checked after the existence check. */
  function RouteSpec(cf: Cf, name: string, url: string, tags: string, updateService: bool,
                     schemeOf: SchemeOf): (Cf, Option<CreateError>)
  {
    if cf.getServicesFails then (cf, Some(GetServicesFailed))
    else if Skips(cf.services, name, updateService) then (cf, None)
    else
      match schemeOf(url)
      case None => (cf, Some(UrlParseFailed))
      case Some(scheme) =>
        if !IsHttpsScheme(scheme) then (cf, Some(RouteSchemeUnsupported))
        else RunSpec(cf, UserProvidedCommand(name, "-r", url, tags, updateService))
  }

  /** createUserProvidedLogDrainService. */
  function DrainSpec(cf: Cf, name: string, url: string, tags: string, updateService: bool): (Cf, Option<CreateError>)
  {
    if cf.getServicesFails then (cf, Some(GetServicesFailed))
    else if Skips(cf.services, name, updateService) then (cf, None)
    else RunSpec(cf, UserProvidedCommand(name, "-l", url, tags, updateService))
  }

  /** The poll loop of createService: it ends on "succeeded", on "failed" and on a GetService error. */
  function PollSpec(cf: Cf): (Cf, Option<CreateError>)
    decreases |cf.polls|
  {
    if cf.polls == [] then (cf, Some(GetServiceFailed))
    else
      var next := cf.(polls := cf.polls[1..]);
      match cf.polls[0]
      case PollFailed => (next, Some(GetServiceFailed))
      case Answer(op) =>
        if op.state == "succeeded" then (next, None)
        else if op.state == "failed" then (next, Some(OperationFailed(op.description, op.state)))
        else PollSpec(next)
  }

  /** createService: the command, then, when it succeeded, the poll loop. */
  function BrokeredSpec(cf: Cf, name: string, broker: string, plan: string, jsonParam: string, tags: string,
                        updateService: bool): (Cf, Option<CreateError>)
  {
    if cf.getServicesFails then (cf, Some(GetServicesFailed))
    else if Skips(cf.services, name, updateService) then (cf, None)
    else
      var r := RunSpec(cf, BrokeredCommand(name, broker, plan, jsonParam, tags, updateService));
      if r.1.Some? then r else PollSpec(r.0)
  }

  /** The body of the loop of createServices: the creator the service's type selects. */
  function CreateOneSpec(cf: Cf, s: Service, marshal: Marshal, schemeOf: SchemeOf): (Cf, Option<CreateError>)
  {
    if s.kind == "credentials" then CredentialsSpec(cf, s.serviceName, s.credentials, s.tags, s.updateService, marshal)
    else if s.kind == "drain" then DrainSpec(cf, s.serviceName, s.url, s.tags, s.updateService)
    else if s.kind == "route" then RouteSpec(cf, s.serviceName, s.url, s.tags, s.updateService, schemeOf)
    else if s.kind == "brokered" || s.kind == "" then
      BrokeredSpec(cf, s.serviceName, s.broker, s.planName, s.jsonParameters, s.tags, s.updateService)
    else (cf, Some(UnsupportedType(s.kind)))
  }

  /** createServices: the services in order, up to and including the first that fails. */
  function ReconcileSpec(cf: Cf, services: seq<Service>, marshal: Marshal, schemeOf: SchemeOf): (Cf, Option<CreateError>)
    decreases |services|
  {
    if services == [] then (cf, None)
    else
      var r := CreateOneSpec(cf, services[0], marshal, schemeOf);
      if r.1.Some? then r else ReconcileSpec(r.0, services[1..], marshal, schemeOf)
  }

  /** The descriptions the poll loop hands to the progress reporter: one per answer it reads. */
  function PollMessages(polls: seq<Poll>): seq<string>
    decreases |polls|
  {
    if polls == [] then []
    else
      match polls[0]
      case PollFailed => []
      case Answer(op) =>
        [op.description] +
          if op.state == "succeeded" || op.state == "failed" then [] else PollMessages(polls[1..])
  }

  /** The descriptions one service hands to the progress reporter: only a brokered command that succeeded polls. */
  function CreateOneMessages(cf: Cf, s: Service): seq<string>
  {
    if (s.kind == "brokered" || s.kind == "") && !cf.getServicesFails
       && !Skips(cf.services, s.serviceName, s.updateService) && !cf.commandFails
    then PollMessages(cf.polls)
    else []
  }

  /** The descriptions a reconciliation hands to the progress reporter, in order. */
  function ReconcileMessages(cf: Cf, services: seq<Service>, marshal: Marshal, schemeOf: SchemeOf): seq<string>
    decreases |services|
  {
    if services == [] then []
    else
      var r := CreateOneSpec(cf, services[0], marshal, schemeOf);
      CreateOneMessages(cf, services[0])
        + if r.1.Some? then [] else ReconcileMessages(r.0, services[1..], marshal, schemeOf)
  }

  // ---------------------------------------------------------------------
  // The reconciler object.
  // ---------------------------------------------------------------------

  /** The loop over the existing services' names that decides to skip a service. */
  method ShouldSkip(existing: seq<string>, name: string, updateService: bool) returns (skip: bool)
    ensures skip <==> Skips(existing, name, updateService)
  {
    var i := 0;
    while i < |existing|
      invariant 0 <= i <= |existing|
      invariant forall j :: 0 <= j < i ==> !(existing[j] == name && !updateService)
    {
      if existing[i] == name && !updateService {
        return true;
      }
      i := i + 1;
    }
    return false;
  }

  /** The poll loop after a brokered command: GetService until "succeeded" or "failed". */
  method PollUntilDone(cf: Connection, reporter: ProgressReporter.ProgressReporter, name: string)
    returns (err: Option<CreateError>)
    modifies cf, reporter
    ensures (cf.State(), err) == PollSpec(old(cf.State()))
    ensures reporter.State() == ProgressReporter.Steps(old(reporter.State()), PollMessages(old(cf.polls)))
  {
    while true
      invariant PollSpec(cf.State()) == PollSpec(old(cf.State()))
      invariant ProgressReporter.Steps(reporter.State(), PollMessages(cf.polls))
             == ProgressReporter.Steps(old(reporter.State()), PollMessages(old(cf.polls)))
      decreases |cf.polls|
    {
      var p := cf.GetService(name);
      match p
      case PollFailed =>
        return Some(GetServiceFailed);
      case Answer(op) =>
        reporter.Step(op.description);
        if op.state == "succeeded" {
          return None;
        } else if op.state == "failed" {
          return Some(OperationFailed(op.description, op.state));
        }
    }
  }

  class ServiceCreator {
    const manifest: Manifest
    const cf: Connection
    const marshal: Marshal
    const schemeOf: SchemeOf
    const progressReporter: ProgressReporter.ProgressReporter

    /** The record CreateServices builds: the manifest, the connection and a new progress reporter. */
    constructor (manifest: Manifest, cf: Connection, marshal: Marshal, schemeOf: SchemeOf)
      ensures this.manifest == manifest && this.cf == cf && this.marshal == marshal && this.schemeOf == schemeOf
      ensures fresh(progressReporter) && progressReporter.State() == ProgressReporter.ReporterState("|", "", [])
    {
      this.manifest := manifest;
      this.cf := cf;
      this.marshal := marshal;
      this.schemeOf := schemeOf;
      progressReporter := new ProgressReporter.ProgressReporter();
    }

    /** `c.run(args...)`. */
    method Run(args: seq<string>) returns (err: Option<CreateError>)
      modifies cf
      ensures (cf.State(), err) == RunSpec(old(cf.State()), args)
    {
      var ok := cf.CliCommand(args);
      err := if ok then None else Some(CommandFailed);
    }

    method CreateUserProvidedCredentialsService(name: string, credentials: map<string, string>, tags: string,
                                                updateService: bool)
      returns (err: Option<CreateError>)
      modifies cf
      ensures (cf.State(), err) == CredentialsSpec(old(cf.State()), name, credentials, tags, updateService, marshal)
    {
      var s := cf.GetServices();
      if s.None? {
        return Some(GetServicesFailed);
      }
      var skip := ShouldSkip(s.value, name, updateService);
      if skip {
        return None;
      }
      err := Run(UserProvidedCommand(name, "-p", marshal(credentials), tags, updateService));
    }

    method CreateUserProvidedRouteService(name: string, url: string, tags: string, updateService: bool)
      returns (err: Option<CreateError>)
      modifies cf
      ensures (cf.State(), err) == RouteSpec(old(cf.State()), name, url, tags, updateService, schemeOf)
    {
      var s := cf.GetServices();
      if s.None? {
        return Some(GetServicesFailed);
      }
      var skip := ShouldSkip(s.value, name, updateService);
      if skip {
        return None;
      }
      var scheme := schemeOf(url);
      if scheme.None? {
        return Some(UrlParseFailed);
      }
      if ToLowerAscii(scheme.value) != "https" {
        return Some(RouteSchemeUnsupported);
      }
      err := Run(UserProvidedCommand(name, "-r", url, tags, updateService));
    }

    method CreateUserProvidedLogDrainService(name: string, url: string, tags: string, updateService: bool)
      returns (err: Option<CreateError>)
      modifies cf
      ensures (cf.State(), err) == DrainSpec(old(cf.State()), name, url, tags, updateService)
    {
      var s := cf.GetServices();
      if s.None? {
        return Some(GetServicesFailed);
      }
      var skip := ShouldSkip(s.value, name, updateService);
      if skip {
        return None;
      }
      err := Run(UserProvidedCommand(name, "-l", url, tags, updateService));
    }

    method CreateService(name: string, broker: string, plan: string, jsonParam: string, tags: string,
                         updateService: bool)
      returns (err: Option<CreateError>)
      modifies cf, progressReporter
      ensures (cf.State(), err) == BrokeredSpec(old(cf.State()), name, broker, plan, jsonParam, tags, updateService)
      ensures progressReporter.State() == ProgressReporter.Steps(old(progressReporter.State()),
        CreateOneMessages(old(cf.State()), Service(name, "", broker, plan, "", updateService, map[], tags, jsonParam)))
    {
      var s := cf.GetServices();
      if s.None? {
        return Some(GetServicesFailed);
      }
      var skip := ShouldSkip(s.value, name, updateService);
      if skip {
        return None;
      }
      var optionalArgs: seq<string> := [];
      if tags != "" {
        optionalArgs := optionalArgs + ["-t"];
        optionalArgs := optionalArgs + [tags];
      }
      if jsonParam != "" {
        optionalArgs := optionalArgs + ["-c"];
        optionalArgs := optionalArgs + [jsonParam];
      }
      assert optionalArgs == OptionalArgs(tags, jsonParam);
      if updateService {
        err := Run(["update-service", name] + optionalArgs);
      } else {
        err := Run(["create-service", broker, plan, name] + optionalArgs);
      }
      if err.Some? {
        return err;
      }
      err := PollUntilDone(cf, progressReporter, name);
    }

    /** The dispatch on the service's type in the loop of createServices. */
    method CreateOne(s: Service) returns (err: Option<CreateError>)
      modifies cf, progressReporter
      ensures (cf.State(), err) == CreateOneSpec(old(cf.State()), s, marshal, schemeOf)
      ensures progressReporter.State()
           == ProgressReporter.Steps(old(progressReporter.State()), CreateOneMessages(old(cf.State()), s))
    {
      if s.kind == "credentials" {
        err := CreateUserProvidedCredentialsService(s.serviceName, s.credentials, s.tags, s.updateService);
      } else if s.kind == "drain" {
        err := CreateUserProvidedLogDrainService(s.serviceName, s.url, s.tags, s.updateService);
      } else if s.kind == "route" {
        err := CreateUserProvidedRouteService(s.serviceName, s.url, s.tags, s.updateService);
      } else if s.kind == "brokered" || s.kind == "" {
        err := CreateService(s.serviceName, s.broker, s.planName, s.jsonParameters, s.tags, s.updateService);
      } else {
        err := Some(UnsupportedType(s.kind));
      }
    }

    /** createServices: the loop over the manifest that breaks on the first error. */
    method CreateServices() returns (err: Option<CreateError>)
      modifies cf, progressReporter
      ensures (cf.State(), err) == ReconcileSpec(old(cf.State()), manifest.services, marshal, schemeOf)
      ensures progressReporter.State() == ProgressReporter.Steps(old(progressReporter.State()),
        ReconcileMessages(old(cf.State()), manifest.services, marshal, schemeOf))
    {
      var services := manifest.services;
      err := None;
      var i := 0;
      while i < |services|
        invariant 0 <= i <= |services|
        invariant err.None?
        invariant ReconcileSpec(cf.State(), services[i..], marshal, schemeOf)
               == ReconcileSpec(old(cf.State()), services, marshal, schemeOf)
        invariant ProgressReporter.Steps(progressReporter.State(), ReconcileMessages(cf.State(), services[i..], marshal, schemeOf))
               == ProgressReporter.Steps(old(progressReporter.State()), ReconcileMessages(old(cf.State()), services, marshal, schemeOf))
      {
        assert services[i..][0] == services[i] && services[i..][1..] == services[i + 1..];
        ghost var before := cf.State();
        ghost var shown := progressReporter.State();
        err := CreateOne(services[i]);
        assert (cf.State(), err) == CreateOneSpec(before, services[i], marshal, schemeOf);
        ProgressReporter.StepsAppend(shown, CreateOneMessages(before, services[i]),
          if err.Some? then [] else ReconcileMessages(cf.State(), services[i + 1..], marshal, schemeOf));
        if err.Some? {
          assert CreateOneMessages(before, services[i]) + [] == CreateOneMessages(before, services[i]);
          return;
        }
        i := i + 1;
      }
    }
  }

  /** CreateServices(manifest, cf): a reconciler for the manifest, run once. */
  method CreateServices(manifest: Manifest, cf: Connection, marshal: Marshal, schemeOf: SchemeOf)
    returns (err: Option<CreateError>)
    modifies cf
    ensures (cf.State(), err) == ReconcileSpec(old(cf.State()), manifest.services, marshal, schemeOf)
  {
    var creator := new ServiceCreator(manifest, cf, marshal, schemeOf);
    err := creator.CreateServices();
  }

  // ---------------------------------------------------------------------
  // What a reconciliation issues, as independent definitions.
  // ---------------------------------------------------------------------

  /** The command the creator for `s` issues when it does not skip it. */
  function PlannedCommand(s: Service, marshal: Marshal): (r: seq<string>)
    ensures |r| >= 2
    ensures (r[0] == "uups" || r[0] == "update-service") <==> s.updateService
    ensures s.serviceName in r
    ensures IsUserProvided(s.kind) ==> r[|r| - 2..] == ["-t", s.tags]
  {
    if s.kind == "credentials" then UserProvidedCommand(s.serviceName, "-p", marshal(s.credentials), s.tags, s.updateService)
    else if s.kind == "drain" then UserProvidedCommand(s.serviceName, "-l", s.url, s.tags, s.updateService)
    else if s.kind == "route" then UserProvidedCommand(s.serviceName, "-r", s.url, s.tags, s.updateService)
    else BrokeredCommand(s.serviceName, s.broker, s.planName, s.jsonParameters, s.tags, s.updateService)
  }

  /** The commands of the services that are not skipped, in manifest order. */
  function PlannedCommands(existing: seq<string>, services: seq<Service>, marshal: Marshal): seq<seq<string>>
    decreases |services|
  {
    if services == [] then []
    else
      var s := services[0];
      (if Skips(existing, s.serviceName, s.updateService) then [] else [PlannedCommand(s, marshal)])
        + PlannedCommands(existing, services[1..], marshal)
  }

  /**
   * What any step leaves of the connection: the same services and failure
   * switches, the command log extended, the poll script shortened from the front.
   */
  predicate Follows(before: Cf, after: Cf)
  {
    && after.services == before.services
    && after.getServicesFails == before.getServicesFails
    && after.commandFails == before.commandFails
    && before.commands <= after.commands
    && |after.polls| <= |before.polls|
    && after.polls == before.polls[|before.polls| - |after.polls|..]
  }

  /** An answer that ends the poll loop. */
  predicate Terminal(p: Poll)
  {
    p.PollFailed? || p.op.state == "succeeded" || p.op.state == "failed"
  }

  /** The error the poll loop returns on a terminal answer. */
  function TerminalError(p: Poll): Option<CreateError>
    requires Terminal(p)
  {
    match p
    case PollFailed => Some(GetServiceFailed)
    case Answer(op) => if op.state == "succeeded" then None else Some(OperationFailed(op.description, op.state))
  }

  // ---------------------------------------------------------------------
  // Lemmas: polling.
  // ---------------------------------------------------------------------

  lemma FollowsTransitive(a: Cf, b: Cf, c: Cf)
    requires Follows(a, b) && Follows(b, c)
    ensures Follows(a, c)
  {
    var k := |a.polls| - |b.polls|;
    assert c.polls == a.polls[k..][|b.polls| - |c.polls|..];
  }

  /** Polling only consumes answers: it issues no command and changes nothing else. */
  lemma {:induction false} PollConsumesOnly(cf: Cf)
    ensures var r := PollSpec(cf).0;
      r == cf.(polls := r.polls) && Follows(cf, r)
    decreases |cf.polls|
  {
    if cf.polls != [] {
      var next := cf.(polls := cf.polls[1..]);
      PollConsumesOnly(next);
      FollowsTransitive(cf, next, PollSpec(next).0);
    }
  }

  /** The poll loop stops at the first terminal answer and returns what that answer says. */
  lemma {:induction false} PollStopsAtFirstTerminal(cf: Cf, i: nat)
    requires i < |cf.polls| && Terminal(cf.polls[i])
    requires forall j :: 0 <= j < i ==> !Terminal(cf.polls[j])
    ensures PollSpec(cf) == (cf.(polls := cf.polls[i + 1..]), TerminalError(cf.polls[i]))
    decreases i
  {
    if i > 0 {
      var next := cf.(polls := cf.polls[1..]);
      assert !Terminal(cf.polls[0]);
      assert forall j :: 0 <= j < i - 1 ==> next.polls[j] == cf.polls[j + 1];
      PollStopsAtFirstTerminal(next, i - 1);
      assert next.polls[i..] == cf.polls[i + 1..];
    }
  }

  /** A script with no terminal answer is read to its end, where GetService fails. */
  lemma {:induction false} PollExhausted(cf: Cf)
    requires forall j :: 0 <= j < |cf.polls| ==> !Terminal(cf.polls[j])
    ensures PollSpec(cf) == (cf.(polls := []), Some(GetServiceFailed))
    decreases |cf.polls|
  {
    if cf.polls != [] {
      var next := cf.(polls := cf.polls[1..]);
      assert !Terminal(cf.polls[0]);
      assert forall j :: 0 <= j < |next.polls| ==> next.polls[j] == cf.polls[j + 1];
      PollExhausted(next);
    }
  }

  // ---------------------------------------------------------------------
  // Lemmas: one service.
  // ---------------------------------------------------------------------

  /**
   * The three shapes of one step `r` from `cf`: nothing, the command `p`, or
   * `p` followed by polling (a brokered command that succeeded).
   */
  predicate StepShape(cf: Cf, s: Service, p: seq<string>, r: (Cf, Option<CreateError>))
  {
    var c := Command(cf, p).0;
    if cf.getServicesFails || !IsSupported(s.kind) then r.0 == cf && r.1.Some?
    else if Skips(cf.services, s.serviceName, s.updateService) then r == (cf, None)
    else if IsUserProvided(s.kind) || cf.commandFails then (r.0 == cf && r.1.Some?) || (r.0 == c && (r.1.None? <==> !cf.commandFails))
    else r == PollSpec(c)
  }

  /** Every service's effect has one of the three shapes, with its planned command. */
  lemma CreateOneShape(cf: Cf, s: Service, marshal: Marshal, schemeOf: SchemeOf)
    ensures StepShape(cf, s, PlannedCommand(s, marshal), CreateOneSpec(cf, s, marshal, schemeOf))
  {
  }

  /** A step of any of the three shapes leaves the connection as Follows says, and logs `p` when it succeeds without skipping. */
  lemma ShapeFollows(cf: Cf, s: Service, p: seq<string>, r: (Cf, Option<CreateError>))
    requires StepShape(cf, s, p, r)
    ensures Follows(cf, r.0)
    ensures r.1.None? ==>
              r.0.commands == cf.commands + (if Skips(cf.services, s.serviceName, s.updateService) then [] else [p])
  {
    var c := Command(cf, p).0;
    assert cf.polls[0..] == cf.polls;
    if cf.getServicesFails || !IsSupported(s.kind) || Skips(cf.services, s.serviceName, s.updateService) {
      assert r.0 == cf;
    } else if IsUserProvided(s.kind) || cf.commandFails {
      assert Follows(cf, c);
    } else {
      assert Follows(cf, c) && c.commands == cf.commands + [p];
      PollConsumesOnly(c);
      FollowsTransitive(cf, c, PollSpec(c).0);
    }
  }

  /** One service leaves the connection as Follows says, and, when it succeeds, has issued its planned command unless it skipped. */
  lemma CreateOneStep(cf: Cf, s: Service, marshal: Marshal, schemeOf: SchemeOf)
    ensures var r := CreateOneSpec(cf, s, marshal, schemeOf);
      && Follows(cf, r.0)
      && (r.1.None? ==>
            r.0.commands == cf.commands +
              (if Skips(cf.services, s.serviceName, s.updateService) then [] else [PlannedCommand(s, marshal)]))
  {
    CreateOneShape(cf, s, marshal, schemeOf);
    ShapeFollows(cf, s, PlannedCommand(s, marshal), CreateOneSpec(cf, s, marshal, schemeOf));
  }

  /**
   * A service of a known type is left alone, with success and no command,
   * exactly when its name is listed and it is not to be updated.
   */
  lemma SkipsExactly(cf: Cf, s: Service, marshal: Marshal, schemeOf: SchemeOf)
    requires !cf.getServicesFails && IsSupported(s.kind)
    ensures var r := CreateOneSpec(cf, s, marshal, schemeOf);
      (r.1.None? && r.0.commands == cf.commands) <==> Skips(cf.services, s.serviceName, s.updateService)
  {
    CreateOneStep(cf, s, marshal, schemeOf);
  }

  /**
   * A route that is not skipped fails without a command exactly when its URL
   * does not parse or its scheme is not https in any letter case; otherwise
   * its command is issued.
   */
  lemma RouteSchemeChecked(cf: Cf, s: Service, marshal: Marshal, schemeOf: SchemeOf)
    requires !cf.getServicesFails && s.kind == "route" && !Skips(cf.services, s.serviceName, s.updateService)
    ensures var r := CreateOneSpec(cf, s, marshal, schemeOf);
      var https := schemeOf(s.url).Some? && IsHttpsScheme(schemeOf(s.url).value);
      && ((r.1.Some? && r.0 == cf) <==> !https)
      && (https ==> r.0.commands == cf.commands + [PlannedCommand(s, marshal)])
  {
    var r := CreateOneSpec(cf, s, marshal, schemeOf);
    if schemeOf(s.url).Some? && IsHttpsScheme(schemeOf(s.url).value) {
      assert |r.0.commands| == |cf.commands| + 1;
    }
  }

  /** A brokered command that fails is not followed by polling. */
  lemma BrokeredFailureSkipsPolling(cf: Cf, s: Service, marshal: Marshal, schemeOf: SchemeOf)
    requires !cf.getServicesFails && (s.kind == "brokered" || s.kind == "")
    requires !Skips(cf.services, s.serviceName, s.updateService) && cf.commandFails
    ensures CreateOneSpec(cf, s, marshal, schemeOf)
         == (cf.(commands := cf.commands + [PlannedCommand(s, marshal)]), Some(CommandFailed))
  {
  }

  // ---------------------------------------------------------------------
  // Lemmas: whole reconciliations.
  // ---------------------------------------------------------------------

  /** A reconciliation leaves the connection as Follows says. */
  lemma {:induction false} ReconcileFollows(cf: Cf, services: seq<Service>, marshal: Marshal, schemeOf: SchemeOf)
    ensures Follows(cf, ReconcileSpec(cf, services, marshal, schemeOf).0)
    decreases |services|
  {
    if services != [] {
      var r := CreateOneSpec(cf, services[0], marshal, schemeOf);
      CreateOneStep(cf, services[0], marshal, schemeOf);
      if r.1.None? {
        ReconcileFollows(r.0, services[1..], marshal, schemeOf);
        FollowsTransitive(cf, r.0, ReconcileSpec(r.0, services[1..], marshal, schemeOf).0);
      }
    }
  }

  /** Reconciling `a + b` is reconciling `a`, then, unless it failed, `b`. */
  lemma {:induction false} ReconcileAppend(cf: Cf, a: seq<Service>, b: seq<Service>, marshal: Marshal, schemeOf: SchemeOf)
    ensures ReconcileSpec(cf, a + b, marshal, schemeOf) ==
      var r := ReconcileSpec(cf, a, marshal, schemeOf);
      if r.1.Some? then r else ReconcileSpec(r.0, b, marshal, schemeOf)
    decreases |a|
  {
    if a != [] {
      assert (a + b)[0] == a[0] && (a + b)[1..] == a[1..] + b;
      var r := CreateOneSpec(cf, a[0], marshal, schemeOf);
      if r.1.None? {
        ReconcileAppend(r.0, a[1..], b, marshal, schemeOf);
      }
    } else {
      assert a + b == b;
    }
  }

  /** After the first failing service nothing more happens: the services after it are not touched. */
  lemma LaterServicesUntouched(cf: Cf, a: seq<Service>, b: seq<Service>, marshal: Marshal, schemeOf: SchemeOf)
    requires ReconcileSpec(cf, a, marshal, schemeOf).1.Some?
    ensures ReconcileSpec(cf, a + b, marshal, schemeOf) == ReconcileSpec(cf, a, marshal, schemeOf)
  {
    ReconcileAppend(cf, a, b, marshal, schemeOf);
  }

  /** A successful reconciliation issues the planned commands of the services it does not skip, in manifest order. */
  lemma {:induction false} ReconcileSucceeded(cf: Cf, services: seq<Service>, marshal: Marshal, schemeOf: SchemeOf)
    requires ReconcileSpec(cf, services, marshal, schemeOf).1.None?
    ensures ReconcileSpec(cf, services, marshal, schemeOf).0.commands
         == cf.commands + PlannedCommands(cf.services, services, marshal)
    decreases |services|
  {
    if services != [] {
      var s := services[0];
      var r := CreateOneSpec(cf, s, marshal, schemeOf);
      CreateOneStep(cf, s, marshal, schemeOf);
      ReconcileSucceeded(r.0, services[1..], marshal, schemeOf);
      AppendAssoc(cf.commands,
                  if Skips(cf.services, s.serviceName, s.updateService) then [] else [PlannedCommand(s, marshal)],
                  PlannedCommands(cf.services, services[1..], marshal));
    }
  }

  /**
   * Reconciling services that all exist and are not to be updated issues no
   * command and changes nothing: running it again after a success is harmless.
   */
  lemma {:induction false} ExistingServicesLeftAlone(cf: Cf, services: seq<Service>, marshal: Marshal, schemeOf: SchemeOf)
    requires !cf.getServicesFails
    requires forall i :: 0 <= i < |services| ==>
      IsSupported(services[i].kind) && Skips(cf.services, services[i].serviceName, services[i].updateService)
    ensures ReconcileSpec(cf, services, marshal, schemeOf) == (cf, None)
    decreases |services|
  {
    if services != [] {
      assert forall i :: 0 <= i < |services[1..]| ==> services[1..][i] == services[i + 1];
      ExistingServicesLeftAlone(cf, services[1..], marshal, schemeOf);
    }
  }

  /**
   * When GetServices fails, the first service fails (with that error, or as
   * an unsupported type) before any command; an empty manifest succeeds.
   */
  lemma GetServicesFailureIssuesNothing(cf: Cf, services: seq<Service>, marshal: Marshal, schemeOf: SchemeOf)
    requires cf.getServicesFails
    ensures ReconcileSpec(cf, services, marshal, schemeOf) ==
      (cf, if services == [] then None
           else if IsSupported(services[0].kind) then Some(GetServicesFailed)
           else Some(UnsupportedType(services[0].kind)))
  {
  }

  /** A service of an unknown type fails with that type named, before any call on the connection. */
  lemma UnsupportedTypeIssuesNothing(cf: Cf, s: Service, marshal: Marshal, schemeOf: SchemeOf)
    requires !IsSupported(s.kind)
    ensures CreateOneSpec(cf, s, marshal, schemeOf) == (cf, Some(UnsupportedType(s.kind)))
  {
  }
}
