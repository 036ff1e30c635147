# create-service-push, modelled in Dafny

`create-service-push` is a Cloud Foundry CLI plugin. It reads a services
manifest, creates (or updates) the services it lists through the CLI
connection, and then runs `cf push` with the arguments the plugin does not
consume itself. This project models the plugin's core and proves
properties of that model:

- `csp_arguments.dfy`: the argument processor `CSPArguments`. It stops at
  the uninstall sentinel, checks the command name, and scans the flags
  `--var`, `--vars-file`, `--use-env-vars-prefixed-with`, `--no-push`, `--push-as-subprocess`,
  `--no-service-manifest` and `--service-manifest`. Immediate handlers run
  during the scan; `--var` and `--vars-file` are deferred and run last in,
  first out. The first error by token position is returned.
- `service_creator.dfy`: the reconciler `ServiceCreator`. Each manifest
  service is handled by type: `credentials`, `drain` and `route` become
  `cups`/`uups`, and `brokered` or an empty type becomes
  `create-service`/`update-service`. Brokered services then poll
  `GetService` until the last operation succeeds or fails. The loop stops at
  the first error.
- `create_service_push.dfy`: the orchestrator `CreateServicePush.Run`. It
  processes arguments, optionally creates a parser, parses the manifest and
  creates the services, then pushes, either in process or as a subprocess.
  The exit handler's `HandleError`/`HandleOK` end the process.
- `legacy_plugin.dfy`: the older single-file plugin. It has its own
  argument loop over three flags, calls `os.Exit(1)` on each error, and
  reports brokered progress with a fresh spinner per service.
- `glyphs.dfy`, `progress_reporter.dfy`, `progress_repoter.dfy`,
  `progress_spinner.dfy`: the three revisions of the progress spinner. All
  cycle `| / - \`. They differ in whether the glyph is shown before or after
  the state advances, and in where the lines go.
- `platform.dfy`, `service_manifest.dfy`, `strings.dfy`, `wrappers.dfy`,
  `sequences.dfy`:
  - the CLI connection, modelled on the plugin's mock: it holds the known
    service names, scripted `GetService` answers, a failure switch, and the
    log of issued commands;
  - the manifest's service record;
  - the string helpers;
  - `Option`;
  - the associativity of sequence concatenation.

Each class method is proved against a pure function of the old state: the
new state and the result equal `XSpec(old(State()), …)`. The lemmas then
state what the source promises about those functions.

In these places the model follows the code as written:

- `--no-service-manifest` sets `DoNotCreateServices` but leaves
  `ServiceManifestFilename` as it was (cspArguments/cspArguments.go:184-198).
- `CreateServicePush.Run` has no `return` after `HandleError`/`HandleOK`.
  `RunTrace` therefore records what the code would call next. `Effective`
  cuts that trace at the first exit call, because the real handler calls
  `os.Exit`, and `ExitCode` gives its status.
  The collaborators keep that trace as a ghost log of calls and commands
  in one order; the `push` command is entered in it at the `CliCommand`
  call, since the connection keeps its own command log.
- In the subprocess push, `cwd, err := os.Getwd()`
  (createServicePush/createServicePush.go:104) declares a second `err`
  inside the branch. The child's failure (:128) is stored in it, while the
  check at :137-140 reads the outer `err`, which stays nil. So only a
  failure to read the working directory or to find `cf` calls
  `HandleError`, before the child starts. A failing child is not reported
  and the run exits 0 (`ChildFailureUnreported`).
- In the older plugin, a failing `push` is only reported and does not exit.
  Its user-provided services are never updated and carry no tags.
- In the older plugin's argument loop, the conflict check comes before the
  name check. A manifest name is refused only when it starts with `--`, not
  `-`.

## Model

| member | source | states |
|---|---|---|
| CspArguments.Lookup | cspArguments/cspArguments.go:39-230 | a token names a flag exactly when it is one of the seven flag strings, and then the flag's string is that token |
| CspArguments.Layout | cspArguments/cspArguments.go:287-306 | every token the scan takes as a flag sits at a position, at or after the start, whose token names that flag |
| CspArguments.FirstErr | cspArguments/cspArguments.go:308-315 | no error is returned exactly when every slot is empty; otherwise the result is the error in the lowest-index filled slot |
| CspArguments.FirstError | cspArguments/cspArguments.go:308-315 | the loop over `errArray` returns the first error by slot order |
| CspArguments.RunDeferred | cspArguments/cspArguments.go:291-294 | running the deferred handlers keeps one error slot per token |
| CspArguments.CSPArguments.constructor | cspArguments/cspArguments.go:39-41 | a fresh processor has empty settings: no flags processed, no variables, no forwarded arguments |
| CspArguments.CSPArguments.HandleVar | cspArguments/cspArguments.go:51-93 | `--var`: fails without a following argument, without `=` in it, or when its value is empty or a space and a further non-flag token follows; otherwise binds the key before the first `=` and forwards the pair only under `--push-as-subprocess` |
| CspArguments.CSPArguments.HandleVarsFile | cspArguments/cspArguments.go:95-124 | `--vars-file`: needs a following path that does not start with `-`; records it, and forwards the pair only under `--push-as-subprocess` |
| CspArguments.CSPArguments.HandleUseEnv | cspArguments/cspArguments.go:126-149 | `--use-env-vars-prefixed-with`: needs a prefix argument; binds every environment entry carrying the prefix, key before the first `=` |
| CspArguments.CSPArguments.HandleNoPush | cspArguments/cspArguments.go:151-165 | `--no-push` fails when `--push-as-subprocess` was processed, otherwise sets DoNotPush |
| CspArguments.CSPArguments.HandlePushAsSubprocess | cspArguments/cspArguments.go:167-182 | `--push-as-subprocess` fails when `--no-push` was processed, otherwise sets PushAsSubProcess |
| CspArguments.CSPArguments.HandleNoServiceManifest | cspArguments/cspArguments.go:184-198 | `--no-service-manifest` fails after `--service-manifest`, otherwise sets DoNotCreateServices and keeps the filename |
| CspArguments.CSPArguments.HandleServiceManifest | cspArguments/cspArguments.go:200-227 | `--service-manifest` fails after `--no-service-manifest`, without a name, or when the name starts with `-`; otherwise it sets the filename |
| CspArguments.CSPArguments.Handle | cspArguments/cspArguments.go:287-306 | dispatch of a flag to its handler, as the flag table does |
| CspArguments.CSPArguments.ScanToken | cspArguments/cspArguments.go:289-304 | one loop turn: a deferred flag is pushed on the stack, an immediate one runs and a failure stops the scan, any other token is forwarded |
| CspArguments.CSPArguments.ScanTokens | cspArguments/cspArguments.go:287-306 | the scan loop computes the scan fold of the token roles, with its defer stack |
| CspArguments.CSPArguments.RunDeferredHandlers | cspArguments/cspArguments.go:291-294 | the deferred calls run from the top of the stack down |
| CspArguments.CSPArguments.Process | cspArguments/cspArguments.go:267-316 | the uninstall sentinel only sets IsUninstallingPlugin; any other command name fails and changes nothing; otherwise scan, deferred handlers, first error |
| CspArguments.EnvLastMatchWins | cspArguments/cspArguments.go:133-141 | of several environment entries with the prefix and the same key, the last one sets the binding |
| CspArguments.EnvUnmatchedKeyKept | cspArguments/cspArguments.go:133-141 | a key that no prefixed environment entry names keeps its earlier binding, or stays unbound |
| CspArguments.ImmediateStepSucceeded | cspArguments/cspArguments.go:151-227 | an immediate handler that succeeds sets only its own bit, forwards nothing, and keeps the exclusive pairs apart |
| CspArguments.DeferredStep | cspArguments/cspArguments.go:51-124 | one deferred handler: its error is its validation; it forwards only under `--push-as-subprocess`, binds its key, and changes no other setting |
| CspArguments.ScanKeepsShape | cspArguments/cspArguments.go:287-306 | the scan keeps one slot per token and puts an error behind every stop |
| CspArguments.ScanHead | cspArguments/cspArguments.go:289-304 | the scan over a list is its first step followed by the scan over the rest |
| CspArguments.ScanCompleted | cspArguments/cspArguments.go:287-306 | a scan that reaches the end has forwarded the plain tokens in order and stacked the deferred flags, the last on top |
| CspArguments.ScanCompletedFlags | cspArguments/cspArguments.go:287-306 | a scan that reaches the end has set exactly the bits of the immediate flags it met, and keeps the exclusive pairs apart |
| CspArguments.ScanCompletedManifest | cspArguments/cspArguments.go:200-227 | a scan that reaches the end leaves the name of the last `--service-manifest`, and every such flag had a valid name |
| CspArguments.RunDeferredFrame | cspArguments/cspArguments.go:291-294 | a deferred handler writes only its own error slot |
| CspArguments.DeferredTop | cspArguments/cspArguments.go:291-294 | running the stack is running its top handler first, then the rest |
| CspArguments.RunDeferredSlots | cspArguments/cspArguments.go:291-294 | each deferred flag's slot holds exactly its validation result |
| CspArguments.RunDeferredForwards | cspArguments/cspArguments.go:51-124 | the deferred handlers forward their valid pairs, top of the stack first, only under `--push-as-subprocess` |
| CspArguments.RunDeferredPaths | cspArguments/cspArguments.go:95-124 | the deferred handlers record the valid vars-file paths, top of the stack first |
| CspArguments.RunDeferredKeepsSettings | cspArguments/cspArguments.go:51-124 | the deferred handlers change neither the manifest name nor any bit other than `--var`/`--vars-file` |
| CspArguments.RunDeferredKeepsKey | cspArguments/cspArguments.go:51-93 | a key that no deferred `--var` binds keeps its binding |
| CspArguments.RunDeferredFirstVarWins | cspArguments/cspArguments.go:51-93 | a key is left bound by the deferred `--var` deepest in the stack that binds it |
| CspArguments.DeferredStackWellPlaced | cspArguments/cspArguments.go:291-294 | every stacked flag's position is a token position of the arguments |
| CspArguments.SuccessMeansNoFailedHandler | cspArguments/cspArguments.go:297-313 | a successful Process ran the scan to the end, and every deferred flag was valid |
| CspArguments.NoFailedHandlerMeansSuccess | cspArguments/cspArguments.go:287-316 | the converse: a scan that runs to the end with every deferred flag valid makes Process return no error |
| CspArguments.RunDeferredResult | cspArguments/cspArguments.go:291-294 | after the deferred handlers, a stacked position holds its flag's validation and every other slot keeps the scan's error |
| CspArguments.ScanStopsOnce | cspArguments/cspArguments.go:287-306 | a scan that stops holds exactly one error, at an immediate flag, and every flag it stacked lies before it |
| CspArguments.FirstErrAt | cspArguments/cspArguments.go:308-313 | the error in a slot with no error before it is the one returned |
| CspArguments.OnlyScanErrorReturned | cspArguments/cspArguments.go:291-313 | with every stacked flag valid and before the scan's only error, that error is returned |
| CspArguments.StoppedScanFails | cspArguments/cspArguments.go:287-316 | when the scan stops at an immediate flag at position p, that is its only error, every stacked flag lies before p, and with no invalid stacked flag Process returns the error at p |
| CspArguments.LowestDeferredFailureWins | cspArguments/cspArguments.go:287-316 | an invalid stacked flag with no invalid stacked flag before it is the error Process returns, whether or not the scan stopped |
| CspArguments.ProcessForwards | cspArguments/cspArguments.go:267-316 | after success, OtherCFArgs holds the plain tokens in order, then, only under `--push-as-subprocess`, each `--var`/`--vars-file` pair, the last on the line first |
| CspArguments.ProcessVarsFiles | cspArguments/cspArguments.go:95-124 | after success, the vars-file paths are recorded, the last on the line first |
| CspArguments.ProcessManifestName | cspArguments/cspArguments.go:200-227 | after success, the manifest name is the argument of the last `--service-manifest`, or the earlier name when there is none |
| CspArguments.PushFlagsConflict | cspArguments/cspArguments.go:151-182 | `--no-push` together with `--push-as-subprocess` fails, in either order |
| CspArguments.ManifestFlagsConflict | cspArguments/cspArguments.go:184-227 | `--service-manifest` together with `--no-service-manifest` fails, in either order |
| CspArguments.ProcessFirstVarWins | cspArguments/cspArguments.go:51-93 | with several `--var` for one key, the first on the command line wins, because the deferred calls run last in, first out |
| Strings.SplitAtFirstRejoins | cspArguments/cspArguments.go:64-80 | splitting at the first `=` gives a key without `=` and a value that rejoin to the token |
| ServiceCreator.OptionalArgs | serviceCreator/serviceCreator.go:194-204 | `-t tags` comes first when tags are given, `-c json` comes last when parameters are given, and nothing else |
| ServiceCreator.ShouldSkip | serviceCreator/serviceCreator.go:187-192 | a service is skipped exactly when its name exists and it is not to be updated |
| ServiceCreator.PollUntilDone | serviceCreator/serviceCreator.go:218-236 | the poll loop consumes answers until the first terminal one and steps the reporter once per answer with its description |
| ServiceCreator.ServiceCreator.constructor | serviceCreator/serviceCreator.go:21-31 | the reconciler starts with a fresh reporter in state `|` and no message |
| ServiceCreator.ServiceCreator.Run | serviceCreator/serviceCreator.go:82-90 | `run` issues one CLI command and returns its failure |
| ServiceCreator.ServiceCreator.CreateUserProvidedCredentialsService | serviceCreator/serviceCreator.go:92-117 | skips an existing name unless updating; otherwise issues `uups`/`cups name -p json -t tags` |
| ServiceCreator.ServiceCreator.CreateUserProvidedRouteService | serviceCreator/serviceCreator.go:119-153 | as credentials, but the URL must parse with an https scheme (any case), checked after the skip |
| ServiceCreator.ServiceCreator.CreateUserProvidedLogDrainService | serviceCreator/serviceCreator.go:155-178 | skips an existing name unless updating; otherwise issues `uups`/`cups name -l url -t tags` |
| ServiceCreator.ServiceCreator.CreateService | serviceCreator/serviceCreator.go:180-239 | brokered: `update-service name` or `create-service broker plan name` with the optional arguments, then polls unless the command failed; the reporter steps once per poll |
| ServiceCreator.ServiceCreator.CreateOne | serviceCreator/serviceCreator.go:40-70 | dispatch by type; an unsupported type fails and issues nothing |
| ServiceCreator.ServiceCreator.CreateServices | serviceCreator/serviceCreator.go:33-80 | the loop over the manifest's services, which breaks at the first error |
| ServiceCreator.CreateServices | serviceCreator/serviceCreator.go:21-31 | the exported function reconciles the manifest with a fresh reconciler |
| ServiceCreator.PlannedCommand | serviceCreator/serviceCreator.go:92-212 | the command for a service: it names the service; it is `uups`/`update-service` exactly when updating; user-provided commands end in `-t tags` |
| ServiceCreator.FollowsTransitive | serviceCreator/serviceCreator.go:33-80 | "only appends commands and consumes polls" composes |
| ServiceCreator.PollConsumesOnly | serviceCreator/serviceCreator.go:218-236 | polling changes nothing but the remaining answers |
| ServiceCreator.PollStopsAtFirstTerminal | serviceCreator/serviceCreator.go:218-236 | polling stops right after the first `succeeded` or `failed` answer; `failed` is an error |
| ServiceCreator.PollExhausted | serviceCreator/serviceCreator.go:219-222 | without a terminal answer, polling ends in a GetService error |
| ServiceCreator.CreateOneShape | serviceCreator/serviceCreator.go:40-70 | one service either issues nothing, or issues exactly its planned command |
| ServiceCreator.ShapeFollows | serviceCreator/serviceCreator.go:40-70 | a step of that shape only appends commands and consumes polls, and on success it adds its command unless skipped |
| ServiceCreator.CreateOneStep | serviceCreator/serviceCreator.go:40-70 | on success, one service adds exactly its planned command, or nothing when it is skipped |
| ServiceCreator.SkipsExactly | serviceCreator/serviceCreator.go:92-192 | for a supported type, success with no command happens exactly when the service is skipped |
| ServiceCreator.RouteSchemeChecked | serviceCreator/serviceCreator.go:133-142 | a new route fails with no command exactly when its URL has no https scheme |
| ServiceCreator.BrokeredFailureSkipsPolling | serviceCreator/serviceCreator.go:206-216 | a failed brokered command returns its error without polling |
| ServiceCreator.ReconcileFollows | serviceCreator/serviceCreator.go:33-80 | reconciling only appends commands and consumes polls |
| ServiceCreator.ReconcileAppend | serviceCreator/serviceCreator.go:40-77 | reconciling `a + b` reconciles `a`, then `b` only if `a` succeeded |
| ServiceCreator.LaterServicesUntouched | serviceCreator/serviceCreator.go:72-76 | after the first error, later services are not touched |
| ServiceCreator.ReconcileSucceeded | serviceCreator/serviceCreator.go:33-80 | a successful reconcile issues, in manifest order, the planned command of each service it does not skip |
| ServiceCreator.ExistingServicesLeftAlone | serviceCreator/serviceCreator.go:99-104 | when every service exists and none is to be updated, reconciling changes nothing and succeeds |
| ServiceCreator.GetServicesFailureIssuesNothing | serviceCreator/serviceCreator.go:94-97 | when GetServices fails, nothing is issued and the first service's error is returned |
| ServiceCreator.UnsupportedTypeIssuesNothing | serviceCreator/serviceCreator.go:67-69 | an unsupported type fails with its type name and changes nothing |
| CreateServicePush.Effective | createServicePush/exitHandler.go:24-31 | the effective run is a prefix of the trace with no exit call before its last step; it stops short of the trace only right after an exit call, and is the whole trace when there is none |
| CreateServicePush.EventsAppend | createServicePush/createServicePush.go:48-142 | the event and command projections distribute over concatenation |
| CreateServicePush.CreateStepsEvents | createServicePush/createServicePush.go:64-85 | the manifest steps issue no CLI command, and call parser, parse and create in order |
| CreateServicePush.PushStepsEvents | createServicePush/createServicePush.go:89-141 | the push steps issue `push` with the forwarded arguments only for the in-process push |
| CreateServicePush.TraceProjections | createServicePush/createServicePush.go:48-142 | the run's collaborator calls and CLI commands are those of its steps |
| CreateServicePush.EffectiveAfterExit | createServicePush/exitHandler.go:24-31 | nothing after an exit call takes effect |
| CreateServicePush.EffectiveBeforeExit | createServicePush/exitHandler.go:24-31 | steps before the first exit call all take effect |
| CreateServicePush.HeadDecides | createServicePush/createServicePush.go:51-60 | when argument processing exits, the rest of the run has no effect |
| CreateServicePush.ArgumentErrorExits | createServicePush/createServicePush.go:51-56 | an argument error exits with status 1 right after Process |
| CreateServicePush.UninstallExitsOK | createServicePush/createServicePush.go:58-60 | uninstalling exits with status 0 right after Process |
| CreateServicePush.HeadPasses | createServicePush/createServicePush.go:51-60 | without an argument error or uninstall, the run goes on to the manifest and push steps |
| CreateServicePush.CreateParserFailureExits | createServicePush/createServicePush.go:64-70 | a parser creation failure exits with status 1 before parsing |
| CreateServicePush.ParseFailureExits | createServicePush/createServicePush.go:72-77 | a parse failure exits with status 1 before creating services |
| CreateServicePush.CreateServicesFailureExits | createServicePush/createServicePush.go:79-84 | a creation failure exits with status 1 before pushing |
| CreateServicePush.PushFailureRecordsError | createServicePush/createServicePush.go:129-140 | the in-process push issues `push` plus OtherCFArgs, and its failure adds exactly one HandleError |
| CreateServicePush.NoManifestStepsWhenDisabled | createServicePush/createServicePush.go:64 | with DoNotCreateServices, the parser, parse and create are never called |
| CreateServicePush.NoPushWhenDisabled | createServicePush/createServicePush.go:89-90 | with DoNotPush, no push command and no subprocess push happen |
| CreateServicePush.SubprocessSetupFailureExits | createServicePush/createServicePush.go:104-121 | a subprocess push that cannot read the working directory or find `cf` exits with status 1 before the child starts |
| CreateServicePush.ChildFailureUnreported | createServicePush/createServicePush.go:104-140 | a failing child push leaves the run as if it had succeeded: the child is started, HandleError is never called and the status is 0 |
| CreateServicePush.CleanRun | createServicePush/createServicePush.go:48-142 | without failures, the run never calls HandleError, every step takes effect, and the status is 0 |
| CreateServicePush.RealProcessorFirstToken | createServicePush/createServicePush.go:51-60 | with the real processor, the uninstall sentinel exits 0 and any other foreign command exits 1 |
| CreateServicePush.CreateServicePush.Run | createServicePush/createServicePush.go:48-142 | the run's steps, calls and `push` commands in one order, are exactly the run trace (HandleError after each failure the code checks, none after a failing child push); the recorded calls and the connection's commands are its two projections |
| CreateServicePush.CreateServicePush.ProcessArguments | createServicePush/createServicePush.go:51-60 | the argument steps in order: Process, HandleError when it fails, HandleOK when uninstalling; the result is the processed arguments |
| CreateServicePush.CreateServicePush.CreateFromManifest | createServicePush/createServicePush.go:64-85 | the manifest steps in order: parser, parse and create, each followed by HandleError when it fails |
| CreateServicePush.CreateServicePush.Push | createServicePush/createServicePush.go:89-141 | the push steps in order: in process, the `push` command with OtherCFArgs, then HandleError when it fails; as a subprocess, HandleError when the working directory or `cf` cannot be found, then the child, whose failure is dropped |
| LegacyPlugin.ProcessArgs | create-services-plugin.go:38-84 | the argument loop computes the recursive scan of the older flag set |
| LegacyPlugin.PollWithSpinner | create-services-plugin.go:290-309 | the older poll loop consumes answers like the reconciler's and steps the spinner once per answer |
| LegacyPlugin.CreateServicePush.constructor | create-services-plugin.go:99-102 | the older reconciler holds the parsed manifest and the connection |
| LegacyPlugin.CreateServicePush.Run | create-services-plugin.go:171-179 | `run` issues one CLI command and returns its failure |
| LegacyPlugin.CreateServicePush.CreateUserProvidedCredentialsService | create-services-plugin.go:181-199 | skips an existing name; otherwise `cups name -p json` |
| LegacyPlugin.CreateServicePush.CreateUserProvidedRouteService | create-services-plugin.go:201-229 | skips an existing name; then the URL must have an https scheme; then `cups name -r url` |
| LegacyPlugin.CreateServicePush.CreateUserProvidedLogDrainService | create-services-plugin.go:231-248 | skips an existing name; otherwise `cups name -l url` |
| LegacyPlugin.CreateServicePush.CreateService | create-services-plugin.go:250-312 | brokered creation as in the reconciler; the spinner output of this service is appended to stdout |
| LegacyPlugin.CreateServicePush.CreateOne | create-services-plugin.go:141-159 | dispatch by type; an unsupported type fails |
| LegacyPlugin.CreateServicePush.CreateServices | create-services-plugin.go:134-169 | the loop over the services, which breaks at the first error; stdout gains each service's spinner output |
| LegacyPlugin.ReadManifestAndCreate | create-services-plugin.go:88-114 | a missing, unopenable or unparsable manifest exits 1; otherwise services are created and a failure exits 1 |
| LegacyPlugin.Run | create-services-plugin.go:32-132 | Run follows the argument scan, the manifest stage and the push; it returns without exiting on a push failure |
| LegacyPlugin.FlagsStartWithDashes | create-services-plugin.go:47-76 | each of the three flags starts with `--`, so none can pass as a manifest name |
| LegacyPlugin.ScanNeverBoth | create-services-plugin.go:47-73 | a successful scan never records both `--service-manifest` and `--no-service-manifest` |
| LegacyPlugin.FlagTokenRecorded | create-services-plugin.go:45-81 | a successful scan records a flag exactly when that flag occurs among the arguments |
| LegacyPlugin.NoManifestKeepsEmpty | create-services-plugin.go:66-73 | after `--no-service-manifest`, a successful scan ends with an empty filename |
| LegacyPlugin.UnflaggedForwardedInOrder | create-services-plugin.go:78-79 | arguments without flags are all forwarded, in order |
| LegacyPlugin.ForwardedAreNotFlags | create-services-plugin.go:78-84 | the forwarded arguments only grow, and never hold one of the three flags |
| LegacyPlugin.ConflictInEitherOrder | create-services-plugin.go:47-73 | an example over every manifest name: `--service-manifest name --no-service-manifest` and the reverse order are each refused with their own error (BothManifestFlagsExit covers every argument list) |
| LegacyPlugin.NotOurCommand | create-services-plugin.go:34-36 | another command name returns at once with no effect and no output |
| LegacyPlugin.ArgumentErrorExitsFirst | create-services-plugin.go:45-81 | an argument error exits 1 before any CLI call or output |
| LegacyPlugin.BothManifestFlagsExit | create-services-plugin.go:49-51 | both manifest flags exit with an argument error and no CLI call |
| LegacyPlugin.ManifestNameRequired | create-services-plugin.go:47-65 | `--service-manifest` at the end, or followed by a `--` token, exits with an argument error |
| LegacyPlugin.NoPushSuppressesPush | create-services-plugin.go:118-119 | with `--no-push`, no push command is issued |
| LegacyPlugin.PushForwardsRemaining | create-services-plugin.go:118-131 | without `--no-push`, `push` runs with the forwarded arguments, which hold no flag, and a failure does not exit |
| LegacyPlugin.PlainArgumentsPushed | create-services-plugin.go:41-131 | plain arguments read the default manifest and all reach `push`, in order |
| LegacyPlugin.NoManifestSkipsCreation | create-services-plugin.go:66-73 | `--no-service-manifest` empties the filename, so the manifest is not read and only the push remains |
| LegacyPlugin.PlannedCommand | create-services-plugin.go:181-284 | the older command for a service: `update-service` exactly for a brokered service to update; user-provided ones are `cups` with four words |
| LegacyPlugin.CreateOneStep | create-services-plugin.go:141-159 | on success, one service adds exactly its planned command, or nothing when it is skipped |
| LegacyPlugin.BrokeredStep | create-services-plugin.go:250-312 | the brokered case of that step |
| LegacyPlugin.OtherStep | create-services-plugin.go:181-248 | the user-provided and unsupported cases of that step |
| LegacyPlugin.OtherShape | create-services-plugin.go:181-248 | a service that is not brokered either changes nothing, succeeding only when skipped, or runs its command |
| LegacyPlugin.SkipsExactly | create-services-plugin.go:188-193 | for a supported type, success with no command happens exactly when the service is skipped |
| LegacyPlugin.UserProvidedNeverUpdated | create-services-plugin.go:181-248 | for user-provided services the update setting changes nothing |
| LegacyPlugin.RouteCheckedAfterExists | create-services-plugin.go:201-229 | an existing route is skipped whatever its URL; a new one fails exactly when its scheme is not https |
| LegacyPlugin.BrokeredAsInReconciler | create-services-plugin.go:250-312 | brokered creation does exactly what the reconciler's does |
| LegacyPlugin.UnsupportedTypeFails | create-services-plugin.go:156-158 | an unsupported type fails and changes nothing |
| LegacyPlugin.SpinnerPerService | create-services-plugin.go:290-297 | each brokered service starts a fresh spinner: its first output is the description, then `/` |
| LegacyPlugin.CreateServicesAppend | create-services-plugin.go:141-166 | creating `a + b` creates `a`, then `b` only if `a` succeeded |
| LegacyPlugin.StopsAtFirstError | create-services-plugin.go:161-165 | after the first error, later services are not touched |
| LegacyPlugin.CreateServicesSucceeded | create-services-plugin.go:134-169 | a successful run issues the planned command of each service it does not skip, in order |
| Glyphs.NextGlyph | serviceCreator/progressReporter.go:37-49 | the next glyph is in the cycle; any state outside the cycle restarts at `|` |
| Glyphs.NextInCycle | serviceCreator/progressReporter.go:37-49 | each glyph is followed by the next, and `\` by `|` |
| Glyphs.AdvanceInCycle | serviceCreator/progressReporter.go:37-50 | `n` steps from the k-th glyph reach glyph `k + n` modulo four |
| Glyphs.FourStepsReturn | serviceCreator/progressReporter.go:37-50 | four steps come back to the same glyph |
| Glyphs.OffCycleRestarts | serviceCreator/progressReporter.go:47-48 | from a state outside the cycle, step `n + 1` shows glyph `n` modulo four |
| Glyphs.StepLines | progress_spinner.go:43-47 | one step writes the message line when shown, then the glyph line ending in `\r` |
| ProgressReporter.AfterStep | serviceCreator/progressReporter.go:28-51 | a step advances the glyph, keeps the message, logs the message only when it changed, then logs the glyph from before the advance |
| ProgressReporter.ProgressReporter.constructor | serviceCreator/progressReporter.go:18-25 | a new reporter is at `|` with no message and nothing logged |
| ProgressReporter.ProgressReporter.Step | serviceCreator/progressReporter.go:28-51 | Step performs that state change |
| ProgressReporter.StepsAppend | serviceCreator/progressReporter.go:28-51 | stepping through `a + b` is stepping through `a` and then `b` |
| ProgressReporter.StepsAdvance | serviceCreator/progressReporter.go:37-50 | after n steps the glyph has advanced n times and the message is the last one |
| ProgressReporter.StepsLog | serviceCreator/progressReporter.go:31-35 | the log of n steps is the old log followed by the trace of message changes and glyphs |
| ProgressReporter.TraceLength | serviceCreator/progressReporter.go:31-35 | the trace holds one glyph line per step plus one line per message change |
| ProgressReporter.SameMessageLogsGlyphsOnly | serviceCreator/progressReporter.go:31-35 | repeating the current message logs only glyphs, the k-th being the glyph k steps on |
| ProgressRepoter.ProgressReporter.constructor | serviceCreator/progressRepoter.go:14-17 | a new reporter is at `|` with no message |
| ProgressRepoter.ProgressReporter.Step | serviceCreator/progressRepoter.go:20-41 | this revision advances first, then prints the message when it changed, then the new glyph |
| ProgressSpinner.AfterNext | progress_spinner.go:19-47 | a step advances the glyph, raises updateLoadingMessage exactly when the message changed, and writes the new glyph last |
| ProgressSpinner.FirstNext | progress_spinner.go:15-47 | the first step of a new spinner writes the message, when it is not empty, then `/` |
| ProgressSpinner.StepsFromNew | progress_spinner.go:15-47 | a new spinner's output after n steps starts with its first step's lines, and the glyph has advanced n times |
| ProgressSpinner.StepsKeep | progress_spinner.go:19-47 | steps only append to the output and advance the glyph once each |
| ProgressSpinner.ProgressSpinner.constructor | progress_spinner.go:15-18 | a new spinner is at `|` with no message, the update flag raised, and nothing written |
| ProgressSpinner.ProgressSpinner.Next | progress_spinner.go:19-42 | Next performs that state change, writing through `write` |
| ProgressSpinner.ProgressSpinner.Write | progress_spinner.go:43-47 | `write` appends the message line when the flag is up, then the glyph line |

## Left out

- The subprocess push (createServicePush/createServicePush.go:94-128) is
  three collaborator calls whose failures are parameters: `Getwd`,
  `LookPath` (the `os.Stat` of `cf` in the working directory, then
  `exec.LookPath`) and `PushAsSubprocess` (the child). The path of the
  binary and the child's standard streams are not modelled.
- Console text: the `fmt.Printf` messages, the `DEBUG` environment check in
  `run`, and the output `push` prints are not modelled. The spinners'
  output is modelled as a list of written strings. The older plugin's
  stdout holds only the spinner output.
- `GetMetadata`, `GetUsage` and `GetArgumentsDescription` are static text.
  main.go and the plugin start-up are not part of this model.
- The YAML parser, `os.Stat`, `os.Open`, `ParseManifest`, `json.Marshal`,
  `url.Parse` and `os.Environ` are parameters. The manifest loader is a
  function from file name to outcome. `Marshal` and `SchemeOf` are
  functions. The environment is a list of `KEY=value` strings.
- `GetService` polling is a finite script of answers. When the script runs
  out, the answer is a `GetService` error, so the model does not capture a
  poll loop that never ends.
- CspArguments.CSPArguments.Process: requires at least one argument and an
  environment whose every entry holds `=`. Go would panic on `args[0]`, and
  `os.Environ` guarantees the `=`.
- LegacyPlugin.Run: requires at least one argument, since Go indexes
  `args[0]`.
- A loading message is passed to `fmt.Printf` as a format string by
  serviceCreator/progressRepoter.go. The model writes the message as is; a
  `%` verb inside it is not interpreted.
- ServiceCreator.CreateServices: states the reconcile result, but not the
  output of its internal reporter.
- ServiceCreator: uses serviceCreator/progressReporter.go as the reporter.
  serviceCreator/progressRepoter.go defines the same type and is modelled
  separately.
- LegacyPlugin: the older manifest.go `Service` has no `updateSIParamsAndTags`
  field. The model reuses the reconciler's service record, and its
  `updateService` stands for that field.
- `go` concurrency and the Windows `.exe` suffix are not modelled.
