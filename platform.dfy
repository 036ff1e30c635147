/**
 * The calls the plugin makes on the Cloud Foundry CLI connection
 * (`plugin.CliConnection`), after the test double of
 * serviceCreator/mock/plugin_mock.go: a fixed list of existing service names,
 * switches that make GetServices or CliCommand fail, a scripted sequence of
 * answers to GetService, and a log of every command's argument vector.
 */
module Platform {
  import opened Wrappers

  /** `LastOperation` of a `GetService_Model`: its state and its description. */
  datatype Operation = Operation(state: string, description: string)

  /** One answer of GetService: the service's last operation, or an error. */
  datatype Poll = Answer(op: Operation) | PollFailed

  /** The connection's state: what it answers and what it has been asked to run. */
  datatype Cf = Cf(
    services: seq<string>,
    getServicesFails: bool,
    commandFails: bool,
    polls: seq<Poll>,
    commands: seq<seq<string>>)

  /** The answer of GetService in state `cf`; an exhausted script answers with an error. */
  function NextPoll(cf: Cf): Poll
  {
    if cf.polls == [] then PollFailed else cf.polls[0]
  }

  /** The state after one GetService: the script loses its first answer. */
  function AfterPoll(cf: Cf): Cf
  {
    cf.(polls := if cf.polls == [] then [] else cf.polls[1..])
  }

  /** CliCommand(args) in state `cf`: the command is logged, and it succeeds unless commands fail. */
  function Command(cf: Cf, args: seq<string>): (Cf, bool)
  {
    (cf.(commands := cf.commands + [args]), !cf.commandFails)
  }

  class Connection {
    var services: seq<string>
    var getServicesFails: bool
    var commandFails: bool
    var polls: seq<Poll>
    var commands: seq<seq<string>>

    function State(): Cf
      reads this
    {
      Cf(services, getServicesFails, commandFails, polls, commands)
    }

    /** A connection that has run no command yet. */
    constructor (services: seq<string>, getServicesFails: bool, commandFails: bool, polls: seq<Poll>)
      ensures State() == Cf(services, getServicesFails, commandFails, polls, [])
    {
      this.services := services;
      this.getServicesFails := getServicesFails;
      this.commandFails := commandFails;
      this.polls := polls;
      commands := [];
    }

    /** GetServices: the names of the existing services, or nothing when the call fails. */
    method GetServices() returns (names: Option<seq<string>>)
      ensures names.None? <==> getServicesFails
      ensures names.Some? ==> names.value == services
    {
      if getServicesFails {
        names := None;
      } else {
        names := Some(services);
      }
    }

    /** GetService(name): the next scripted answer, whatever the name. */
    method GetService(name: string) returns (p: Poll)
      modifies this
      ensures p == NextPoll(old(State()))
      ensures State() == AfterPoll(old(State()))
    {
      if polls == [] {
        p := PollFailed;
      } else {
        p := polls[0];
        polls := polls[1..];
      }
    }

    /** CliCommand(args...): logs the argument vector; `ok` is false when the command fails. */
    method CliCommand(args: seq<string>) returns (ok: bool)
      modifies this
      ensures (State(), ok) == Command(old(State()), args)
    {
      commands := commands + [args];
      ok := !commandFails;
    }
  }
}
