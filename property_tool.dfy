/**
 * The property tool's run: after the options, it loads property
 * definitions if asked, creates the property adapter (and for remote
 * property services the network link under it), runs the command, and in
 * any case closes the client and the link and reports how the run ended.
 * The interactive property client is the same tool with `runCommand`
 * replaced by a console session.
 */
module PropertyTool {
  import opened Base
  import opened Options
  import opened Transport
  import opened Catalog
  import opened Commands
  import opened PropClient

  const ToolName: string := "Property"
  const Banner: string := "A tool for KNX property access"
  const HelpHint: string := "type -help for help message"
  const CanceledNote: string := "reading property canceled"
  const CompletionNote: string := "on completion"

  /** The library and the definitions resource behind the tool. */
  datatype Platform = Platform(
    env: Env,
    net: LinkSpec -> Opening,                                // new KNXNetworkLinkFT12 / KNXNetworkLinkIP
    adapters: AdapterPlan -> Opening,                        // new LocalDeviceMgmtAdapter / RemotePropertyServiceAdapter
    load: string -> Option<map<PropertyKey, PropertyDef>>,   // PropertyClient.loadDefinitions; None: KNXException
    closeReason: string)                                     // the reason of the close event the adapter reports

  /**
   * The tool's `runCommand` for the definitions in use. `run` calls it
   * virtually: the tool's own is `ToolCommandSet` over the device.
   */
  type CommandSet = Definitions -> Runner

  /** An options map the tool can be built from: empty, or parsed from arguments. */
  predicate Usable(o: OptionMap)
  {
    o == map[] || Ready(o)
  }

  /** Options that only ask for information: nothing is loaded or opened for them. */
  predicate Informational(o: OptionMap)
  {
    o == map[] || "help" in o || "version" in o
  }

  /** The name in the version line: the client's subclass prints its own. */
  function Name(interactive: bool): string
  {
    if interactive then ClientName else ToolName
  }

  /** What `run` logs for the information options. */
  function InfoLog(o: OptionMap, interactive: bool): seq<LogEntry>
  {
    if o == map[] then [Say(Always, Banner), Entry(Always, Version(Name(interactive))), Say(Always, HelpHint)]
    else if "help" in o then [Entry(Always, Usage(ToolName))]
    else if "version" in o then [Entry(Always, Version(Name(interactive)))]
    else []
  }

  /** The `-definitions` resource, if one was given. */
  function DefinitionsFile(o: OptionMap): Option<string>
    requires Typed(o)
  {
    if "definitions" in o then
      assert Fits("definitions", o["definitions"]);
      Some(o["definitions"].text)
    else None
  }

  /** The definitions loaded before the adapter: none without the option or when loading fails. */
  function Loaded(o: OptionMap, p: Platform): Option<map<PropertyKey, PropertyDef>>
    requires Typed(o)
  {
    if DefinitionsFile(o).Some? then p.load(DefinitionsFile(o).value) else None
  }

  /** The error line of a failed load. */
  function LoadLog(o: OptionMap, p: Platform): seq<LogEntry>
    requires Typed(o)
  {
    if DefinitionsFile(o).Some? && p.load(DefinitionsFile(o).value).None? then
      [Say(Error, "loading definitions from " + DefinitionsFile(o).value + " failed")]
    else []
  }

  /** The connection the run ends up with. */
  datatype Setup =
    | NoAdapter(link: Option<LinkSpec>, failure: Option<string>)   // failure None: interrupted
    | Adapter(link: Option<LinkSpec>, plan: AdapterPlan)

  /** The adapter constructor's answer, once any link under it is open. */
  function AdapterStep(link: Option<LinkSpec>, plan: AdapterPlan, adapters: AdapterPlan -> Opening): Setup
  {
    match adapters(plan)
    case Opened => Adapter(link, plan)
    case Refused(m) => NoAdapter(link, Some(m))
    case InterruptedOpening => NoAdapter(link, None)
  }

  /**
   * `createAdapter` with the library's answers: a socket address error, a
   * link that does not open, or an adapter on top of the link if any.
   */
  function SetupOf(o: OptionMap, p: Platform): Setup
    requires Ready(o)
  {
    match CreateAdapter(o, p.env)
    case Err(e) => NoAdapter(None, Some(SocketMessage(e)))
    case Ok(plan) =>
      if plan.RemoteServices? then
        match p.net(plan.link)
        case Opened => AdapterStep(Some(plan.link), plan, p.adapters)
        case Refused(m) => NoAdapter(None, Some(m))
        case InterruptedOpening => NoAdapter(None, None)
      else AdapterStep(None, plan, p.adapters)
  }

  /** The command given on the command line, if any. */
  function CommandOf(o: OptionMap): Option<seq<string>>
    requires Typed(o)
  {
    if "command" in o then
      assert Fits("command", o["command"]);
      Some(o["command"].tokens)
    else None
  }

  /** The tool's own `runCommand`: the commands over the device, with the definitions in use. */
  function ToolCommandSet(dev: Device): CommandSet
  {
    defs => cmd => Commands.RunCommand(cmd, dev, defs)
  }

  /**
   * The command stage once the client exists: the command-line command,
   * or for the client's subclass the exit hint, the command list and the
   * console session.
   */
  function Stage(o: OptionMap, interactive: bool, console: seq<ConsoleEvent>, run: Runner): Session
    requires Typed(o)
  {
    if interactive then
      var list := run(Some(["?"]));
      var s := Loop(console, run);
      Session([Print(ExitHint), Print("")] + list.log + s.log, list.calls + s.calls, s.raised)
    else
      var r := run(CommandOf(o));
      Session(r.log, r.calls, r.raised)
  }

  /**
   * `onCompletion` as `run` calls it: `canceled` starts out true and is
   * never cleared, so the "canceled" line closes every run.
   */
  function CompletionLog(thrown: bool): seq<LogEntry>
  {
    [Say(Info, CanceledNote)] + (if thrown then [Say(Error, CompletionNote)] else [])
  }

  /** What `adapterClosed` logs for the close event's reason. */
  function ClosedLine(reason: string): LogEntry
  {
    Say(Info, "connection closed (" + reason + ")")
  }

  /** The command stage of a run that got its client. */
  function StageOf(o: OptionMap, p: Platform, interactive: bool, console: seq<ConsoleEvent>, commands: CommandSet): Session
    requires Typed(o)
  {
    Stage(o, interactive, console, commands(Loaded(o, p)))
  }

  /**
   * What `run` logs once the adapter was asked for: the stage and the
   * adapter's close event if there was an adapter, then the completion.
   */
  function EndLog(setup: Setup, s: Session, reason: string): seq<LogEntry>
  {
    match setup
    case NoAdapter(_, failure) => CompletionLog(failure.Some?)
    case Adapter(_, _) => s.log + [ClosedLine(reason)] + CompletionLog(s.raised.Some?)
  }

  /** Everything `run` logs. */
  function RunLog(o: OptionMap, p: Platform, interactive: bool, console: seq<ConsoleEvent>, commands: CommandSet)
    : seq<LogEntry>
    requires Usable(o)
  {
    if Informational(o) then InfoLog(o, interactive)
    else LoadLog(o, p) + EndLog(SetupOf(o, p), StageOf(o, p, interactive, console, commands), p.closeReason)
  }

  /** Every request `run` sends to the device. */
  function RunCalls(o: OptionMap, p: Platform, interactive: bool, console: seq<ConsoleEvent>, commands: CommandSet)
    : seq<Call>
    requires Usable(o)
  {
    if Informational(o) || SetupOf(o, p).NoAdapter? then []
    else StageOf(o, p, interactive, console, commands).calls
  }

  /** The property client over the adapter (`PropertyClient`), counting its `close` calls. */
  class Client {
    const plan: AdapterPlan
    var open: bool
    var closes: nat

    constructor (plan: AdapterPlan)
      ensures this.plan == plan && open && closes == 0
    {
      this.plan := plan;
      open := true;
      closes := 0;
    }

    method Close()
      modifies this
      ensures !open && closes == old(closes) + 1
    {
      open := false;
      closes := closes + 1;
    }
  }

  class Property {
    var options: OptionMap
    /** True for the interactive client's subclass, which overrides `runCommand` and `showVersion`. */
    const interactive: bool
    var definitions: Definitions
    var client: Client?
    var lnk: Link?
    /** The tools' log service `out` and the console, as what was written to them. */
    var log: seq<LogEntry>
    /** The requests sent through the property client. */
    var requests: seq<Call>

    predicate Valid()
      reads this
    {
      Usable(options)
    }

    constructor (o: OptionMap, interactive: bool)
      requires Usable(o)
      ensures Valid() && options == o && this.interactive == interactive
      ensures definitions == None && client == null && lnk == null && log == [] && requests == []
    {
      options := o;
      this.interactive := interactive;
      definitions := None;
      client := null;
      lnk := null;
      log := [];
      requests := [];
    }

    /** `runCommand` of the tool: one command, its client and number errors caught. */
    method RunCommand(cmd: Option<seq<string>>, run: Runner) returns (raised: Option<Raised>)
      modifies this
      ensures var o := run(cmd);
        log == old(log) + o.log && requests == old(requests) + o.calls && raised == o.raised
      ensures options == old(options) && definitions == old(definitions)
      ensures client == old(client) && lnk == old(lnk)
    {
      var o := run(cmd);
      log := log + o.log;
      requests := requests + o.calls;
      raised := o.raised;
    }

    /**
     * `runReaderLoop`: prompt, read and run lines until the console ends,
     * "exit" is typed, reading fails, or a command raises a runtime fault.
     */
    method RunReaderLoop(console: seq<ConsoleEvent>, run: Runner) returns (raised: Option<Raised>)
      modifies this
      ensures log == old(log) + Loop(console, run).log
      ensures requests == old(requests) + Loop(console, run).calls
      ensures raised == Loop(console, run).raised
      ensures options == old(options) && definitions == old(definitions)
      ensures client == old(client) && lnk == old(lnk)
    {
      var i := 0;
      while i < |console|
        invariant 0 <= i <= |console|
        invariant options == old(options) && definitions == old(definitions)
        invariant client == old(client) && lnk == old(lnk)
        invariant Loop(console[i..], run).raised == Loop(console, run).raised
        invariant log + Loop(console[i..], run).log == old(log) + Loop(console, run).log
        invariant requests + Loop(console[i..], run).calls ==
          old(requests) + Loop(console, run).calls
        decreases |console| - i
      {
        LoopStep(console, i, run);
        ghost var (before, done) := (log, requests);
        var more;
        more, raised := ReadAndRun(console[i], run);
        if !more {
          return;
        }
        ghost var t, rest := ReadTurn(console[i], run), Loop(console[i + 1..], run);
        AppendAssoc(before, t.log, rest.log);
        AppendAssoc(done, t.calls, rest.calls);
        i := i + 1;
      }
      log := log + [Prompt];
      return None;
    }

    /** One round of `runReaderLoop`: prompt, read a line, and run it unless it ends the loop. */
    method ReadAndRun(e: ConsoleEvent, run: Runner) returns (more: bool, raised: Option<Raised>)
      modifies this
      ensures var t := ReadTurn(e, run);
        log == old(log) + t.log && requests == old(requests) + t.calls && raised == t.raised && more == t.more
      ensures options == old(options) && definitions == old(definitions)
      ensures client == old(client) && lnk == old(lnk)
    {
      log := log + [Prompt];
      match e {
        case Interrupt =>
          log := log + [Print(InterruptNote)];
          return false, None;
        case IoFailure(m) =>
          log := log + [Print("I/O error, " + m)];
          return false, None;
        case Input(line) =>
          var args := Split(line);
          if |args| == 0 {
            return false, Some(Crash(MissingToken));
          }
          if IsExit(args[0]) {
            return false, None;
          }
          raised := RunCommand(Some(args), run);
          more := raised.None?;
      }
    }

    /** The client's `runCommand`: drop the command-line command and start a console session. */
    method InteractiveCommand(console: seq<ConsoleEvent>, run: Runner) returns (raised: Option<Raised>)
      requires Valid()
      modifies this
      ensures options == old(options) - {"command"} && Valid()
      ensures var s := Stage(old(options), true, console, run);
        log == old(log) + s.log && requests == old(requests) + s.calls && raised == s.raised
      ensures definitions == old(definitions) && client == old(client) && lnk == old(lnk)
    {
      options := options - {"command"};
      log := log + [Print(ExitHint), Print("")];
      var listed := RunCommand(Some(["?"]), run);
      raised := RunReaderLoop(console, run);
      ghost var hint, list, session := [Print(ExitHint), Print("")], run(Some(["?"])), Loop(console, run);
      AppendAssoc(old(log), hint, list.log);
      AppendAssoc(old(log), hint + list.log, session.log);
      AppendAssoc(old(requests), list.calls, session.calls);
    }

    /**
     * `run`: the information options, or loading definitions, creating
     * the adapter and running the command; the client and the link are
     * closed whenever they were opened.
     */
    method Run(p: Platform, console: seq<ConsoleEvent>, commands: CommandSet)
      requires Valid() && client == null && lnk == null && definitions == None
      modifies this
      ensures log == old(log) + RunLog(old(options), p, interactive, console, commands)
      ensures requests == old(requests) + RunCalls(old(options), p, interactive, console, commands)
      ensures Informational(old(options)) ==> client == null && lnk == null
      ensures !Informational(old(options)) ==>
        (client != null <==> SetupOf(old(options), p).Adapter?) &&
        (lnk != null <==> SetupOf(old(options), p).link.Some?)
      ensures client != null ==> fresh(client) && client.plan == SetupOf(old(options), p).plan
      ensures client != null ==> !client.open && client.closes == 1
      ensures lnk != null ==> fresh(lnk) && lnk.spec == SetupOf(old(options), p).link.value
      ensures lnk != null ==> !lnk.open && lnk.closes == 1
    {
      if options == map[] {
        log := log + [Say(Always, Banner), Entry(Always, Version(Name(interactive))), Say(Always, HelpHint)];
        return;
      }
      if "help" in options {
        log := log + [Entry(Always, Usage(ToolName))];
        return;
      }
      if "version" in options {
        log := log + [Entry(Always, Version(Name(interactive)))];
        return;
      }
      var setup := Work(p, console, commands);
      AppendAssoc(old(log), LoadLog(old(options), p), EndLog(setup, StageOf(old(options), p, interactive, console, commands), p.closeReason));
    }

    /** `run` past the information options. */
    method Work(p: Platform, console: seq<ConsoleEvent>, commands: CommandSet) returns (setup: Setup)
      requires Valid() && !Informational(options) && client == null && lnk == null && definitions == None
      modifies this
      ensures setup == SetupOf(old(options), p)
      ensures log == old(log) + LoadLog(old(options), p) + EndLog(setup, StageOf(old(options), p, interactive, console, commands), p.closeReason)
      ensures requests == old(requests) + (if setup.Adapter? then StageOf(old(options), p, interactive, console, commands).calls else [])
      ensures client != null <==> setup.Adapter?
      ensures lnk != null <==> setup.link.Some?
      ensures client != null ==> fresh(client) && client.plan == setup.plan
      ensures client != null ==> !client.open && client.closes == 1
      ensures lnk != null ==> fresh(lnk) && lnk.spec == setup.link.value
      ensures lnk != null ==> !lnk.open && lnk.closes == 1
    {
      var defs := LoadDefinitions(p);
      setup := Connect(p);
      Serve(setup, defs, console, commands, p.closeReason);
    }

    /**
     * `run` once the adapter was asked for: the command stage if the
     * client exists, then closing what was opened, which has the adapter
     * report its close for `reason`, and `onCompletion`.
     */
    method Serve(setup: Setup, defs: Definitions, console: seq<ConsoleEvent>, commands: CommandSet, reason: string)
      requires Valid() && !Informational(options) && definitions == None
      requires client != null <==> setup.Adapter?
      modifies this, client, lnk
      ensures var stage := Stage(old(options), interactive, console, commands(defs));
        log == old(log) + EndLog(setup, stage, reason) &&
        requests == old(requests) + (if setup.Adapter? then stage.calls else [])
      ensures client == old(client) && lnk == old(lnk)
      ensures client != null ==> !client.open && client.closes == old(client.closes) + 1
      ensures lnk != null ==> !lnk.open && lnk.closes == old(lnk.closes) + 1
    {
      // the exception `run` ends with: only whether there is one shows in the log
      var thrown := false;
      if setup.Adapter? {
        if defs.Some? {
          definitions := Some(defs.value);
        }
        var raised := RunStage(commands(definitions), console);
        thrown := raised.Some?;
        ghost var stage := Stage(old(options), interactive, console, commands(defs));
        AppendAssoc(old(log), stage.log, [ClosedLine(reason)]);
        AppendAssoc(old(log), stage.log + [ClosedLine(reason)], CompletionLog(thrown));
      } else {
        thrown := setup.failure.Some?;
      }
      ghost var closing := log + (if client != null then [ClosedLine(reason)] else []);
      CloseAll(reason);
      OnCompletion(thrown, true);
      assert log == closing + CompletionLog(thrown);
    }

    /**
     * The `finally` of `run`: close the client and the link, where there
     * are; closing the client closes its adapter, which reports the close.
     */
    method CloseAll(reason: string)
      modifies this, client, lnk
      ensures log == old(log) + (if client != null then [ClosedLine(reason)] else [])
      ensures options == old(options) && requests == old(requests)
      ensures client == old(client) && lnk == old(lnk)
      ensures client != null ==> !client.open && client.closes == old(client.closes) + 1
      ensures lnk != null ==> !lnk.open && lnk.closes == old(lnk.closes) + 1
    {
      if client != null {
        client.Close();
        AdapterClosed(reason);
      }
      if lnk != null {
        lnk.Close();
      }
    }

    /**
     * `adapterClosed`, the tool's adapter listener, for a close the tool
     * asked for: the reason is logged and nothing is interrupted.
     */
    method AdapterClosed(reason: string)
      modifies this
      ensures log == old(log) + [ClosedLine(reason)]
      ensures options == old(options) && definitions == old(definitions) && requests == old(requests)
      ensures client == old(client) && lnk == old(lnk)
    {
      log := log + [ClosedLine(reason)];
    }

    /** Loading the `-definitions` resource; a failure is logged and leaves none. */
    method LoadDefinitions(p: Platform) returns (defs: Option<map<PropertyKey, PropertyDef>>)
      requires Valid() && !Informational(options)
      modifies this
      ensures options == old(options) && definitions == old(definitions) && requests == old(requests)
      ensures defs == Loaded(options, p) && log == old(log) + LoadLog(options, p)
      ensures client == old(client) && lnk == old(lnk)
    {
      defs := None;
      if "definitions" in options {
        var file := DefinitionsFile(options).value;
        defs := p.load(file);
        if defs.None? {
          log := log + [Say(Error, "loading definitions from " + file + " failed")];
        }
      }
    }

    /** The call of `runCommand` in `run`, with the command of the options. */
    method RunStage(run: Runner, console: seq<ConsoleEvent>) returns (raised: Option<Raised>)
      requires Valid()
      modifies this
      ensures var s := Stage(old(options), interactive, console, run);
        log == old(log) + s.log && requests == old(requests) + s.calls && raised == s.raised
      ensures definitions == old(definitions) && client == old(client) && lnk == old(lnk)
    {
      if interactive {
        raised := InteractiveCommand(console, run);
      } else {
        raised := RunCommand(CommandOf(options), run);
      }
    }

    /**
     * `createAdapter` with the library: the link is kept in `lnk` as soon
     * as it is open, the client only once the adapter exists.
     */
    method Connect(p: Platform) returns (setup: Setup)
      requires Valid() && !Informational(options) && client == null && lnk == null
      modifies this
      ensures options == old(options) && definitions == old(definitions)
      ensures log == old(log) && requests == old(requests)
      ensures setup == SetupOf(options, p)
      ensures client != null <==> setup.Adapter?
      ensures client != null ==> fresh(client) && client.plan == setup.plan && client.open && client.closes == 0
      ensures lnk != null <==> setup.link.Some?
      ensures lnk != null ==> fresh(lnk) && lnk.spec == setup.link.value && lnk.open && lnk.closes == 0
    {
      setup := SetupOf(options, p);
      match CreateAdapter(options, p.env) {
        case Err(_) =>
        case Ok(plan) =>
          var answer := Opened;
          if plan.RemoteServices? {
            answer := p.net(plan.link);
            if answer == Opened {
              lnk := new Link(plan.link);
            }
          }
          if answer == Opened && p.adapters(plan) == Opened {
            client := new Client(plan);
          }
      }
    }

    /** `onCompletion` */
    method OnCompletion(thrown: bool, canceled: bool)
      modifies this
      ensures log == old(log) + (if canceled then [Say(Info, CanceledNote)] else []) +
        (if thrown then [Say(Error, CompletionNote)] else [])
      ensures options == old(options) && definitions == old(definitions) && requests == old(requests)
      ensures client == old(client) && lnk == old(lnk)
    {
      if canceled {
        log := log + [Say(Info, CanceledNote)];
      }
      if thrown {
        log := log + [Say(Error, CompletionNote)];
      }
    }
  }

  /**
   * `Property(args)`, and with `interactive` the client's `PropClient(args)`:
   * the options are read first; refused options leave no tool.
   */
  method Create(args: seq<string>, env: Env, interactive: bool) returns (r: Result<Property, ParseError>)
    ensures r.Err? <==> ParseOptions(PropertyTool, args, env).Err?
    ensures r.Err? ==> r.error == ParseOptions(PropertyTool, args, env).error
    ensures r.Ok? ==> fresh(r.value) && r.value.Valid() && r.value.interactive == interactive
    ensures r.Ok? ==> r.value.options == ParseOptions(PropertyTool, args, env).value
    ensures r.Ok? ==> r.value.client == null && r.value.lnk == null && r.value.definitions == None
    ensures r.Ok? ==> r.value.log == [] && r.value.requests == []
  {
    var parsed := ParseOptionsLoop(PropertyTool, args, env);
    if parsed.Err? {
      return Err(parsed.error);
    }
    if |args| > 0 {
      ParsedTyped(PropertyTool, args, env);
    }
    var t := new Property(parsed.value, interactive);
    return Ok(t);
  }

  // ---------------------------------------------------------------------
  // Properties of a run

  /** Whether `run` ends with an exception: the adapter's, or the command stage's. */
  function RunFailed(o: OptionMap, p: Platform, interactive: bool, console: seq<ConsoleEvent>, commands: CommandSet): bool
    requires Ready(o)
  {
    match SetupOf(o, p)
    case NoAdapter(_, failure) => failure.Some?
    case Adapter(_, _) => StageOf(o, p, interactive, console, commands).raised.Some?
  }

  /**
   * The information options load, open and send nothing: the banner for
   * no options, otherwise the usage or the version, with help first.
   */
  lemma InformationRun(o: OptionMap, p: Platform, interactive: bool, console: seq<ConsoleEvent>, commands: CommandSet)
    requires Usable(o) && Informational(o)
    ensures RunLog(o, p, interactive, console, commands) == InfoLog(o, interactive)
    ensures RunCalls(o, p, interactive, console, commands) == []
    ensures o != map[] && "help" in o ==> RunLog(o, p, interactive, console, commands) == [Entry(Always, Usage(ToolName))]
    ensures o != map[] && "help" !in o ==>
      RunLog(o, p, interactive, console, commands) == [Entry(Always, Version(Name(interactive)))]
  {
  }

  /**
   * Every run past the information options ends with the "canceled" line,
   * followed by the "on completion" error line exactly when the run ended
   * with an exception; just before them stands the adapter's "connection
   * closed" line exactly when the adapter was created.
   */
  lemma RunEnding(o: OptionMap, p: Platform, interactive: bool, console: seq<ConsoleEvent>, commands: CommandSet)
    requires Usable(o) && !Informational(o)
    ensures var log := RunLog(o, p, interactive, console, commands);
      var failed := RunFailed(o, p, interactive, console, commands);
      |log| >= (if failed then 2 else 1) &&
      log[|log| - (if failed then 2 else 1)..] == CompletionLog(failed)
    ensures var log := RunLog(o, p, interactive, console, commands);
      log[|log| - 1] == (if RunFailed(o, p, interactive, console, commands) then Say(Error, CompletionNote) else Say(Info, CanceledNote))
    ensures var log := RunLog(o, p, interactive, console, commands);
      var n := if RunFailed(o, p, interactive, console, commands) then 2 else 1;
      SetupOf(o, p).Adapter? <==> |log| > n && log[|log| - n - 1] == ClosedLine(p.closeReason)
  {
    var log := RunLog(o, p, interactive, console, commands);
    var failed := RunFailed(o, p, interactive, console, commands);
    var stage := StageOf(o, p, interactive, console, commands);
    if SetupOf(o, p).Adapter? {
      var head := LoadLog(o, p) + stage.log;
      AppendAssoc(LoadLog(o, p), stage.log + [ClosedLine(p.closeReason)], CompletionLog(failed));
      AppendAssoc(LoadLog(o, p), stage.log, [ClosedLine(p.closeReason)]);
      assert log == head + [ClosedLine(p.closeReason)] + CompletionLog(failed);
    } else {
      assert log == LoadLog(o, p) + CompletionLog(failed);
    }
  }

  /**
   * The client's subclass ignores the command of the command line: its
   * run is the same with or without `-command`.
   */
  lemma InteractiveIgnoresCommand(o: OptionMap, p: Platform, console: seq<ConsoleEvent>, commands: CommandSet)
    requires Usable(o)
    ensures Usable(o - {"command"})
    ensures RunLog(o, p, true, console, commands) == RunLog(o - {"command"}, p, true, console, commands)
    ensures RunCalls(o, p, true, console, commands) == RunCalls(o - {"command"}, p, true, console, commands)
  {
    var o' := o - {"command"};
    if o != map[] {
      assert forall k :: k in o' ==> k in o && o'[k] == o[k];
      assert Ready(o');
      SetupIgnoresCommand(o, p);
    }
  }

  /** The connection and the definitions do not depend on `-command`. */
  lemma SetupIgnoresCommand(o: OptionMap, p: Platform)
    requires Ready(o) && Ready(o - {"command"})
    ensures SetupOf(o - {"command"}, p) == SetupOf(o, p)
    ensures Loaded(o - {"command"}, p) == Loaded(o, p) && LoadLog(o - {"command"}, p) == LoadLog(o, p)
  {
    var o' := o - {"command"};
    assert ("definitions" in o' <==> "definitions" in o) && ("definitions" in o ==> o'["definitions"] == o["definitions"]);
    assert DefinitionsFile(o') == DefinitionsFile(o);
    AdapterIgnoresCommand(o, p.env);
  }

  lemma AdapterIgnoresCommand(o: OptionMap, env: Env)
    requires Ready(o) && Ready(o - {"command"})
    ensures CreateAdapter(o - {"command"}, env) == CreateAdapter(o, env)
  {
    var o' := o - {"command"};
    forall k | k in ["localhost", "localport", "host", "port", "medium", "local", "nat", "emulatewriteenable"]
      ensures (k in o' <==> k in o) && (k in o ==> o'[k] == o[k])
    {
    }
    assert HostOf(o', "localhost") == HostOf(o, "localhost") && NumberOf(o', "localport") == NumberOf(o, "localport");
    assert HostOf(o', "host") == HostOf(o, "host") && PortOf(o') == PortOf(o);
    var local := CreateLocalSocket(HostOf(o, "localhost"), NumberOf(o, "localport"), env.localHost);
    var host := SocketFor(HostOf(o, "host"), PortOf(o));
    if local.Ok? && host.Ok? && "local" !in o {
      RemoteIgnoresCommand(o, local.value, host.value);
    }
  }

  lemma RemoteIgnoresCommand(o: OptionMap, local: Option<SocketAddress>, host: SocketAddress)
    requires Ready(o) && Ready(o - {"command"})
    ensures RemoteAdapter(o - {"command"}, local, host) == RemoteAdapter(o, local, host)
  {
    var o' := o - {"command"};
    forall k | k in ["medium", "nat", "serial", "routing", "remote", "authorize", "connect"]
      ensures (k in o' <==> k in o) && (k in o ==> o'[k] == o[k])
    {
    }
    assert MediumOf(o') == MediumOf(o);
    if "serial" in o {
      assert SerialId(o') == SerialId(o);
    }
  }

  /**
   * A command-line run sends exactly the requests of its one command, and
   * only `set` writes; without `-command` it connects, sends nothing and
   * logs only the adapter's close and how the run ended.
   */
  lemma CommandLineRun(o: OptionMap, p: Platform, console: seq<ConsoleEvent>, dev: Device)
    requires Ready(o) && !Informational(o) && SetupOf(o, p).Adapter?
    ensures var calls := RunCalls(o, p, false, console, ToolCommandSet(dev));
      calls == Commands.RunCommand(CommandOf(o), dev, Loaded(o, p)).calls &&
      (CommandOf(o).Some? && |CommandOf(o).value| > 0 && CommandOf(o).value[0] != "set" ==>
        forall c :: c in calls ==> !IsWrite(c))
    ensures "command" !in o ==>
      RunCalls(o, p, false, console, ToolCommandSet(dev)) == [] &&
      RunLog(o, p, false, console, ToolCommandSet(dev)) == LoadLog(o, p) + [ClosedLine(p.closeReason), Say(Info, CanceledNote)]
  {
    var cmd := CommandOf(o);
    if cmd.Some? && |cmd.value| > 0 && cmd.value[0] != "set" {
      OnlySetWrites(cmd.value, dev, Loaded(o, p));
    }
  }

  /**
   * The client's session: the exit hint, the command list of "?", then the
   * console loop over the tool's commands, and the adapter's close; its
   * requests are those of the loop alone.
   */
  lemma InteractiveRun(o: OptionMap, p: Platform, console: seq<ConsoleEvent>, dev: Device)
    requires Ready(o) && !Informational(o) && SetupOf(o, p).Adapter?
    ensures var s := Loop(console, ToolCommandSet(dev)(Loaded(o, p)));
      RunLog(o, p, true, console, ToolCommandSet(dev)) ==
        LoadLog(o, p) + [Print(ExitHint), Print(""), Entry(Info, CommandList)] + s.log + [ClosedLine(p.closeReason)] +
          CompletionLog(s.raised.Some?) &&
      RunCalls(o, p, true, console, ToolCommandSet(dev)) == s.calls
  {
    var run := ToolCommandSet(dev)(Loaded(o, p));
    ListAndUnknown(["?"], dev, Loaded(o, p));
    assert run(Some(["?"])) == Outcome([], [Entry(Info, CommandList)], None);
    var s := Loop(console, run);
    var head := [Print(ExitHint), Print(""), Entry(Info, CommandList)];
    var stage := StageOf(o, p, true, console, ToolCommandSet(dev));
    assert [Print(ExitHint), Print("")] + [Entry(Info, CommandList)] == head;
    assert stage == Session(head + s.log, s.calls, s.raised);
    var closed, ending := [ClosedLine(p.closeReason)], CompletionLog(s.raised.Some?);
    assert RunLog(o, p, true, console, ToolCommandSet(dev)) == LoadLog(o, p) + (stage.log + closed + ending);
    AppendAssoc(LoadLog(o, p), head + s.log + closed, ending);
    AppendAssoc(LoadLog(o, p), head + s.log, closed);
    AppendAssoc(LoadLog(o, p), head, s.log);
  }
}
