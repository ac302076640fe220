/**
 * The group monitor tool: it reads its options, opens one network link
 * (FT1.2 or KNXnet/IP tunnelling), waits while the link stays open, and on
 * the way out closes the link if it is still open and reports how the run
 * ended. The wait itself is left to whoever ends it: the network closing
 * the link, the shutdown hook calling `quit`, or an interrupt. Each close
 * of the link reaches the tool's link listener, which logs it.
 */
module GroupMonitor {
  import opened Base
  import opened Options
  import opened Transport

  const ToolName: string := "GroupMonitor"
  const Banner: string := "A tool for monitoring KNX group communication"
  const HelpHint: string := "type -help for help message"
  const Stopped: string := "GroupMonitor stopped"

  /** An options map the monitor can be built from: empty, or parsed from arguments. */
  predicate Usable(o: OptionMap)
  {
    o == map[] || Ready(o)
  }

  /** Options that only ask for information: nothing is opened for them. */
  predicate Informational(o: OptionMap)
  {
    o == map[] || "help" in o || "version" in o
  }

  /** What `start` logs before any link is opened. */
  function StartLog(o: OptionMap): seq<LogEntry>
  {
    if o == map[] then [Say(Always, Banner), Entry(Always, Version(ToolName)), Say(Always, HelpHint)]
    else if "help" in o then [Entry(Always, Usage(ToolName))]
    else if "version" in o then [Entry(Always, Version(ToolName))]
    else []
  }

  /** How `start` ends. */
  datatype Attempt =
    | NothingToOpen                 // returned after printing information
    | Failed(message: string)       // a KNXException or runtime exception, with its message
    | Canceled                      // interrupted while opening the link
    | Connected(spec: LinkSpec)     // the monitor link is open

  /** `start`: which link is opened, or why none is. */
  function StartAttempt(o: OptionMap, env: Env, net: LinkSpec -> Opening): Attempt
    requires Usable(o)
  {
    if Informational(o) then NothingToOpen
    else
      match MonitorLink(o, env)
      case Err(e) => Failed(SocketMessage(e))
      case Ok(spec) =>
        match net(spec)
        case Opened => Connected(spec)
        case Refused(m) => Failed(m)
        case InterruptedOpening => Canceled
  }

  /** How the wait for the open link ends. */
  datatype Ending =
    | NetworkClosed      // the library closed the link
    | ShutdownHook       // the shutdown handler called `quit`
    | InterruptedWait    // the waiting thread was interrupted

  /** `onCompletion`: a line for a cancellation, then one for an exception. */
  function CompletionLog(thrown: Option<string>, canceled: bool): seq<LogEntry>
  {
    (if canceled then [Say(Info, Stopped)] else []) + (if thrown.Some? then [Say(Error, thrown.value)] else [])
  }

  /** Whether the run counts as canceled. */
  function RunCanceled(a: Attempt, ending: Ending): bool
  {
    a.Canceled? || (a.Connected? && ending == InterruptedWait)
  }

  /** The exception message the run ends with, if any. */
  function RunThrown(a: Attempt): Option<string>
  {
    if a.Failed? then Some(a.message) else None
  }

  /** What the link listener's `linkClosed` logs for the close event's reason. */
  function ClosedLine(reason: string): LogEntry
  {
    Say(Info, "network monitor closed (" + reason + ")")
  }

  /**
   * Everything `run` logs, where `reason` is the reason of the close event
   * the link reports: the open link is closed once whatever ends the wait.
   */
  function RunLog(o: OptionMap, env: Env, net: LinkSpec -> Opening, ending: Ending, reason: string): seq<LogEntry>
    requires Usable(o)
  {
    var a := StartAttempt(o, env, net);
    StartLog(o) + (if a.Connected? then [ClosedLine(reason)] else []) + CompletionLog(RunThrown(a), RunCanceled(a, ending))
  }

  /** How often the tool closes the monitor link during a run that opened it. */
  function LinkCloses(ending: Ending): nat
  {
    if ending == NetworkClosed then 0 else 1
  }

  class Monitor {
    const options: OptionMap
    var link: Link?
    /** The tools' log service `out`, as the lines written to it. */
    var log: seq<LogEntry>

    predicate Valid()
      reads this
    {
      Usable(options)
    }

    constructor (o: OptionMap)
      requires Usable(o)
      ensures Valid() && options == o && link == null && log == []
    {
      options := o;
      link := null;
      log := [];
    }

    /** `start`: print information, or open the monitor link. */
    method Start(env: Env, net: LinkSpec -> Opening) returns (a: Attempt)
      requires Valid() && link == null
      modifies this
      ensures a == StartAttempt(options, env, net)
      ensures log == old(log) + StartLog(options)
      ensures link == null <==> !a.Connected?
      ensures link != null ==> fresh(link) && link.spec == a.spec && link.open && link.closes == 0
    {
      a := StartAttempt(options, env, net);
      if options == map[] {
        log := log + [Say(Always, Banner), Entry(Always, Version(ToolName)), Say(Always, HelpHint)];
        return;
      }
      if "help" in options {
        log := log + [Entry(Always, Usage(ToolName))];
        return;
      }
      if "version" in options {
        log := log + [Entry(Always, Version(ToolName))];
        return;
      }
      if a.Connected? {
        link := new Link(a.spec);
      }
    }

    /**
     * `quit`: close the link only when there is one and it is still open;
     * the close reaches the link listener with `reason`.
     */
    method Quit(reason: string)
      modifies this, link
      ensures link == old(link)
      ensures log == old(log) + (if old(link != null && link.open) then [ClosedLine(reason)] else [])
      ensures link != null ==> !link.open
      ensures link != null ==> link.closes == old(link.closes) + (if old(link.open) then 1 else 0)
    {
      if link != null && link.open {
        link.Close();
        LinkClosed(reason);
      }
    }

    /** `linkClosed` of the link listener: the close is logged with its reason. */
    method LinkClosed(reason: string)
      modifies this
      ensures log == old(log) + [ClosedLine(reason)]
      ensures link == old(link)
    {
      log := log + [ClosedLine(reason)];
    }

    /** `onCompletion` */
    method OnCompletion(thrown: Option<string>, canceled: bool)
      modifies this
      ensures log == old(log) + CompletionLog(thrown, canceled)
      ensures link == old(link)
    {
      if canceled {
        log := log + [Say(Info, Stopped)];
      }
      if thrown.Some? {
        log := log + [Say(Error, thrown.value)];
      }
    }

    /**
     * `run`: start, wait while the link is open, then quit and report.
     * Whatever happened, no link is left open, and the tool closes it at
     * most once; `reason` is the reason the link's close event carries.
     */
    method Run(env: Env, net: LinkSpec -> Opening, ending: Ending, reason: string)
      requires Valid() && link == null
      modifies this
      ensures log == old(log) + RunLog(options, env, net, ending, reason)
      ensures link == null <==> !StartAttempt(options, env, net).Connected?
      ensures link != null ==> fresh(link) && !link.open && link.closes == LinkCloses(ending)
    {
      var thrown: Option<string> := None;
      var canceled := false;
      var a := Start(env, net);
      match a {
        case Failed(m) => thrown := Some(m);
        case Canceled => canceled := true;
        case NothingToOpen =>
        case Connected(_) =>
          if link.open {
            match ending {
              case NetworkClosed =>
                link.Drop();
                LinkClosed(reason);
              case ShutdownHook => Quit(reason);
              case InterruptedWait => canceled := true;
            }
          }
      }
      Quit(reason);
      OnCompletion(thrown, canceled);
    }
  }

  /**
   * `GroupMonitor(args)`: the options are read first; refused options
   * leave no monitor.
   */
  method Create(args: seq<string>, env: Env) returns (r: Result<Monitor, ParseError>)
    ensures r.Err? <==> ParseOptions(GroupMonitorTool, args, env).Err?
    ensures r.Err? ==> r.error == ParseOptions(GroupMonitorTool, args, env).error
    ensures r.Ok? ==> fresh(r.value) && r.value.Valid() && r.value.link == null && r.value.log == []
    ensures r.Ok? ==> r.value.options == ParseOptions(GroupMonitorTool, args, env).value
  {
    var parsed := ParseOptionsLoop(GroupMonitorTool, args, env);
    if parsed.Err? {
      return Err(parsed.error);
    }
    if |args| > 0 {
      ParsedTyped(GroupMonitorTool, args, env);
    }
    var m := new Monitor(parsed.value);
    return Ok(m);
  }

  // ---------------------------------------------------------------------
  // Properties of a run

  /**
   * Asking for information opens nothing and logs only the information:
   * the banner for no options, else the usage or the version, with help
   * taking precedence.
   */
  lemma InformationOnly(o: OptionMap, env: Env, net: LinkSpec -> Opening, ending: Ending, reason: string)
    requires Usable(o) && Informational(o)
    ensures StartAttempt(o, env, net) == NothingToOpen
    ensures RunLog(o, env, net, ending, reason) == StartLog(o)
    ensures "help" in o ==> RunLog(o, env, net, ending, reason) == [Entry(Always, Usage(ToolName))]
    ensures "help" !in o && "version" in o ==> RunLog(o, env, net, ending, reason) == [Entry(Always, Version(ToolName))]
  {
  }

  /**
   * A run that gets past the information options logs only how the link
   * ended: an error line exactly when opening the link failed, the "stopped"
   * line alone when opening was interrupted, and for an open link its
   * "closed" line, followed by the "stopped" line exactly when the wait was
   * interrupted.
   */
  lemma RunEnding(o: OptionMap, env: Env, net: LinkSpec -> Opening, ending: Ending, reason: string)
    requires Usable(o) && !Informational(o)
    ensures var a := StartAttempt(o, env, net);
      RunLog(o, env, net, ending, reason) ==
        (if a.Failed? then [Say(Error, a.message)]
         else if a.Canceled? then [Say(Info, Stopped)]
         else [ClosedLine(reason)] + (if ending == InterruptedWait then [Say(Info, Stopped)] else []))
    ensures StartAttempt(o, env, net) != NothingToOpen
  {
  }

  /**
   * The monitor link is the one `createLink` chooses: a serial link is
   * opened whenever `-serial` was given, never a routing link.
   */
  lemma MonitorOpens(o: OptionMap, env: Env, net: LinkSpec -> Opening)
    requires Usable(o) && !Informational(o)
    requires StartAttempt(o, env, net).Connected?
    ensures Ok(StartAttempt(o, env, net).spec) == MonitorLink(o, env)
    ensures var spec := StartAttempt(o, env, net).spec;
      ("serial" in o <==> !spec.IpLink?) && (spec.IpLink? ==> spec.mode == Tunneling)
  {
    MonitorNeverRoutes(o, env);
  }

  /**
   * A local port other than 0 without a local host asks the platform for
   * its local host; when that fails, the run logs the one error line
   * "failed to get local host " followed by the platform's message.
   */
  lemma NoLocalHostLine(o: OptionMap, env: Env, net: LinkSpec -> Opening, ending: Ending, reason: string)
    requires Usable(o) && !Informational(o) && "serial" !in o
    requires HostOf(o, "localhost").None? && NumberOf(o, "localport").Some? && NumberOf(o, "localport").value != 0
    requires env.localHost.Err?
    ensures RunLog(o, env, net, ending, reason) == [Say(Error, "failed to get local host " + env.localHost.error)]
  {
  }

  /** Socket address errors of a serial link cannot happen: it is opened without one. */
  lemma SerialFailures(o: OptionMap, env: Env, net: LinkSpec -> Opening)
    requires Usable(o) && !Informational(o) && "serial" in o
    ensures StartAttempt(o, env, net).Failed? ==>
      Refused(StartAttempt(o, env, net).message) == net(SerialLink(SerialId(o), MediumOf(o)))
  {
  }
}
