/**
 * The command-line options of the property tool and of the group monitor.
 * Both tools scan their arguments left to right into an options map keyed
 * by option name, starting from the defaults port 3671 and medium TP1, and
 * validate the map at the end; `-help` and `-version` stop the scan and
 * skip the validation. The two scans differ only in the options they know
 * and in the validation, so one scan serves both.
 */
module Options {
  import opened Base
  import opened JavaNumbers
  import opened ValueCodec

  /** The KNX media `getMedium` knows. */
  datatype Medium = TP0 | TP1 | PL110 | PL132 | RF

  /** `getMedium`: the medium of an identifier, or `None` for "unknown medium". */
  function GetMedium(id: string): Option<Medium>
  {
    if id == "tp0" then Some(TP0)
    else if id == "tp1" then Some(TP1)
    else if id == "p110" then Some(PL110)
    else if id == "p132" then Some(PL132)
    else if id == "rf" then Some(RF)
    else None
  }

  /** Exactly the five identifiers name a medium, and each names a different one. */
  lemma GetMediumIds(id: string)
    ensures GetMedium(id).Some? <==> id in {"tp0", "tp1", "p110", "p132", "rf"}
    ensures GetMedium(id) == Some(TP1) <==> id == "tp1"
    ensures forall other: string :: GetMedium(other).Some? && GetMedium(other) == GetMedium(id) ==> other == id
  {
  }

  /** An IP address as the name service returns it. */
  datatype HostAddress = HostAddress(address: seq<byte>)

  /** A KNX individual address. */
  datatype IndividualAddress = IndividualAddress(raw: int)

  /** What the tools ask of the platform while reading options and opening links. */
  datatype Env = Env(
    resolve: string -> Option<HostAddress>,            // InetAddress.getByName; None: unknown host
    address: string -> Option<IndividualAddress>,      // new IndividualAddress(s); None: format error
    localHost: Result<HostAddress, string>)            // InetAddress.getLocalHost; Err: the UnknownHostException's message

  /** A value in the options map; `Flag` is the `null` stored for an option without argument. */
  datatype OptValue =
    | Flag
    | Num(n: int)
    | Med(medium: Medium)
    | Host(host: HostAddress)
    | Addr(individual: IndividualAddress)
    | Str(text: string)
    | KeyValue(key: seq<byte>)
    | Tokens(tokens: seq<string>)

  type OptionMap = map<string, OptValue>

  datatype Tool = PropertyTool | GroupMonitorTool

  /** Why the options were refused. */
  datatype ParseError =
    | MissingArgument(option: string)   // the option is the last token: `args[++i]` is out of bounds
    | BadAddress(token: string)
    | UnknownHost(host: string)
    | NotANumber(token: string)
    | UnknownMedium(id: string)
    | InvalidKey(reason: KeyError)
    | UnknownOption(arg: string)
    | NoConnectionCategory               // "no connection category specified"
    | NoHostOrSerial                     // "no host or serial port specified"
    | RemoteRequiredWithSerial           // "-remote option is mandatory with -serial"

  /** How the argument of an option is read. */
  datatype ValueKind = RemoteAddress | FileName | HostName | Number | MediumId | AuthorizeKey

  /** What a token is to the scan. */
  datatype OptKind =
    | HelpOpt
    | VersionOpt
    | FlagOpt(key: string)
    | ValueOpt(key: string, kind: ValueKind)
    | CommandWord
    | Positional

  /** `isOption` */
  predicate IsOption(arg: string, longOpt: string, shortOpt: Option<string>)
  {
    arg == longOpt || (shortOpt.Some? && arg == shortOpt.value)
  }

  /** The options of the property tool, in the order `parseOptions` checks them. */
  function PropertyOption(arg: string): OptKind
  {
    if IsOption(arg, "-local", Some("-l")) then FlagOpt("local")
    else if IsOption(arg, "-remote", Some("-r")) then ValueOpt("remote", RemoteAddress)
    else if IsOption(arg, "-definitions", Some("-d")) then ValueOpt("definitions", FileName)
    else if IsOption(arg, "-verbose", Some("-v")) then FlagOpt("verbose")
    else if IsOption(arg, "-localhost", None) then ValueOpt("localhost", HostName)
    else if IsOption(arg, "-localport", None) then ValueOpt("localport", Number)
    else if IsOption(arg, "-port", Some("-p")) then ValueOpt("port", Number)
    else if IsOption(arg, "-nat", Some("-n")) then FlagOpt("nat")
    else if IsOption(arg, "-serial", Some("-s")) then FlagOpt("serial")
    else if IsOption(arg, "-medium", Some("-m")) then ValueOpt("medium", MediumId)
    else if IsOption(arg, "-emulatewriteenable", Some("-e")) then FlagOpt("emulatewriteenable")
    else if IsOption(arg, "-connect", Some("-c")) then FlagOpt("connect")
    else if IsOption(arg, "-authorize", Some("-a")) then ValueOpt("authorize", AuthorizeKey)
    else if IsOption(arg, "-routing", None) then FlagOpt("routing")
    else if IsOption(arg, "get", None) || IsOption(arg, "set", None) || IsOption(arg, "desc", None)
         || IsOption(arg, "scan", None) || IsOption(arg, "?", None) then CommandWord
    else Positional
  }

  /** The options of the group monitor, in the order its `parseOptions` tests them. */
  function MonitorOption(arg: string): OptKind
  {
    if IsOption(arg, "-verbose", Some("-v")) then FlagOpt("verbose")
    else if IsOption(arg, "-localhost", None) then ValueOpt("localhost", HostName)
    else if IsOption(arg, "-localport", None) then ValueOpt("localport", Number)
    else if IsOption(arg, "-port", Some("-p")) then ValueOpt("port", Number)
    else if IsOption(arg, "-nat", Some("-n")) then FlagOpt("nat")
    else if IsOption(arg, "-serial", Some("-s")) then FlagOpt("serial")
    else if IsOption(arg, "-medium", Some("-m")) then ValueOpt("medium", MediumId)
    else Positional
  }

  function Recognize(tool: Tool, arg: string): OptKind
  {
    if IsOption(arg, "-help", Some("-h")) then HelpOpt
    else if IsOption(arg, "-version", None) then VersionOpt
    else if tool == PropertyTool then PropertyOption(arg)
    else MonitorOption(arg)
  }

  /** Reads the argument of an option. */
  function OptionValue(kind: ValueKind, token: string, env: Env): Result<OptValue, ParseError>
  {
    match kind
    case RemoteAddress =>
      (match env.address(token)
       case Some(a) => Ok(Addr(a))
       case None => Err(BadAddress(token)))
    case FileName => Ok(Str(token))
    case HostName =>
      (match env.resolve(token)
       case Some(h) => Ok(Host(h))
       case None => Err(UnknownHost(token)))
    case Number =>
      (match DecodeInt(token)
       case Some(n) => Ok(Num(n))
       case None => Err(NotANumber(token)))
    case MediumId =>
      (match GetMedium(token)
       case Some(m) => Ok(Med(m))
       case None => Err(UnknownMedium(token)))
    case AuthorizeKey =>
      (match GetAuthorizeKey(token)
       case Ok(b) => Ok(KeyValue(b))
       case Err(e) => Err(InvalidKey(e)))
  }

  /** `KNXnetIPConnection.DEFAULT_PORT` */
  const DefaultPort: int := 3671

  /** The map a non-empty argument list starts from. */
  const Defaults: OptionMap := map["port" := Num(DefaultPort), "medium" := Med(TP1)]

  /** The end of a scan: the map, and whether `-help` or `-version` stopped it. */
  datatype Scanned = Scanned(options: OptionMap, stopped: bool)

  /** What one token does: store `value` under `key` and go on at `next`, or end the scan. */
  datatype Step = Next(next: nat, key: string, value: OptValue) | End(result: Result<Scanned, ParseError>)

  /** One round of the loop of `parseOptions`: the token at `i`, with its argument if it takes one. */
  function ScanStep(tool: Tool, args: seq<string>, i: nat, opts: OptionMap, env: Env): (st: Step)
    requires i < |args|
    ensures st.Next? ==> i < st.next <= |args|
  {
    var arg := args[i];
    match Recognize(tool, arg)
    case HelpOpt => End(Ok(Scanned(opts["help" := Flag], true)))
    case VersionOpt => End(Ok(Scanned(opts["version" := Flag], true)))
    case FlagOpt(key) => Next(i + 1, key, Flag)
    case ValueOpt(key, kind) =>
      if i + 1 >= |args| then End(Err(MissingArgument(arg)))
      else
        (match OptionValue(kind, args[i + 1], env)
         case Err(e) => End(Err(e))
         case Ok(v) => Next(i + 2, key, v))
    case CommandWord => End(Ok(Scanned(opts["command" := Tokens(args[i..])], false)))
    case Positional =>
      if "serial" in opts then Next(i + 1, "serial", Str(arg))
      else if "host" !in opts then
        (match env.resolve(arg)
         case None => End(Err(UnknownHost(arg)))
         case Some(h) => Next(i + 1, "host", Host(h)))
      else End(Err(UnknownOption(arg)))
  }

  /** The scan of `args` from index `i` on, with `opts` filled so far. */
  function Scan(tool: Tool, args: seq<string>, i: nat, opts: OptionMap, env: Env): Result<Scanned, ParseError>
    decreases |args| - i
  {
    if i >= |args| then Ok(Scanned(opts, false))
    else
      match ScanStep(tool, args, i, opts, env)
      case End(r) => r
      case Next(n, key, v) => Scan(tool, args, n, opts[key := v], env)
  }

  /** The checks at the end of `parseOptions`. */
  predicate Valid(tool: Tool, o: OptionMap)
  {
    && (tool == PropertyTool ==> "local" in o || "remote" in o)
    && ("host" in o || "serial" in o)
    && (tool == PropertyTool ==> ("serial" in o ==> "remote" in o))
  }

  function Validate(tool: Tool, o: OptionMap): (r: Result<OptionMap, ParseError>)
    ensures r.Ok? <==> Valid(tool, o)
    ensures r.Ok? ==> r.value == o
  {
    if tool == PropertyTool && !("local" in o) && !("remote" in o) then Err(NoConnectionCategory)
    else if !("host" in o) && !("serial" in o) then Err(NoHostOrSerial)
    else if tool == PropertyTool && "serial" in o && !("remote" in o) then Err(RemoteRequiredWithSerial)
    else Ok(o)
  }

  /** What `parseOptions` makes of a finished scan: its error, its map if stopped, else the checked map. */
  function Finish(tool: Tool, scan: Result<Scanned, ParseError>): Result<OptionMap, ParseError>
  {
    match scan
    case Err(e) => Err(e)
    case Ok(s) => if s.stopped then Ok(s.options) else Validate(tool, s.options)
  }

  /** `parseOptions`: nothing for no arguments, else the scan from the defaults and the checks. */
  function ParseOptions(tool: Tool, args: seq<string>, env: Env): Result<OptionMap, ParseError>
  {
    if |args| == 0 then Ok(map[]) else Finish(tool, Scan(tool, args, 0, Defaults, env))
  }

  /** The loop of `parseOptions`, filling the map one token (and its argument) per round. */
  method ParseOptionsLoop(tool: Tool, args: seq<string>, env: Env) returns (r: Result<OptionMap, ParseError>)
    ensures r == ParseOptions(tool, args, env)
  {
    if |args| == 0 {
      return Ok(map[]);
    }
    var options := Defaults;
    var i := 0;
    while i < |args|
      invariant 0 <= i <= |args|
      invariant Scan(tool, args, i, options, env) == Scan(tool, args, 0, Defaults, env)
      decreases |args| - i
    {
      var st := ScanStep(tool, args, i, options, env);
      if st.End? {
        return Finish(tool, st.result);
      }
      options := options[st.key := st.value];
      i := st.next;
    }
    r := Validate(tool, options);
  }

  // ---------------------------------------------------------------------
  // Properties of the scan

  /** The tokens that store a value under `key` as an option. */
  predicate SetsKey(tool: Tool, arg: string, key: string)
  {
    var k := Recognize(tool, arg);
    (k.FlagOpt? && k.key == key) || (k.ValueOpt? && k.key == key)
  }

  /**
   * A token either stores one value under its own option name (or, as a
   * positional token, under `serial` or `host`) and hands on to a later
   * index, or ends the scan: with an error, with `help` or `version`
   * stored and the scan stopped, or with the command stored.
   */
  lemma StepFacts(tool: Tool, args: seq<string>, i: nat, opts: OptionMap, env: Env)
    requires i < |args|
    ensures var st := ScanStep(tool, args, i, opts, env);
      st.Next? ==>
        (SetsKey(tool, args[i], st.key) || st.key == "serial" || st.key == "host") &&
        st.key != "help" && st.key != "version" && st.key != "command"
    ensures var st := ScanStep(tool, args, i, opts, env);
      st.End? && st.result.Ok? && st.result.value.stopped ==>
        st.result.value.options == opts["help" := Flag] || st.result.value.options == opts["version" := Flag]
    ensures var st := ScanStep(tool, args, i, opts, env);
      st.End? && st.result.Ok? && !st.result.value.stopped ==>
        tool == PropertyTool && Recognize(tool, args[i]) == CommandWord &&
        st.result.value.options == opts["command" := Tokens(args[i..])]
  {
    OptionKeys(tool, args[i]);
    CommandWords(args[i]);
  }

  /** No option stores its value under the names reserved for `-help`, `-version` and the command. */
  lemma OptionKeys(tool: Tool, arg: string)
    ensures Recognize(tool, arg).FlagOpt? || Recognize(tool, arg).ValueOpt? ==>
      Recognize(tool, arg).key !in {"help", "version", "command"}
  {
  }

  /**
   * The scan only adds to the map, and an entry that no later token can set
   * keeps its value.
   */
  lemma {:induction false} ScanKeeps(tool: Tool, args: seq<string>, i: nat, opts: OptionMap, env: Env, key: string)
    requires key in opts && key !in {"help", "version", "command", "serial", "host"}
    requires forall j :: i <= j < |args| ==> !SetsKey(tool, args[j], key)
    ensures Scan(tool, args, i, opts, env).Ok? ==>
      key in Scan(tool, args, i, opts, env).value.options &&
      Scan(tool, args, i, opts, env).value.options[key] == opts[key]
    decreases |args| - i
  {
    if i < |args| {
      StepFacts(tool, args, i, opts, env);
      var st := ScanStep(tool, args, i, opts, env);
      if st.Next? {
        ScanKeeps(tool, args, st.next, opts[st.key := st.value], env, key);
      }
    }
  }

  /** The scan never removes an entry. */
  lemma {:induction false} ScanKeepsAll(tool: Tool, args: seq<string>, i: nat, opts: OptionMap, env: Env)
    ensures Scan(tool, args, i, opts, env).Ok? ==> opts.Keys <= Scan(tool, args, i, opts, env).value.options.Keys
    decreases |args| - i
  {
    if i < |args| {
      StepFacts(tool, args, i, opts, env);
      var st := ScanStep(tool, args, i, opts, env);
      if st.Next? {
        ScanKeepsAll(tool, args, st.next, opts[st.key := st.value], env);
      }
    }
  }

  /** Only `-port`/`-p` set the port and only `-medium`/`-m` the medium. */
  lemma SetterNames(tool: Tool, arg: string)
    ensures SetsKey(tool, arg, "port") <==> arg == "-port" || arg == "-p"
    ensures SetsKey(tool, arg, "medium") <==> arg == "-medium" || arg == "-m"
  {
  }

  /**
   * A non-empty argument list always yields a port and a medium: the
   * defaults 3671 and TP1 unless a `-port`/`-p` or `-medium`/`-m` token
   * sets them.
   */
  lemma DefaultsKept(tool: Tool, args: seq<string>, env: Env)
    requires |args| > 0 && ParseOptions(tool, args, env).Ok?
    ensures "port" in ParseOptions(tool, args, env).value && "medium" in ParseOptions(tool, args, env).value
    ensures (forall j :: 0 <= j < |args| ==> args[j] != "-port" && args[j] != "-p") ==>
      ParseOptions(tool, args, env).value["port"] == Num(DefaultPort)
    ensures (forall j :: 0 <= j < |args| ==> args[j] != "-medium" && args[j] != "-m") ==>
      ParseOptions(tool, args, env).value["medium"] == Med(TP1)
  {
    ScanKeepsAll(tool, args, 0, Defaults, env);
    forall j | 0 <= j < |args|
      ensures SetsKey(tool, args[j], "port") ==> args[j] == "-port" || args[j] == "-p"
      ensures SetsKey(tool, args[j], "medium") ==> args[j] == "-medium" || args[j] == "-m"
    {
      SetterNames(tool, args[j]);
    }
    if forall j :: 0 <= j < |args| ==> args[j] != "-port" && args[j] != "-p" {
      ScanKeeps(tool, args, 0, Defaults, env, "port");
    }
    if forall j :: 0 <= j < |args| ==> args[j] != "-medium" && args[j] != "-m" {
      ScanKeeps(tool, args, 0, Defaults, env, "medium");
    }
  }

  /** A scan stops exactly when it stores `help` or `version`. */
  lemma {:induction false} ScanStops(tool: Tool, args: seq<string>, i: nat, opts: OptionMap, env: Env)
    requires "help" !in opts && "version" !in opts
    ensures Scan(tool, args, i, opts, env).Ok? ==>
      (Scan(tool, args, i, opts, env).value.stopped <==>
       "help" in Scan(tool, args, i, opts, env).value.options || "version" in Scan(tool, args, i, opts, env).value.options)
    decreases |args| - i
  {
    if i < |args| {
      StepFacts(tool, args, i, opts, env);
      var st := ScanStep(tool, args, i, opts, env);
      if st.Next? {
        ScanStops(tool, args, st.next, opts[st.key := st.value], env);
      }
    }
  }

  /** A step that hands on, or stops the scan, does not look past the end of the arguments. */
  lemma StepExtend(tool: Tool, args: seq<string>, extra: seq<string>, i: nat, opts: OptionMap, env: Env)
    requires i < |args|
    requires ScanStep(tool, args, i, opts, env).Next? ||
             (ScanStep(tool, args, i, opts, env).End? && ScanStep(tool, args, i, opts, env).result.Ok? &&
              ScanStep(tool, args, i, opts, env).result.value.stopped)
    ensures ScanStep(tool, args + extra, i, opts, env) == ScanStep(tool, args, i, opts, env)
  {
    var all := args + extra;
    assert all[i] == args[i];
    if i + 1 < |args| {
      assert all[i + 1] == args[i + 1];
    }
  }

  /** Once the scan stopped, tokens after the end change nothing. */
  lemma {:induction false} ScanIgnoresRest(tool: Tool, args: seq<string>, extra: seq<string>, i: nat,
                                           opts: OptionMap, env: Env)
    requires Scan(tool, args, i, opts, env).Ok? && Scan(tool, args, i, opts, env).value.stopped
    ensures Scan(tool, args + extra, i, opts, env) == Scan(tool, args, i, opts, env)
    decreases |args| - i
  {
    assert i < |args|;
    StepExtend(tool, args, extra, i, opts, env);
    var st := ScanStep(tool, args, i, opts, env);
    if st.Next? {
      ScanIgnoresRest(tool, args, extra, st.next, opts[st.key := st.value], env);
    }
  }

  /**
   * `-help` and `-version` end the parse with no validation: a result
   * holding either is kept whatever follows, and any other result passed
   * the final checks.
   */
  lemma HelpAndVersion(tool: Tool, args: seq<string>, extra: seq<string>, env: Env)
    requires ParseOptions(tool, args, env).Ok? && |args| > 0
    ensures var o := ParseOptions(tool, args, env).value;
      ("help" in o || "version" in o) ==> ParseOptions(tool, args + extra, env) == Ok(o)
    ensures var o := ParseOptions(tool, args, env).value;
      !("help" in o || "version" in o) ==> Valid(tool, o)
  {
    ScanStops(tool, args, 0, Defaults, env);
    var s := Scan(tool, args, 0, Defaults, env).value;
    if s.stopped {
      ScanIgnoresRest(tool, args, extra, 0, Defaults, env);
    }
  }

  /**
   * The command is a command word together with every token after it (the
   * first command word the scan reaches: an option's argument is not
   * looked at); the group monitor never stores one.
   */
  lemma {:induction false} ScanCommand(tool: Tool, args: seq<string>, i: nat, opts: OptionMap, env: Env)
    requires "command" !in opts
    ensures Scan(tool, args, i, opts, env).Ok? && "command" in Scan(tool, args, i, opts, env).value.options ==>
      tool == PropertyTool &&
      exists k :: i <= k < |args| && Recognize(tool, args[k]) == CommandWord &&
        Scan(tool, args, i, opts, env).value.options["command"] == Tokens(args[k..])
    decreases |args| - i
  {
    if i < |args| {
      StepFacts(tool, args, i, opts, env);
      var st := ScanStep(tool, args, i, opts, env);
      if st.Next? {
        ScanCommand(tool, args, st.next, opts[st.key := st.value], env);
      }
    }
  }

  /** Only the command words start the property tool's command; the group monitor takes none. */
  lemma CommandWords(arg: string)
    ensures Recognize(PropertyTool, arg) == CommandWord ==> arg in {"get", "set", "desc", "scan", "?"}
    ensures Recognize(GroupMonitorTool, arg) != CommandWord
  {
    MonitorCommandless(arg);
  }

  /** The group monitor takes no command. */
  lemma MonitorCommandless(arg: string)
    ensures Recognize(GroupMonitorTool, arg) != CommandWord
  {
  }

  /**
   * A positional token after `-serial` replaces the serial identifier;
   * without `-serial` the first one is the host, resolved by name, and a
   * second one is refused.
   */
  lemma PositionalRule(tool: Tool, args: seq<string>, i: nat, opts: OptionMap, env: Env)
    requires i < |args| && Recognize(tool, args[i]) == Positional
    ensures "serial" in opts ==> Scan(tool, args, i, opts, env) == Scan(tool, args, i + 1, opts["serial" := Str(args[i])], env)
    ensures "serial" !in opts && "host" in opts ==> Scan(tool, args, i, opts, env) == Err(UnknownOption(args[i]))
    ensures "serial" !in opts && "host" !in opts && env.resolve(args[i]).None? ==>
      Scan(tool, args, i, opts, env) == Err(UnknownHost(args[i]))
    ensures "serial" !in opts && "host" !in opts && env.resolve(args[i]).Some? ==>
      Scan(tool, args, i, opts, env) == Scan(tool, args, i + 1, opts["host" := Host(env.resolve(args[i]).value)], env)
  {
  }

  /** An option that takes an argument, given as the last token after options without one, is refused. */
  lemma MissingArgumentRule(tool: Tool, args: seq<string>, env: Env)
    requires |args| > 0 && Recognize(tool, args[|args| - 1]).ValueOpt?
    requires forall j :: 0 <= j < |args| - 1 ==> Recognize(tool, args[j]).FlagOpt?
    ensures ParseOptions(tool, args, env) == Err(MissingArgument(args[|args| - 1]))
  {
    FlagsThenValue(tool, args, 0, Defaults, env);
  }

  lemma {:induction false} FlagsThenValue(tool: Tool, args: seq<string>, i: nat, opts: OptionMap, env: Env)
    requires i < |args| && Recognize(tool, args[|args| - 1]).ValueOpt?
    requires forall j :: i <= j < |args| - 1 ==> Recognize(tool, args[j]).FlagOpt?
    ensures Scan(tool, args, i, opts, env) == Err(MissingArgument(args[|args| - 1]))
    decreases |args| - i
  {
    var kind := Recognize(tool, args[i]);
    if i < |args| - 1 {
      assert kind.FlagOpt?;
      assert ScanStep(tool, args, i, opts, env) == Next(i + 1, kind.key, Flag);
      FlagsThenValue(tool, args, i + 1, opts[kind.key := Flag], env);
    } else {
      assert ScanStep(tool, args, i, opts, env) == End(Err(MissingArgument(args[i])));
    }
  }

  /** The type of the value an option name holds: the casts the tools apply when they read the map. */
  predicate Fits(key: string, v: OptValue)
  {
    if key == "port" || key == "localport" then v.Num?
    else if key == "medium" then v.Med?
    else if key == "host" || key == "localhost" then v.Host?
    else if key == "remote" then v.Addr?
    else if key == "authorize" then v.KeyValue?
    else if key == "definitions" then v.Str?
    else if key == "serial" then v.Flag? || v.Str?
    else if key == "command" then v.Tokens?
    else true
  }

  predicate Typed(o: OptionMap)
  {
    forall k :: k in o ==> Fits(k, o[k])
  }

  /** The options that take an argument, with the way each argument is read. */
  lemma ValueKeys(tool: Tool, arg: string)
    requires Recognize(tool, arg).ValueOpt?
    ensures (Recognize(tool, arg).key, Recognize(tool, arg).kind) in
      {("remote", RemoteAddress), ("definitions", FileName), ("localhost", HostName), ("localport", Number),
       ("port", Number), ("medium", MediumId), ("authorize", AuthorizeKey)}
  {
  }

  /** Options without an argument store their flag under names no typed option uses, or `serial`. */
  lemma FlagKeys(tool: Tool, arg: string)
    requires Recognize(tool, arg).FlagOpt?
    ensures Recognize(tool, arg).key in {"local", "verbose", "nat", "serial", "emulatewriteenable", "connect", "routing"}
  {
  }

  /** Every token stores a value of the type its name calls for. */
  lemma StepTyped(tool: Tool, args: seq<string>, i: nat, opts: OptionMap, env: Env)
    requires i < |args| && Typed(opts)
    ensures var st := ScanStep(tool, args, i, opts, env);
      (st.Next? ==> Typed(opts[st.key := st.value])) &&
      (st.End? && st.result.Ok? ==> Typed(st.result.value.options))
  {
    var st := ScanStep(tool, args, i, opts, env);
    var kind := Recognize(tool, args[i]);
    if st.Next? {
      if kind.ValueOpt? {
        ValueKeys(tool, args[i]);
      } else if kind.FlagOpt? {
        FlagKeys(tool, args[i]);
      }
      assert Fits(st.key, st.value);
    } else if st.result.Ok? {
      StoppedTyped(opts);
      if kind == CommandWord {
        assert Fits("command", Tokens(args[i..]));
      }
    }
  }

  /** `help` and `version` hold flags of any type. */
  lemma StoppedTyped(opts: OptionMap)
    requires Typed(opts)
    ensures Typed(opts["help" := Flag]) && Typed(opts["version" := Flag])
  {
    assert Fits("help", Flag) && Fits("version", Flag);
  }

  lemma {:induction false} ScanTyped(tool: Tool, args: seq<string>, i: nat, opts: OptionMap, env: Env)
    requires Typed(opts)
    ensures Scan(tool, args, i, opts, env).Ok? ==> Typed(Scan(tool, args, i, opts, env).value.options)
    decreases |args| - i
  {
    if i < |args| {
      StepTyped(tool, args, i, opts, env);
      var st := ScanStep(tool, args, i, opts, env);
      if st.Next? {
        ScanTyped(tool, args, st.next, opts[st.key := st.value], env);
      }
    }
  }

  /**
   * A parsed, non-empty argument list gives a map whose entries have the
   * types the tools cast them to, with a port and a medium.
   */
  lemma ParsedTyped(tool: Tool, args: seq<string>, env: Env)
    requires |args| > 0 && ParseOptions(tool, args, env).Ok?
    ensures Typed(ParseOptions(tool, args, env).value)
    ensures "port" in ParseOptions(tool, args, env).value && "medium" in ParseOptions(tool, args, env).value
  {
    ScanTyped(tool, args, 0, Defaults, env);
    DefaultsKept(tool, args, env);
  }

  /** With no arguments the options map is empty: no defaults either. */
  lemma EmptyArguments(tool: Tool, env: Env)
    ensures ParseOptions(tool, [], env) == Ok(map[])
  {
  }
}
