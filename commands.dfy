/**
 * The command interpreter of the property tool: `runCommand` and the
 * commands `get`, `set`, `desc`, `scan` and `?`. Each command is chosen by
 * its number of tokens and by literal tokens, reads its numbers with
 * `Integer.decode`, and sends one or two requests to the property client.
 * The client is an oracle (`Device`); what a command does is the list of
 * requests it sends, the lines it logs, and the exception it raises.
 */
module Commands {
  import opened Base
  import opened JavaNumbers
  import opened ValueCodec
  import opened Catalog

  /** A request to the property client. */
  datatype Call =
    | ReadText(oi: int, pid: int)                                       // getProperty(oi, pid)
    | ReadValues(oi: int, pid: int, start: int, elems: int)             // getPropertyTranslated
    | ReadData(oi: int, pid: int, start: int, elems: int)               // getProperty(oi, pid, start, elems)
    | WriteText(oi: int, pid: int, start: int, value: string)           // setProperty with a string
    | WriteData(oi: int, pid: int, start: int, elems: int, data: seq<byte>)  // setProperty with data
    | Describe(oi: int, pid: int)                                       // getDescription
    | DescribeByIndex(oi: int, propIndex: int)                          // getDescriptionByIndex
    | ScanAll(all: bool)                                                // scanProperties(all)
    | ScanObject(oi: int, all: bool)                                    // scanProperties(oi, all)

  predicate IsWrite(c: Call)
  {
    c.WriteText? || c.WriteData?
  }

  /**
   * The answers of the property client. `Err(m)` stands for a
   * `KNXException` with message `m`; a write answers `Some(m)` when it
   * throws one.
   */
  datatype Device = Device(
    readText: (int, int) -> Result<string, string>,
    readValues: (int, int, int, int) -> Result<seq<string>, string>,
    readData: (int, int, int, int) -> Result<seq<byte>, string>,
    write: Call -> Option<string>,
    describe: (int, int) -> Result<Description, string>,
    describeByIndex: (int, int) -> Result<Description, string>,
    scanAll: bool -> Result<seq<Description>, string>,
    scanObject: (int, bool) -> Result<seq<Description>, string>)

  /** Runtime exceptions that no handler of the command interpreter catches. */
  datatype Fault =
    | DivideByZero   // `ArithmeticException` of an integer division by zero
    | MissingToken   // `ArrayIndexOutOfBoundsException` reading a token that is not there

  /** An exception a command raises. */
  datatype Raised = Knx(message: string) | BadNumber(input: string) | Crash(fault: Fault)

  /** The requests sent, the lines logged, and the exception raised, if any, in that run. */
  datatype Outcome = Outcome(calls: seq<Call>, log: seq<LogEntry>, raised: Option<Raised>)

  function Logged(calls: seq<Call>, entry: LogEntry): Outcome
  {
    Outcome(calls, [entry], None)
  }

  function Thrown(calls: seq<Call>, e: Raised): Outcome
  {
    Outcome(calls, [], Some(e))
  }

  const WrongNumber: string := "sorry, wrong number of arguments"
  const GetUsage: string := "get object-idx pid [start-idx elements]"
  const UnknownCommand: string := "unknown command, type ? for help"

  /** `toInt`: `Integer.decode`, or a `NumberFormatException` naming the token. */
  function ToInt(token: string): Result<int, Raised>
  {
    match DecodeInt(token)
    case Some(v) => Ok(v)
    case None => Err(BadNumber(token))
  }

  // ---------------------------------------------------------------------
  // get

  /**
   * The hex groups the `get` fallback appends to `initial`: `elems` groups
   * of `|s| / elems` characters, each as `0x<group> `. A zero element
   * count divides by zero; a negative one appends nothing.
   */
  function FallbackText(initial: string, s: string, elems: int): Result<string, Fault>
  {
    if elems == 0 then Err(DivideByZero)
    else if elems < 0 then Ok(initial)
    else
      DivBound(|s|, elems);
      Ok(initial + Framed(Slices(s, |s| / elems, elems)))
  }

  lemma DivBound(n: nat, k: nat)
    requires k > 0
    ensures 0 <= n / k && k * (n / k) <= n
    ensures n % k == 0 ==> k * (n / k) == n
  {
  }

  lemma MulMono(i: nat, k: nat, c: nat)
    requires i <= k
    ensures i * c <= k * c
  {
  }

  /** Java's `int` division, which truncates toward zero. */
  function JavaDiv(a: int, b: int): int
    requires b != 0
  {
    if (a < 0) == (b < 0) then Abs(a) / Abs(b) else -(Abs(a) / Abs(b))
  }

  /** Cutting one more slice appends the slice that follows the previous ones. */
  lemma SliceStep(s: string, chars: nat, i: nat)
    requires (i + 1) * chars <= |s|
    ensures i * chars <= (i + 1) * chars
    ensures Slices(s, chars, i + 1) == Slices(s, chars, i) + [s[i * chars..(i + 1) * chars]]
  {
    assert (i + 1) * chars == i * chars + chars;
  }

  /** The loop of the `get` fallback, appending one group per element to `initial`. */
  method AppendGroups(initial: string, s: string, elems: int) returns (r: Result<string, Fault>)
    ensures r == FallbackText(initial, s, elems)
  {
    if elems == 0 {
      return Err(DivideByZero);
    }
    var chars := JavaDiv(|s|, elems);
    var out := initial;
    if elems < 0 {
      // the loop below would not run
      return Ok(out);
    }
    assert chars == |s| / elems;
    DivBound(|s|, elems);
    var i := 0;
    while i < elems
      invariant 0 <= i <= elems
      invariant 0 <= chars
      invariant chars == |s| / elems
      invariant elems * chars <= |s|
      invariant i * chars <= |s|
      invariant out == initial + Framed(Slices(s, chars, i))
    {
      MulMono(i + 1, elems, chars);
      SliceStep(s, chars, i);
      var g := s[i * chars..(i + 1) * chars];
      FramedSnoc(Slices(s, chars, i), g);
      out := out + "0x" + g + " ";
      i := i + 1;
    }
    return Ok(out);
  }

  /** `get oi pid`: the text of the property, else the first element as hex. */
  function GetOne(oi: int, pid: int, dev: Device): Outcome
  {
    var text := ReadText(oi, pid);
    match dev.readText(oi, pid)
    case Ok(t) => Logged([text], Say(Always, t))
    case Err(_) =>
      var data := ReadData(oi, pid, 1, 1);
      match dev.readData(oi, pid, 1, 1)
      case Ok(d) => Logged([text, data], Say(Always, "0x" + ToHex(d)))
      case Err(m) => Thrown([text, data], Knx(m))
  }

  /** `get oi pid start elems`: the translated values, else the raw data in hex groups. */
  function GetRange(oi: int, pid: int, startToken: string, elemsToken: string, dev: Device): Outcome
  {
    match ToInt(startToken)
    case Err(e) => Thrown([], e)
    case Ok(start) =>
      match ToInt(elemsToken)
      case Err(e) => Thrown([], e)
      case Ok(elems) =>
        var values := ReadValues(oi, pid, start, elems);
        match dev.readValues(oi, pid, start, elems)
        case Ok(vs) => Logged([values], Say(Always, ListToString(vs)))
        case Err(_) =>
          var data := ReadData(oi, pid, start, elems);
          match dev.readData(oi, pid, start, elems)
          case Err(m) => Thrown([values, data], Knx(m))
          case Ok(d) =>
            match FallbackText(WrongNumber, ToHex(d), elems)
            case Err(f) => Thrown([values, data], Crash(f))
            case Ok(t) => Logged([values, data], Say(Always, t))
  }

  /** `getProperty` */
  function GetCommand(args: seq<string>, dev: Device): Outcome
  {
    if |args| == 2 && args[1] == "?" then Logged([], Say(Always, GetUsage))
    else if |args| == 3 || |args| == 5 then
      match ToInt(args[1])
      case Err(e) => Thrown([], e)
      case Ok(oi) =>
        match ToInt(args[2])
        case Err(e) => Thrown([], e)
        case Ok(pid) => if |args| == 3 then GetOne(oi, pid, dev) else GetRange(oi, pid, args[3], args[4], dev)
    else Logged([], Say(Always, WrongNumber))
  }

  // ---------------------------------------------------------------------
  // set

  predicate IsHelpRequest(args: seq<string>)
  {
    |args| == 2 && args[1] == "?"
  }

  /** Sends one write and raises what the client throws. */
  function Write(c: Call, dev: Device): Outcome
  {
    match dev.write(c)
    case None => Outcome([c], [], None)
    case Some(m) => Thrown([c], Knx(m))
  }

  /** The write `set` sends for 4, 5 or 6 tokens, reading the numbers left to right. */
  function SetWrite(args: seq<string>, dev: Device): Outcome
    requires 4 <= |args| <= 6
  {
    match ToInt(args[1])
    case Err(e) => Thrown([], e)
    case Ok(oi) =>
      match ToInt(args[2])
      case Err(e) => Thrown([], e)
      case Ok(pid) =>
        if |args| == 4 then Write(WriteText(oi, pid, 1, args[3]), dev)
        else
          match ToInt(args[3])
          case Err(e) => Thrown([], e)
          case Ok(start) =>
            if |args| == 5 then Write(WriteText(oi, pid, start, args[4]), dev)
            else
              match ToInt(args[4])
              case Err(e) => Thrown([], e)
              case Ok(elems) =>
                match ToByteArraySpec(args[5])
                case Err(g) => Thrown([], BadNumber(g))
                case Ok(data) => Write(WriteData(oi, pid, start, elems, data), dev)
  }

  /** `setProperty`, with its help branch after the arity check. */
  function SetCommand(args: seq<string>, dev: Device): Outcome
  {
    if |args| < 4 || |args| > 6 then Logged([], Say(Info, WrongNumber))
    else
      var help := if IsHelpRequest(args) then [Entry(Info, Help("set"))] else [];
      var w := SetWrite(args, dev);
      Outcome(w.calls, help + w.log, w.raised)
  }

  // ---------------------------------------------------------------------
  // desc

  /** Logs the description the client returns, or raises its exception. */
  function Show(c: Call, answer: Result<Description, string>, defs: Definitions): Outcome
  {
    match answer
    case Ok(d) => Logged([c], Say(Always, DescriptionText(d, defs)))
    case Err(m) => Thrown([c], Knx(m))
  }

  /** The description request `desc` makes for 3 tokens, or 4 with `i` as the second. */
  function DescLookup(args: seq<string>, dev: Device, defs: Definitions): Outcome
  {
    if |args| == 3 then
      match ToInt(args[1])
      case Err(e) => Thrown([], e)
      case Ok(oi) =>
        match ToInt(args[2])
        case Err(e) => Thrown([], e)
        case Ok(pid) => Show(Describe(oi, pid), dev.describe(oi, pid), defs)
    else if |args| == 4 && args[2] == "i" then
      match ToInt(args[1])
      case Err(e) => Thrown([], e)
      case Ok(oi) =>
        match ToInt(args[3])
        case Err(e) => Thrown([], e)
        case Ok(idx) => Show(DescribeByIndex(oi, idx), dev.describeByIndex(oi, idx), defs)
    else Outcome([], [], None)
  }

  /** `getDescription`: the lookup, then either the help or the wrong-number message. */
  function DescCommand(args: seq<string>, dev: Device, defs: Definitions): Outcome
  {
    var first := DescLookup(args, dev, defs);
    if first.raised.Some? then first
    else
      var last := if IsHelpRequest(args) then Entry(Info, Help("desc")) else Say(Info, WrongNumber);
      Outcome(first.calls, first.log + [last], None)
  }

  // ---------------------------------------------------------------------
  // scan

  /** One line per description, in the order given. */
  function DescriptionLines(ds: seq<Description>, defs: Definitions): (lines: seq<LogEntry>)
    ensures |lines| == |ds|
    ensures forall i :: 0 <= i < |ds| ==> lines[i] == Say(Always, DescriptionText(ds[i], defs))
  {
    if ds == [] then [] else [Say(Always, DescriptionText(ds[0], defs))] + DescriptionLines(ds[1..], defs)
  }

  /** Logs every description of a scan, or raises the client's exception. */
  function ShowAll(c: Call, answer: Result<seq<Description>, string>, defs: Definitions): Outcome
  {
    match answer
    case Ok(ds) => Outcome([c], DescriptionLines(ds, defs), None)
    case Err(m) => Thrown([c], Knx(m))
  }

  /** `scanProperties` */
  function ScanCommand(args: seq<string>, dev: Device, defs: Definitions): Outcome
  {
    if |args| == 1 then ShowAll(ScanAll(false), dev.scanAll(false), defs)
    else if |args| == 2 then
      if args[1] == "all" then ShowAll(ScanAll(true), dev.scanAll(true), defs)
      else if args[1] == "?" then Logged([], Entry(Info, Help("scan")))
      else
        match ToInt(args[1])
        case Err(e) => Thrown([], e)
        case Ok(oi) => ShowAll(ScanObject(oi, false), dev.scanObject(oi, false), defs)
    else if |args| == 3 && args[2] == "all" then
      match ToInt(args[1])
      case Err(e) => Thrown([], e)
      case Ok(oi) => ShowAll(ScanObject(oi, true), dev.scanObject(oi, true), defs)
    else Logged([], Say(Info, WrongNumber))
  }

  // ---------------------------------------------------------------------
  // runCommand

  /** The command chosen by the first token, before the handlers of `runCommand`. */
  function Dispatch(cmd: seq<string>, dev: Device, defs: Definitions): Outcome
    requires |cmd| > 0
  {
    var what := cmd[0];
    if what == "get" then GetCommand(cmd, dev)
    else if what == "set" then SetCommand(cmd, dev)
    else if what == "scan" then ScanCommand(cmd, dev, defs)
    else if what == "desc" then DescCommand(cmd, dev, defs)
    else if what == "?" then Logged([], Entry(Info, CommandList))
    else Logged([], Say(Info, UnknownCommand))
  }

  /** The handlers of `runCommand`: client and number errors become error lines. */
  function Caught(o: Outcome): (r: Outcome)
    ensures r.calls == o.calls
    ensures r.raised.Some? ==> r.raised.value.Crash?
  {
    match o.raised
    case Some(Knx(m)) => Outcome(o.calls, o.log + [Entry(Error, Text(m))], None)
    case Some(BadNumber(x)) => Outcome(o.calls, o.log + [Entry(Error, InvalidNumber(x))], None)
    case _ => o
  }

  /** `runCommand`: nothing for a missing command, a crash for an empty one. */
  function RunCommand(cmd: Option<seq<string>>, dev: Device, defs: Definitions): Outcome
  {
    match cmd
    case None => Outcome([], [], None)
    case Some(c) => if |c| == 0 then Thrown([], Crash(MissingToken)) else Caught(Dispatch(c, dev, defs))
  }

  // ---------------------------------------------------------------------
  // Properties

  /**
   * The handlers of `runCommand` contain every client and number error:
   * only a runtime fault escapes, an empty command always crashes, and the
   * last line of a run that ended in a caught exception is at error level.
   */
  lemma RunCommandContained(cmd: Option<seq<string>>, dev: Device, defs: Definitions)
    ensures RunCommand(cmd, dev, defs).raised.Some? ==> RunCommand(cmd, dev, defs).raised.value.Crash?
    ensures RunCommand(cmd, dev, defs).raised == Some(Crash(MissingToken)) <==> cmd == Some([])
    ensures cmd.Some? && |cmd.value| > 0 && Dispatch(cmd.value, dev, defs).raised.Some? &&
            !Dispatch(cmd.value, dev, defs).raised.value.Crash? ==>
              var log := RunCommand(cmd, dev, defs).log;
              |log| > 0 && log[|log| - 1].Entry? && log[|log| - 1].level == Error
  {
    if cmd.Some? && |cmd.value| > 0 {
      NoMissingToken(cmd.value, dev, defs);
    }
  }

  /** Once a command has a first token, it never reads a token that is not there. */
  lemma NoMissingToken(cmd: seq<string>, dev: Device, defs: Definitions)
    requires |cmd| > 0
    ensures Dispatch(cmd, dev, defs).raised != Some(Crash(MissingToken))
  {
    if cmd[0] == "get" && (|cmd| == 3 || |cmd| == 5) {
      if |cmd| == 5 && ToInt(cmd[1]).Ok? && ToInt(cmd[2]).Ok? {
        var oi, pid := ToInt(cmd[1]).value, ToInt(cmd[2]).value;
        GetRangeFaults(oi, pid, cmd[3], cmd[4], dev);
      }
    }
  }

  /** The only fault of `get` is the division by a zero element count in the fallback. */
  lemma GetRangeFaults(oi: int, pid: int, startToken: string, elemsToken: string, dev: Device)
    ensures GetRange(oi, pid, startToken, elemsToken, dev).raised.Some? &&
            GetRange(oi, pid, startToken, elemsToken, dev).raised.value.Crash? ==>
              GetRange(oi, pid, startToken, elemsToken, dev).raised == Some(Crash(DivideByZero)) &&
              ToInt(elemsToken) == Ok(0)
  {
  }

  /** Every request in `o` is a read. */
  predicate ReadsOnly(o: Outcome)
  {
    forall c :: c in o.calls ==> !IsWrite(c)
  }

  lemma GetReadsOnly(args: seq<string>, dev: Device)
    ensures ReadsOnly(GetCommand(args, dev))
  {
    if (|args| == 3 || |args| == 5) && ToInt(args[1]).Ok? && ToInt(args[2]).Ok? && |args| == 5 {
      var r := GetRange(ToInt(args[1]).value, ToInt(args[2]).value, args[3], args[4], dev);
      assert ReadsOnly(r);
    }
  }

  lemma DescReadsOnly(args: seq<string>, dev: Device, defs: Definitions)
    ensures ReadsOnly(DescCommand(args, dev, defs))
  {
    assert ReadsOnly(DescLookup(args, dev, defs));
  }

  lemma ScanReadsOnly(args: seq<string>, dev: Device, defs: Definitions)
    ensures ReadsOnly(ScanCommand(args, dev, defs))
  {
  }

  /** Only `set` writes: every other command sends read requests alone. */
  lemma OnlySetWrites(cmd: seq<string>, dev: Device, defs: Definitions)
    requires |cmd| > 0 && cmd[0] != "set"
    ensures forall c :: c in RunCommand(Some(cmd), dev, defs).calls ==> !IsWrite(c)
  {
    GetReadsOnly(cmd, dev);
    DescReadsOnly(cmd, dev, defs);
    ScanReadsOnly(cmd, dev, defs);
    assert ReadsOnly(Dispatch(cmd, dev, defs));
  }

  /** `?` lists the commands and an unknown command says so; neither contacts the client. */
  lemma ListAndUnknown(cmd: seq<string>, dev: Device, defs: Definitions)
    requires |cmd| > 0
    ensures cmd[0] == "?" ==> RunCommand(Some(cmd), dev, defs) == Outcome([], [Entry(Info, CommandList)], None)
    ensures cmd[0] !in {"get", "set", "scan", "desc", "?"} ==>
      RunCommand(Some(cmd), dev, defs) == Outcome([], [Say(Info, UnknownCommand)], None)
  {
  }

  /**
   * `get` contacts the client only with 3 or 5 tokens, and does so as soon
   * as the numbers parse, first with the text or translated-value read.
   */
  lemma GetQueries(args: seq<string>, dev: Device)
    ensures GetCommand(args, dev).calls != [] ==> |args| == 3 || |args| == 5
    ensures |args| == 3 && ToInt(args[1]).Ok? && ToInt(args[2]).Ok? ==>
      GetCommand(args, dev).calls[0] == ReadText(ToInt(args[1]).value, ToInt(args[2]).value)
    ensures |args| == 5 && ToInt(args[1]).Ok? && ToInt(args[2]).Ok? && ToInt(args[3]).Ok? && ToInt(args[4]).Ok? ==>
      GetCommand(args, dev).calls[0] ==
        ReadValues(ToInt(args[1]).value, ToInt(args[2]).value, ToInt(args[3]).value, ToInt(args[4]).value)
    ensures |GetCommand(args, dev).calls| <= 2
  {
  }

  /** `get ?` shows the usage; any count but 2, 3 and 5 shows the wrong-number message. */
  lemma GetMessages(args: seq<string>, dev: Device)
    ensures IsHelpRequest(args) ==> GetCommand(args, dev) == Outcome([], [Say(Always, GetUsage)], None)
    ensures !IsHelpRequest(args) && |args| != 3 && |args| != 5 ==>
      GetCommand(args, dev) == Outcome([], [Say(Always, WrongNumber)], None)
  {
  }

  /**
   * When the translated read fails and the raw read returns `d`, the
   * 5-token `get` logs the wrong-number text followed by `elems` groups of
   * `|hex| / elems` hex digits, which together are the leading
   * `elems * (|hex| / elems)` digits of the data: all of it when the
   * element count divides the digit count.
   */
  lemma GetFallback(oi: int, pid: int, startToken: string, elemsToken: string, dev: Device,
                    start: int, elems: int, d: seq<byte>)
    requires ToInt(startToken) == Ok(start) && ToInt(elemsToken) == Ok(elems) && elems > 0
    requires dev.readValues(oi, pid, start, elems).Err? && dev.readData(oi, pid, start, elems) == Ok(d)
    ensures var hex := ToHex(d);
            var chars := |hex| / elems;
            exists groups: seq<string> ::
              GetRange(oi, pid, startToken, elemsToken, dev) ==
                Logged([ReadValues(oi, pid, start, elems), ReadData(oi, pid, start, elems)],
                       Say(Always, WrongNumber + Framed(groups))) &&
              |groups| == elems &&
              (forall i :: 0 <= i < elems ==> |groups[i]| == chars) &&
              elems * chars <= |hex| &&
              Concat(groups) == hex[..elems * chars] &&
              (|hex| % elems == 0 ==> Concat(groups) == hex)
  {
    var hex := ToHex(d);
    var chars := |hex| / elems;
    DivBound(|hex|, elems);
    var groups := Slices(hex, chars, elems);
    assert FallbackText(WrongNumber, hex, elems) == Ok(WrongNumber + Framed(groups));
    assert GetRange(oi, pid, startToken, elemsToken, dev) ==
      Logged([ReadValues(oi, pid, start, elems), ReadData(oi, pid, start, elems)],
             Say(Always, WrongNumber + Framed(groups)));
    SlicesCover(hex, chars, elems);
    if |hex| % elems == 0 {
      assert hex[..elems * chars] == hex;
    }
  }

  /** A zero element count in the 5-token fallback ends the command with a division by zero. */
  lemma GetFallbackZero(oi: int, pid: int, startToken: string, elemsToken: string, dev: Device, start: int)
    requires ToInt(startToken) == Ok(start) && ToInt(elemsToken) == Ok(0)
    requires dev.readValues(oi, pid, start, 0).Err? && dev.readData(oi, pid, start, 0).Ok?
    ensures GetRange(oi, pid, startToken, elemsToken, dev).raised == Some(Crash(DivideByZero))
  {
  }

  /** The write `set` means: the tokens read left to right, as one request. */
  function IntendedWrite(args: seq<string>): Option<Call>
  {
    if |args| < 4 || |args| > 6 then None
    else if ToInt(args[1]).Err? || ToInt(args[2]).Err? then None
    else if |args| == 4 then Some(WriteText(ToInt(args[1]).value, ToInt(args[2]).value, 1, args[3]))
    else if ToInt(args[3]).Err? then None
    else if |args| == 5 then Some(WriteText(ToInt(args[1]).value, ToInt(args[2]).value, ToInt(args[3]).value, args[4]))
    else if ToInt(args[4]).Err? || ToByteArraySpec(args[5]).Err? then None
    else Some(WriteData(ToInt(args[1]).value, ToInt(args[2]).value, ToInt(args[3]).value,
                        ToInt(args[4]).value, ToByteArraySpec(args[5]).value))
  }

  /**
   * `set` sends at most one request, and sends exactly the intended write
   * when all its tokens read; with fewer than 4 or more than 6 tokens it
   * only logs the wrong-number message.
   */
  lemma SetCalls(args: seq<string>, dev: Device)
    ensures SetCommand(args, dev).calls == (if IntendedWrite(args).Some? then [IntendedWrite(args).value] else [])
    ensures |args| < 4 || |args| > 6 ==> SetCommand(args, dev) == Outcome([], [Say(Info, WrongNumber)], None)
    ensures IntendedWrite(args).None? && 4 <= |args| <= 6 ==> SetCommand(args, dev).raised.Some?
  {
    if 4 <= |args| <= 6 {
      SetWriteCalls(args, dev);
    }
  }

  lemma SetWriteCalls(args: seq<string>, dev: Device)
    requires 4 <= |args| <= 6
    ensures SetWrite(args, dev).calls == (if IntendedWrite(args).Some? then [IntendedWrite(args).value] else [])
    ensures IntendedWrite(args).None? ==> SetWrite(args, dev).raised.Some?
  {
    if ToInt(args[1]).Ok? && ToInt(args[2]).Ok? && |args| > 4 && ToInt(args[3]).Ok? && |args| == 6 {
      assert IntendedWrite(args).Some? <==> ToInt(args[4]).Ok? && ToByteArraySpec(args[5]).Ok?;
    }
  }

  /** The help branch of `set` is unreachable: `set ?` is refused by the arity check first. */
  lemma SetNeverHelps(args: seq<string>, dev: Device)
    ensures Entry(Info, Help("set")) !in SetCommand(args, dev).log
    ensures IsHelpRequest(args) ==> SetCommand(args, dev) == Outcome([], [Say(Info, WrongNumber)], None)
  {
    if 4 <= |args| <= 6 {
      var w := SetWrite(args, dev);
      assert w.log == [];
    }
  }

  /**
   * `desc` ends with the wrong-number message whenever it does not raise,
   * even after a successful lookup, unless it is `desc ?`, which only shows
   * the help; a lookup by PID or index logs the description first.
   */
  lemma DescMessages(args: seq<string>, dev: Device, defs: Definitions)
    ensures IsHelpRequest(args) ==> DescCommand(args, dev, defs) == Outcome([], [Entry(Info, Help("desc"))], None)
    ensures !IsHelpRequest(args) && DescCommand(args, dev, defs).raised.None? ==>
      var log := DescCommand(args, dev, defs).log;
      |log| > 0 && log[|log| - 1] == Say(Info, WrongNumber)
    ensures |args| == 3 && ToInt(args[1]).Ok? && ToInt(args[2]).Ok? &&
            dev.describe(ToInt(args[1]).value, ToInt(args[2]).value).Ok? ==>
      DescCommand(args, dev, defs) ==
        Outcome([Describe(ToInt(args[1]).value, ToInt(args[2]).value)],
                [Say(Always, DescriptionText(dev.describe(ToInt(args[1]).value, ToInt(args[2]).value).value, defs)),
                 Say(Info, WrongNumber)],
                None)
    ensures |args| == 4 && args[2] == "i" && ToInt(args[1]).Ok? && ToInt(args[3]).Ok? ==>
      DescCommand(args, dev, defs).calls == [DescribeByIndex(ToInt(args[1]).value, ToInt(args[3]).value)]
    ensures !(|args| == 3 || (|args| == 4 && args[2] == "i")) ==> DescCommand(args, dev, defs).calls == []
  {
  }

  /** The scan request for each shape of `scan`, and none for any other shape. */
  function ScanRequest(args: seq<string>): Option<Call>
  {
    if |args| == 1 then Some(ScanAll(false))
    else if |args| == 2 && args[1] == "all" then Some(ScanAll(true))
    else if |args| == 2 && args[1] != "?" && ToInt(args[1]).Ok? then Some(ScanObject(ToInt(args[1]).value, false))
    else if |args| == 3 && args[2] == "all" && ToInt(args[1]).Ok? then Some(ScanObject(ToInt(args[1]).value, true))
    else None
  }

  /** The client's answer to a scan request. */
  function ScanAnswer(c: Call, dev: Device): Result<seq<Description>, string>
    requires c.ScanAll? || c.ScanObject?
  {
    if c.ScanAll? then dev.scanAll(c.all) else dev.scanObject(c.oi, c.all)
  }

  /**
   * `scan` sends the request of its shape and logs the descriptions the
   * client returns for it, one line each in the order returned; `scan ?`
   * shows the help and any other shape logs the wrong-number message,
   * neither contacting the client.
   */
  lemma ScanCalls(args: seq<string>, dev: Device, defs: Definitions)
    ensures ScanCommand(args, dev, defs).calls == (if ScanRequest(args).Some? then [ScanRequest(args).value] else [])
    ensures ScanRequest(args).Some? ==>
      ScanCommand(args, dev, defs) == ShowAll(ScanRequest(args).value, ScanAnswer(ScanRequest(args).value, dev), defs)
    ensures |args| == 2 && args[1] == "?" ==> ScanCommand(args, dev, defs) == Outcome([], [Entry(Info, Help("scan"))], None)
    ensures (|args| == 0 || |args| > 3 || (|args| == 3 && args[2] != "all")) ==>
      ScanCommand(args, dev, defs) == Outcome([], [Say(Info, WrongNumber)], None)
  {
  }

  /** A scan that does not raise logs exactly the returned descriptions, in order. */
  lemma ScanInOrder(c: Call, answer: Result<seq<Description>, string>, defs: Definitions)
    ensures ShowAll(c, answer, defs).calls == [c]
    ensures ShowAll(c, answer, defs).raised.None? <==> answer.Ok?
    ensures answer.Ok? ==>
      |ShowAll(c, answer, defs).log| == |answer.value| &&
      forall i :: 0 <= i < |answer.value| ==>
        ShowAll(c, answer, defs).log[i] == Say(Always, DescriptionText(answer.value[i], defs))
  {
  }
}
