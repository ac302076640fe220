# calimero-tools: the property tool, the property client and the group monitor

This project models the decision logic of three console tools of the
calimero KNX library and proves properties about it:

- **Property** (`Property.java`). It reads its command-line options into an
  options map and loads property definitions if `-definitions` was given.
  It then creates a property adapter: KNXnet/IP local device management, or
  the remote property services over an FT1.2 or KNXnet/IP link. Finally it
  runs one command (`get`, `set`, `desc`, `scan` or `?`) against the
  property client. It always closes the client and the link again and then
  reports how the run ended.
- **PropClient** (`PropClient.java`). This is the same tool with
  `runCommand` replaced by a console session. Each line is split at spaces
  and tabs. `exit`, in any case, ends the session, and every other line
  runs as a property command.
- **GroupMonitor** (`GroupMonitor.java`). It reads its options, opens one
  monitor link (FT1.2 or KNXnet/IP tunnelling) and waits while the link is
  open. It closes the link if it is still open and reports how it ended.

The KNX library is not modelled: the property client, the links, the
adapters, host-name resolution and the definitions resource. They appear
as oracles that the model is parameterised over:

- `Commands.Device` gives the client's answers;
- `Transport.Opening` says whether a link or an adapter opens;
- `Options.Env` gives name resolution, the local host (or the message of
  the `UnknownHostException` when it is unknown) and the
  individual-address parser;
- `PropertyTool.Platform` combines these with the definitions loader.

What a command does is the list of requests it sends (`Commands.Call`), the
lines it logs (`Base.LogEntry`) and the exception it raises.

Modules, in dependency order:

- `Base`: bytes, `Option`/`Result`, log entries, and Java's decimal and
  hex renderings.
- `JavaNumbers`: `Integer.parseInt`, `Long.parseLong`, `Integer.decode`
  and `Long.decode` as partial functions.
- `ValueCodec`: `toByteArray`, `getAuthorizeKey` and the hex groups of the
  `get` fallback.
- `Catalog`: `getPropertyDef` and the line `printDescription` writes.
- `Commands`: `runCommand` and the four command handlers.
- `Options`: the `parseOptions` scans of Property and GroupMonitor,
  `isOption` and `getMedium`.
- `Transport`: socket addresses, `createAdapter`, `createRemoteAdapter`
  and `GroupMonitor.createLink`.
- `PropClient`: `split`, the `exit` test and `runReaderLoop` over a finite
  sequence of console events.
- `PropertyTool`: the `Property` object (its fields `options`, `pc`,
  `lnk` and `definitions`, and its `run`), and the client's overriding
  `runCommand`.
- `GroupMonitor`: the `GroupMonitor` object with `start`, `quit`, `run`
  and `onCompletion`.

Four behaviours follow the code as written:

- `Property.run` starts `canceled` as true and never clears it, so every
  run past the information options logs "reading property canceled".
- `runReaderLoop` reads `args[0]` before it tests `args.length`. A blank
  line therefore ends the session with an index exception, which none of
  the loop's handlers catches. `PropClient.BlankLineEndsSession` states
  this.
- The help branch of `set` sits after the arity check and is unreachable.
- `desc` logs the wrong-number message even after a successful lookup.

## Model

| member | source | states |
|---|---|---|
| Base.ToHex | src/tuwien/auto/calimero/tools/Property.java:536-540 | the hex rendering of the raw data has two characters per byte: the digit of the byte's high nibble, then of its low nibble, byte by byte in order |
| Base.NatToString | src/tuwien/auto/calimero/tools/Property.java:415-416 | `Integer.toString` of a natural number is a non-empty string of decimal digits with no leading zero |
| Base.IntToStringNotDash | src/tuwien/auto/calimero/tools/Property.java:415-416 | no rendered PDT number can be mistaken for the "-" that marks a missing PDT |
| JavaNumbers.DigitOf | src/tuwien/auto/calimero/tools/Property.java:744 | `Character.digit` yields -1 or a digit value below 36 |
| JavaNumbers.ParseSigned | src/tuwien/auto/calimero/tools/Property.java:744-752 | `parseInt`/`parseLong` accept only a non-empty text, and only a value inside the type's range |
| JavaNumbers.DecodeRadix | src/tuwien/auto/calimero/tools/Property.java:731-734 | `Integer.decode` picks radix 8, 10 or 16 and skips a prefix that lies within the text |
| JavaNumbers.Decode | src/tuwien/auto/calimero/tools/Property.java:731-734 | `Integer.decode`/`Long.decode` yield only values inside the int or long range |
| JavaNumbers.ParseNatToString | src/tuwien/auto/calimero/tools/Property.java:752 | parsing the decimal rendering of a number in range gives the number back |
| JavaNumbers.ParseHexOfByte | src/tuwien/auto/calimero/tools/Property.java:744 | `parseInt(pair, 16)` of a byte's two hex digits is that byte |
| ValueCodec.Pow256 | src/tuwien/auto/calimero/tools/Property.java:753-758 | the place value of a byte position is positive |
| ValueCodec.BigEndian | src/tuwien/auto/calimero/tools/Property.java:756-758 | the second loop of `toByteArray` writes exactly as many bytes as it counted |
| ValueCodec.HexGroups | src/tuwien/auto/calimero/tools/Property.java:741-744 | a hex literal has `(length - 1) / 2` digit groups |
| ValueCodec.HexLiteralBytes | src/tuwien/auto/calimero/tools/Property.java:740-745 | the hex loop fills the array group by group and returns the parsed groups, or fails at the first group that is not a number |
| ValueCodec.NumberBytes | src/tuwien/auto/calimero/tools/Property.java:753-759 | the two loops count the bytes of the number and fill the array from the right, giving the long's bytes |
| ValueCodec.ToByteArray | src/tuwien/auto/calimero/tools/Property.java:736-760 | a `0x`/`0X` literal is decoded as hex groups; octal, binary and decimal literals are decoded as numbers; the error carries the text that does not parse |
| ValueCodec.ParseGroupsOk | src/tuwien/auto/calimero/tools/Property.java:743-745 | decoding succeeds exactly when every group parses, and then gives one byte per group, in order |
| ValueCodec.ParseGroupsErr | src/tuwien/auto/calimero/tools/Property.java:744 | a failed decoding names the first group that does not parse |
| ValueCodec.HexLiteralLength | src/tuwien/auto/calimero/tools/Property.java:740-745 | a hex literal that decodes has `(len - 1) / 2` bytes, each the parsed group at its position |
| ValueCodec.NumberLiteralLength | src/tuwien/auto/calimero/tools/Property.java:756 | a number literal that decodes gives at least one byte |
| ValueCodec.GroupByteOne | src/tuwien/auto/calimero/tools/Property.java:742-744 | a one-digit group parses to that digit's value |
| ValueCodec.GroupByteTwo | src/tuwien/auto/calimero/tools/Property.java:743-744 | a two-digit group parses to 16 times the first digit plus the second |
| ValueCodec.OddHexExample | src/tuwien/auto/calimero/tools/Property.java:742 | with an odd digit count the single leading digit makes the first byte: `0x123` is [0x01, 0x23] |
| ValueCodec.HexExamples | src/tuwien/auto/calimero/tools/Property.java:741 | `0x` alone is the empty array, and leading zero bytes survive |
| ValueCodec.HexRoundTrip | src/tuwien/auto/calimero/tools/Property.java:740-745 | rendering bytes as an even-length hex literal and decoding it gives the bytes back |
| ValueCodec.BigEndianSplit | src/tuwien/auto/calimero/tools/Property.java:757-758 | the written bytes hold the low part of a nonnegative number and the remaining quotient holds the rest |
| ValueCodec.MinimalBigEndian | src/tuwien/auto/calimero/tools/Property.java:753-759 | a nonnegative number becomes its minimal big-endian bytes: at least one byte, no leading zero byte unless it is the only one, reading back as the number, and exactly [0] for zero |
| ValueCodec.LongBytesExamples | src/tuwien/auto/calimero/tools/Property.java:753-759 | 0 is [0x00], 256 is [0x01, 0x00], and the truncating division makes -257 into [0xff, 0xff] |
| ValueCodec.NumberLiteralOfNat | src/tuwien/auto/calimero/tools/Property.java:747-752 | the decimal rendering of a long in range is read as decimal and gives the number back |
| ValueCodec.DecimalLiteral | src/tuwien/auto/calimero/tools/Property.java:747-759 | the decimal rendering of a nonnegative long is encoded as its minimal big-endian bytes |
| ValueCodec.OctalLiteral | src/tuwien/auto/calimero/tools/Property.java:747-759 | a non-hex literal with a leading `0` and more characters is accepted exactly when it is all octal digits whose number fits a long; it then gives that number's minimal big-endian bytes, reading back as the number; otherwise the error is the whole literal |
| ValueCodec.BinaryLiteral | src/tuwien/auto/calimero/tools/Property.java:747-759 | after a leading `b`, binary digits are accepted exactly when their number fits a long and give its bytes, reading back as the number; a lone `b` is refused with an empty text, and every error carries the text after the `b` |
| ValueCodec.OctalExample | src/tuwien/auto/calimero/tools/Property.java:747-759 | `010` is the single byte 8 |
| ValueCodec.BinaryExample | src/tuwien/auto/calimero/tools/Property.java:747-759 | `b101` is the single byte 5 |
| ValueCodec.ZeroExample | src/tuwien/auto/calimero/tools/Property.java:747-759 | a lone `0` is decimal, not octal, and is the single byte 0 |
| ValueCodec.RefusedLiteralExamples | src/tuwien/auto/calimero/tools/Property.java:740-750 | `08` is refused as a whole, and a lone `b` with an empty text |
| ValueCodec.BigEndianOfValue | src/tuwien/auto/calimero/tools/Property.java:697-698 | the big-endian bytes of a byte sequence's value are that sequence |
| ValueCodec.KeyBytes | src/tuwien/auto/calimero/tools/Property.java:697-698 | the shifted bytes of a key in range are four bytes whose big-endian value is the key |
| ValueCodec.KeyBytesOfValue | src/tuwien/auto/calimero/tools/Property.java:697-698 | every four bytes are the key bytes of exactly one number in 0..0xFFFFFFFF |
| ValueCodec.GetAuthorizeKey | src/tuwien/auto/calimero/tools/Property.java:692-699 | a key is accepted exactly when it decodes as a long in 0..0xFFFFFFFF, and is then four bytes with its value; a decodable value out of range gives "invalid authorize key" |
| ValueCodec.Slices | src/tuwien/auto/calimero/tools/Property.java:541-543 | the fallback cuts exactly `elems` slices |
| ValueCodec.SlicesCover | src/tuwien/auto/calimero/tools/Property.java:541-543 | all slices have the same width and together are the leading `count * chars` hex digits, with none lost or repeated |
| ValueCodec.FramedSnoc | src/tuwien/auto/calimero/tools/Property.java:543 | each round appends exactly one `0x<slice> ` block |
| Catalog.GetPropertyDef | src/tuwien/auto/calimero/tools/Property.java:424-431 | a definition is found exactly when definitions are loaded and hold the exact (object type, PID) key, and it is the one stored there |
| Catalog.ShownDefinitionRule | src/tuwien/auto/calimero/tools/Property.java:408-411 | lookup tries the exact key first and `GLOBAL_OBJTYPE` only on a miss; nothing is found when no definitions are loaded |
| Catalog.PdtTextDash | src/tuwien/auto/calimero/tools/Property.java:415-416 | the PDT column is "-" exactly when the device gives no PDT and no definition was found; a device PDT always wins |
| Catalog.DescriptionWithoutMatch | src/tuwien/auto/calimero/tools/Property.java:402-421 | loaded definitions without a match leave the description line as it is without definitions |
| Catalog.DescriptionWithMatch | src/tuwien/auto/calimero/tools/Property.java:412-416 | a matching definition adds its name after the PID and fills in a missing PDT |
| Commands.AppendGroups | src/tuwien/auto/calimero/tools/Property.java:538-543 | the fallback loop appends the hex groups to the initial text, faulting on a zero element count |
| Commands.DescriptionLines | src/tuwien/auto/calimero/tools/Property.java:602-605 | a scan logs one description line per description, in the order given |
| Commands.Caught | src/tuwien/auto/calimero/tools/Property.java:294-299 | the handlers keep the requests sent, and only a runtime fault escapes them |
| Commands.RunCommandContained | src/tuwien/auto/calimero/tools/Property.java:275-300 | client and number errors become error lines; an empty command always crashes on `cmd[0]` |
| Commands.NoMissingToken | src/tuwien/auto/calimero/tools/Property.java:519-606 | once a command has a first token, no handler reads a token that is not there |
| Commands.GetRangeFaults | src/tuwien/auto/calimero/tools/Property.java:538-543 | the only runtime fault of `get` is the division by a zero element count |
| Commands.GetReadsOnly | src/tuwien/auto/calimero/tools/Property.java:519-548 | `get` sends read requests only |
| Commands.DescReadsOnly | src/tuwien/auto/calimero/tools/Property.java:550-560 | `desc` sends read requests only |
| Commands.ScanReadsOnly | src/tuwien/auto/calimero/tools/Property.java:583-606 | `scan` sends read requests only |
| Commands.OnlySetWrites | src/tuwien/auto/calimero/tools/Property.java:280-292 | a command whose first token is not `set` writes nothing |
| Commands.ListAndUnknown | src/tuwien/auto/calimero/tools/Property.java:289-292 | `?` logs the command list and an unknown word logs "unknown command"; neither contacts the client |
| Commands.GetQueries | src/tuwien/auto/calimero/tools/Property.java:524-545 | `get` contacts the client only with 3 or 5 tokens, at most twice, and does so first with the text or translated read once the numbers parse |
| Commands.GetMessages | src/tuwien/auto/calimero/tools/Property.java:521-524 | `get ?` logs the usage; any count other than 2, 3 or 5 logs the wrong-number message and sends nothing |
| Commands.GetFallback | src/tuwien/auto/calimero/tools/Property.java:534-547 | when the translated read fails, the 5-token `get` logs the wrong-number text followed by `elems` groups of `0x` and `|hex| / elems` digits, covering the leading digits of the raw data (all of them when the count divides) |
| Commands.GetFallbackZero | src/tuwien/auto/calimero/tools/Property.java:538-541 | a zero element count in the fallback ends the command with a division by zero |
| Commands.SetCalls | src/tuwien/auto/calimero/tools/Property.java:562-581 | `set` sends exactly the intended write when its tokens read, and nothing otherwise; fewer than 4 or more than 6 tokens only log the wrong-number message |
| Commands.SetWriteCalls | src/tuwien/auto/calimero/tools/Property.java:572-580 | 4 tokens write a string at index 1, 5 at an explicit index, 6 write `toByteArray` data with index and count |
| Commands.SetNeverHelps | src/tuwien/auto/calimero/tools/Property.java:564-571 | the `set` help is never shown: `set ?` fails the arity check first |
| Commands.DescMessages | src/tuwien/auto/calimero/tools/Property.java:550-560 | `desc` looks up by PID with 3 tokens and by index with `i`; everything but `desc ?` ends with the wrong-number message, even after a successful lookup |
| Commands.ScanCalls | src/tuwien/auto/calimero/tools/Property.java:583-606 | each shape of `scan` sends its own request and logs the returned descriptions; `scan ?` shows help, and other shapes log the wrong-number message without contacting the client |
| Commands.ScanInOrder | src/tuwien/auto/calimero/tools/Property.java:602-605 | a scan that does not raise logs exactly the returned descriptions, in order |
| Options.GetMediumIds | src/tuwien/auto/calimero/tools/Property.java:673-690 | exactly `tp0`, `tp1`, `p110`, `p132` and `rf` name a medium, each a different one |
| Options.ScanStep | src/tuwien/auto/calimero/tools/Property.java:442-500 | each round of the scan advances past its token and any argument it takes, without passing the end |
| Options.Validate | src/tuwien/auto/calimero/tools/Property.java:501-506 | the final checks accept exactly the maps that satisfy the tool's rules, and leave them unchanged |
| Options.ParseOptionsLoop | src/tuwien/auto/calimero/tools/Property.java:433-507 | the loop of `parseOptions` computes the left-to-right scan from the defaults, followed by the checks |
| Options.StepFacts | src/tuwien/auto/calimero/tools/Property.java:442-500 | a token either stores one value under its own name and hands on to a later index, or ends the scan with an error, a stop, or the command |
| Options.OptionKeys | src/tuwien/auto/calimero/tools/Property.java:452-484 | no option stores under `help`, `version` or `command` |
| Options.ScanKeeps | src/tuwien/auto/calimero/tools/Property.java:442-500 | the scan only adds to the map, and an entry that no later token sets keeps its value |
| Options.ScanKeepsAll | src/tuwien/auto/calimero/tools/Property.java:442-500 | the scan never removes an entry |
| Options.SetterNames | src/tuwien/auto/calimero/tools/GroupMonitor.java:342-349 | only `-port`/`-p` set the port and only `-medium`/`-m` set the medium |
| Options.DefaultsKept | src/tuwien/auto/calimero/tools/GroupMonitor.java:322-349 | a non-empty argument list always yields a port and a medium, namely 3671 and TP1 unless an option sets them |
| Options.ScanStops | src/tuwien/auto/calimero/tools/Property.java:444-451 | a scan stops exactly when it stores `help` or `version` |
| Options.ScanIgnoresRest | src/tuwien/auto/calimero/tools/GroupMonitor.java:328-335 | after `-help` or `-version`, later tokens change nothing |
| Options.HelpAndVersion | src/tuwien/auto/calimero/tools/Property.java:444-451 | a result holding `help` or `version` is kept whatever follows and skips the checks; any other result passed them |
| Options.ScanCommand | src/tuwien/auto/calimero/tools/Property.java:485-492 | the command is the first command word the scan reaches, together with every later token; the group monitor never stores one |
| Options.CommandWords | src/tuwien/auto/calimero/tools/Property.java:485-487 | only `get`, `set`, `desc`, `scan` and `?` start a command; the group monitor recognises none |
| Options.PositionalRule | src/tuwien/auto/calimero/tools/GroupMonitor.java:350-356 | a positional token after `-serial` replaces the serial identifier; otherwise the first one is the resolved host and a second is "unknown option" |
| Options.MissingArgumentRule | src/tuwien/auto/calimero/tools/Property.java:456-482 | an option that takes an argument, given last, is refused for its missing argument |
| Options.ValueKeys | src/tuwien/auto/calimero/tools/Property.java:454-482 | the options that take an argument, each with the way its argument is read |
| Options.FlagKeys | src/tuwien/auto/calimero/tools/Property.java:452-484 | options without an argument store a flag under their own names |
| Options.StepTyped | src/tuwien/auto/calimero/tools/Property.java:442-500 | every token stores a value of the type its key is later cast to |
| Options.ScanTyped | src/tuwien/auto/calimero/tools/Property.java:442-500 | the scan keeps every entry of the type its key is cast to |
| Options.ParsedTyped | src/tuwien/auto/calimero/tools/Property.java:433-507 | a parsed non-empty argument list gives a well-typed map with a port and a medium |
| Options.EmptyArguments | src/tuwien/auto/calimero/tools/GroupMonitor.java:318-319 | no arguments give the empty map, with no defaults |
| Transport.SocketFor | src/tuwien/auto/calimero/tools/Property.java:337-338 | a socket address exists exactly for a port in 0..65535 |
| Transport.LocalSocketChoice | src/tuwien/auto/calimero/tools/Property.java:712-723 | there is no local address exactly when neither a local host nor a nonzero local port is given; a given local host is always used; a nonzero port without a local host fails with the platform's `UnknownHostException` message when the local host is unknown |
| Transport.SerialLink | src/tuwien/auto/calimero/tools/GroupMonitor.java:283-291 | the FT1.2 link is opened by port number exactly when the identifier parses as an int, otherwise by name |
| Transport.AdapterChoice | src/tuwien/auto/calimero/tools/Property.java:332-398 | local device management exactly with `-local`; otherwise FT1.2 exactly with `-serial`, routing exactly with `-routing`, authorization exactly with a key, and the medium and NAT flag of the options |
| Transport.AdapterErrors | src/tuwien/auto/calimero/tools/Property.java:335-338 | creating the adapter fails exactly when a socket address cannot be made |
| Transport.MonitorNeverRoutes | src/tuwien/auto/calimero/tools/GroupMonitor.java:280-303 | the monitor uses a serial link exactly with `-serial`, never fails on sockets for it, and otherwise always tunnels to the options' host and port |
| Transport.Link.Close | src/tuwien/auto/calimero/tools/GroupMonitor.java:218 | closing the link leaves it closed and counts one close |
| Transport.Link.Drop | src/tuwien/auto/calimero/tools/GroupMonitor.java:65-84 | a link closed by the network is closed without a close by the tool |
| PropClient.Skip | src/tuwien/auto/calimero/tools/PropClient.java:206 | the tokenizer skips only delimiters and stops at a non-delimiter |
| PropClient.Word | src/tuwien/auto/calimero/tools/PropClient.java:209 | a token is the longest delimiter-free prefix |
| PropClient.TokensWellFormed | src/tuwien/auto/calimero/tools/PropClient.java:204-211 | no token is empty or holds a space or tab, and a line has no token exactly when it is all spaces and tabs |
| PropClient.TokensAround | src/tuwien/auto/calimero/tools/PropClient.java:206 | text on either side of a delimiter splits independently |
| PropClient.TokensOfWord | src/tuwien/auto/calimero/tools/PropClient.java:204-211 | a single delimiter-free word splits into itself |
| PropClient.SplitJoin | src/tuwien/auto/calimero/tools/PropClient.java:204-211 | splitting tokens joined by spaces gives the tokens back, in order |
| PropClient.Split | src/tuwien/auto/calimero/tools/PropClient.java:204-211 | the array is as long as the token count and holds the maximal runs of non-delimiters, in order |
| PropClient.ExitSpellings | src/tuwien/auto/calimero/tools/PropClient.java:85 | any case of "exit", including the dotted and dotless i, ends the session; other words do not |
| PropClient.ReadTurn | src/tuwien/auto/calimero/tools/PropClient.java:84-99 | the loop goes on only after a round that raised nothing |
| PropClient.NothingAfterExit | src/tuwien/auto/calimero/tools/PropClient.java:84-99 | nothing after `exit`, an interrupt, an I/O error or the end of input is run |
| PropClient.LinesInOrder | src/tuwien/auto/calimero/tools/PropClient.java:84-89 | without a runtime fault, every command line before the stop runs exactly once, in input order |
| PropClient.BlankLineEndsSession | src/tuwien/auto/calimero/tools/PropClient.java:85-87 | a blank line ends the session with an uncaught index exception |
| PropClient.SessionOutput | src/tuwien/auto/calimero/tools/PropClient.java:84-99 | without a runtime fault, the session's output is, for each command line before the stop, once and in input order, the prompt and that command's output; then the prompt of the stopping read and the interrupt note or the "I/O error, " line |
| PropClient.PromptFirst | src/tuwien/auto/calimero/tools/PropClient.java:195 | whatever the events, a crash included, the session's output starts with the prompt |
| PropertyTool.Client.Close | src/tuwien/auto/calimero/tools/Property.java:254-255 | closing the client leaves it closed and counts one close |
| PropertyTool.Property.RunCommand | src/tuwien/auto/calimero/tools/Property.java:275-300 | one command logs and sends what the command set gives for it, and changes no other field |
| PropertyTool.Property.RunReaderLoop | src/tuwien/auto/calimero/tools/PropClient.java:78-100 | the loop appends the session's output and requests to the tool's, and ends with its exception |
| PropertyTool.Property.ReadAndRun | src/tuwien/auto/calimero/tools/PropClient.java:84-89 | one round prompts, reads a line and runs it unless the line ends the loop |
| PropertyTool.Property.InteractiveCommand | src/tuwien/auto/calimero/tools/PropClient.java:67-76 | the client removes `command` from the options, prints the exit hint, runs `?`, then the console session |
| PropertyTool.Property.Run | src/tuwien/auto/calimero/tools/Property.java:199-260 | the run logs and sends exactly the run's specification, including the adapter's "connection closed" line; information options open nothing; otherwise the client and the link are closed exactly once whenever they were opened |
| PropertyTool.Property.Work | src/tuwien/auto/calimero/tools/Property.java:217-259 | past the information options: the load error if any, then the command stage, the adapter's "connection closed" line and the completion lines when the adapter exists, or only the completion lines when it does not; everything opened is closed exactly once |
| PropertyTool.Property.Serve | src/tuwien/auto/calimero/tools/Property.java:240-259 | once the adapter was asked for: the command stage if the client exists, then both closes, where closing the client logs the adapter's "connection closed" line, then the completion report |
| PropertyTool.Property.CloseAll | src/tuwien/auto/calimero/tools/Property.java:253-257 | the `finally` closes the client and the link where they exist, each once; closing the client adds exactly the adapter's "connection closed" line to the log |
| PropertyTool.Property.AdapterClosed | src/tuwien/auto/calimero/tools/Property.java:262-267 | the adapter listener logs "connection closed" with the close event's reason and changes nothing else, since the tool's own close is a user request and interrupts nothing |
| PropertyTool.Property.LoadDefinitions | src/tuwien/auto/calimero/tools/Property.java:217-227 | definitions are loaded when asked for; a failure is logged and leaves none |
| PropertyTool.Property.RunStage | src/tuwien/auto/calimero/tools/Property.java:241 | `run` hands the options' command to `runCommand` |
| PropertyTool.Property.Connect | src/tuwien/auto/calimero/tools/Property.java:233 | the link is kept once it opens, and the client exists only once the adapter does |
| PropertyTool.Property.OnCompletion | src/tuwien/auto/calimero/tools/Property.java:310-316 | a canceled line, then an error line when an exception was thrown |
| PropertyTool.Create | src/tuwien/auto/calimero/tools/Property.java:105-117 | a tool exists exactly when its options parse, and it holds them; otherwise the parse error is raised |
| PropertyTool.InformationRun | src/tuwien/auto/calimero/tools/Property.java:202-215 | the information options load, open and send nothing and log only the banner, usage or version, with help first |
| PropertyTool.RunEnding | src/tuwien/auto/calimero/tools/Property.java:229-267 | every run past the information options ends with the canceled line, followed by "on completion" exactly when it ended with an exception; the "connection closed" line stands just before them exactly when the adapter was created |
| PropertyTool.InteractiveIgnoresCommand | src/tuwien/auto/calimero/tools/PropClient.java:69-70 | the client's run is the same with or without a command-line command |
| PropertyTool.SetupIgnoresCommand | src/tuwien/auto/calimero/tools/Property.java:217-238 | the connection and the definitions do not depend on the command |
| PropertyTool.AdapterIgnoresCommand | src/tuwien/auto/calimero/tools/Property.java:332-343 | the adapter does not depend on the command |
| PropertyTool.RemoteIgnoresCommand | src/tuwien/auto/calimero/tools/Property.java:373-398 | the remote adapter does not depend on the command |
| PropertyTool.CommandLineRun | src/tuwien/auto/calimero/tools/Property.java:240-241 | a command-line run sends exactly the requests of its one command, and only `set` writes; without a command it sends nothing and logs only the adapter's "connection closed" line and the canceled line |
| PropertyTool.InteractiveRun | src/tuwien/auto/calimero/tools/PropClient.java:67-76 | the client's run logs the exit hint, the command list, the session and the adapter's "connection closed" line before the completion lines, and sends only the session's requests |
| GroupMonitor.Monitor.Start | src/tuwien/auto/calimero/tools/GroupMonitor.java:188-209 | `start` prints the information, or opens the chosen link; a link exists exactly when it connected |
| GroupMonitor.Monitor.Quit | src/tuwien/auto/calimero/tools/GroupMonitor.java:215-223 | `quit` closes only a non-null, open link, so repeated calls close it at most once; exactly that close logs the listener's "network monitor closed" line |
| GroupMonitor.Monitor.LinkClosed | src/tuwien/auto/calimero/tools/GroupMonitor.java:65-73 | the link listener logs "network monitor closed" with the close event's reason and keeps the link |
| GroupMonitor.Monitor.OnCompletion | src/tuwien/auto/calimero/tools/GroupMonitor.java:263-270 | a "stopped" line when canceled, then the exception's message |
| GroupMonitor.Monitor.Run | src/tuwien/auto/calimero/tools/GroupMonitor.java:151-178 | the run logs exactly the run's specification, including one "network monitor closed" line for an opened link; whatever happens no link is left open; the tool closes it once, or never when the network closed it |
| GroupMonitor.Create | src/tuwien/auto/calimero/tools/GroupMonitor.java:94-106 | a monitor exists exactly when its options parse, and it holds them |
| GroupMonitor.InformationOnly | src/tuwien/auto/calimero/tools/GroupMonitor.java:190-203 | information options open nothing and log only the banner, usage or version, with help first |
| GroupMonitor.RunEnding | src/tuwien/auto/calimero/tools/GroupMonitor.java:151-178 | past the information options, the run logs only the error line when opening failed, only "stopped" when opening was interrupted, and for an opened link its "network monitor closed" line, followed by "stopped" exactly when the wait was interrupted |
| GroupMonitor.MonitorOpens | src/tuwien/auto/calimero/tools/GroupMonitor.java:280-303 | the opened link is the one `createLink` chooses: serial exactly with `-serial`, never routing |
| GroupMonitor.NoLocalHostLine | src/tuwien/auto/calimero/tools/GroupMonitor.java:427-437 | a nonzero local port without a local host and an unknown local host make the run log only "failed to get local host " followed by the platform's message |
| GroupMonitor.SerialFailures | src/tuwien/auto/calimero/tools/GroupMonitor.java:283-291 | a serial monitor fails only when the library refuses the link |

## Left out

- The KNX library is not modelled: `PropertyClient`, `KNXNetworkLinkIP`, `KNXNetworkLinkFT12`, `LocalDeviceMgmtAdapter`, `RemotePropertyServiceAdapter` and `PropertyClient.loadDefinitions`. They are oracles, and the device does not remember writes.
- `InetAddress.getByName`, `getLocalHost` and `IndividualAddress` parsing are not modelled; each is an oracle in `Options.Env` that may fail.
- Threads are not modelled: the `wait(500)` loop with `notify` and `notifyAll`, `ShutdownHandler`, and the `ready()`/`wait(200)` polling of `readLine`. How the wait ends is a parameter (`GroupMonitor.Ending`), and an interrupt while opening is an `Opening` answer.
- The close listeners are modelled for the lines they log, as called at the close: `PropertyTool.Property.AdapterClosed` when `run` closes the client, and `GroupMonitor.Monitor.LinkClosed` when the monitor link closes. The close event's reason comes from the library and is a parameter (`PropertyTool.Platform.closeReason`, the `reason` of `GroupMonitor.Monitor.Run`). The adapter reports its close only when `run` closes it.
- `PropertyTool.Property.AdapterClosed`: does not model the interrupt of the owner thread for a close the tool did not request, because the model has no threads.
- Log-level filtering and `-verbose` are not modelled: every log record is kept with its level.
- The texts of `showUsage`, `showVersion`, `showCommandList`, the help texts and `Settings.getLibraryHeader` are kept by kind only, not verbatim.
- The detail of a `NumberFormatException` message is not modelled; it is kept as the offending input.
- The exception attached to "on completion" is not modelled: only whether there is one.
- Unicode digits and case mappings are not modelled: only ASCII digits count, and `equalsIgnoreCase` covers the letters of "exit", including the dotted and dotless i.
- CEMI frame logging in `onIndication`, `onConfirmation` and `logFrame` is not modelled, because it is library formatting.
- The `main` methods are not modelled: they create a log writer and call the constructor and `run`.
- A `KNXIllegalArgumentException` raised by the client during a command is not modelled; only `KNXException` answers are.
- `PropertyTool.Property.Run`: `runCommand` is a parameter of type `CommandSet`, as the client's subclass overrides it. The tool's own is `PropertyTool.ToolCommandSet`, and `PropertyTool.CommandLineRun` and `PropertyTool.InteractiveRun` state the run with it.
- `Options.CommandWords`: states only that a command starts with one of the five words, not that each of the five does.
