/**
 * Shared vocabulary of the calimero tools model: bytes, the failure
 * wrappers, the log the tools write to, and Java's decimal and hex
 * renderings of numbers and byte arrays.
 */
module Base {

  /** A Java `byte`, kept as the unsigned value of its eight bits. */
  type byte = x: int | 0 <= x < 256

  datatype Option<+T> = None | Some(value: T)

  datatype Result<+T, +E> = Ok(value: T) | Err(error: E)

  /** Severities used by the tools' `LogService`. */
  datatype Level = Always | Info | Error

  /**
   * What a log line says. Plain text is kept verbatim; the usage, version,
   * command-list and command-help texts (which hold the platform's line
   * separator) and the detail of a Java `NumberFormatException` are kept by
   * kind only.
   */
  datatype Message =
    | Text(text: string)
    | InvalidNumber(input: string)   // "invalid number (<detail of the input>)"
    | CommandList                    // showCommandList
    | Usage(tool: string)            // showUsage
    | Version(tool: string)          // showVersion
    | Help(command: string)          // printHelp of the command's usage lines

  /**
   * One piece of a tool's output: a log record, a line printed straight to
   * the console, or the "> " prompt printed without a line break.
   */
  datatype LogEntry = Entry(level: Level, msg: Message) | Print(line: string) | Prompt

  function Say(level: Level, text: string): LogEntry
  {
    Entry(level, Text(text))
  }

  predicate StartsWith(s: string, prefix: string)
  {
    |prefix| <= |s| && s[..|prefix|] == prefix
  }

  // ---------------------------------------------------------------------
  // Decimal rendering (Integer.toString)

  function DecimalDigit(d: nat): (c: char)
    requires d < 10
    ensures '0' <= c <= '9'
  {
    ('0' as int + d) as char
  }

  /** Decimal digits of a natural number, most significant first. */
  function NatToString(n: nat): (s: string)
    ensures |s| >= 1
    ensures forall i :: 0 <= i < |s| ==> '0' <= s[i] <= '9'
    ensures n > 0 ==> s[0] != '0'
  {
    if n < 10 then [DecimalDigit(n)] else NatToString(n / 10) + [DecimalDigit(n % 10)]
  }

  /** Java's `Integer.toString`: a minus sign before the digits of a negative number. */
  function IntToString(n: int): string
  {
    if n < 0 then "-" + NatToString(-n) else NatToString(n)
  }

  /** The rendering of a number is never the lone dash that stands for "no value". */
  lemma IntToStringNotDash(n: int)
    ensures IntToString(n) != "-"
  {
    if n < 0 {
      assert |IntToString(n)| >= 2;
    } else {
      assert '0' <= IntToString(n)[0] <= '9';
    }
  }

  // ---------------------------------------------------------------------
  // Hex rendering (DataUnitBuilder.toHex with an empty separator)

  function HexDigit(d: nat): (c: char)
    requires d < 16
    ensures '0' <= c <= '9' || 'a' <= c <= 'f'
  {
    if d < 10 then ('0' as int + d) as char else ('a' as int + d - 10) as char
  }

  /** Two lower-case hex digits per byte, no separator: the high nibble, then the low one. */
  function ToHex(data: seq<byte>): (s: string)
    ensures |s| == 2 * |data|
    ensures forall j :: 0 <= j < |data| ==>
      s[2 * j] == HexDigit(data[j] / 16) && s[2 * j + 1] == HexDigit(data[j] % 16)
  {
    if data == [] then [] else [HexDigit(data[0] / 16), HexDigit(data[0] % 16)] + ToHex(data[1..])
  }

  /** `Arrays.asList(values).toString()`: "[a, b, c]". */
  function ListToString(values: seq<string>): string
  {
    "[" + Joined(values) + "]"
  }

  function Joined(values: seq<string>): string
  {
    if values == [] then ""
    else if |values| == 1 then values[0]
    else values[0] + ", " + Joined(values[1..])
  }

  /** Appending is associative. */
  lemma AppendAssoc<T>(a: seq<T>, b: seq<T>, c: seq<T>)
    ensures a + (b + c) == (a + b) + c
  {
  }
}
