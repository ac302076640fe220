/**
 * The interactive property client: a console line is split into tokens at
 * spaces and tabs, "exit" (in any case) ends the session, and every other
 * line is run as a property command. The session itself runs inside the
 * property tool (see `PropertyTool.Property.RunReaderLoop`), which is how
 * the client's subclass of the tool overrides `runCommand`.
 */
module PropClient {
  import opened Base
  import opened Catalog
  import opened Commands

  const ClientName: string := "PropClient"
  const ExitHint: string := "exit - close connection and exit"
  const InterruptNote: string := "received quit (interrupt), closing ..."

  // ---------------------------------------------------------------------
  // split: java.util.StringTokenizer with the delimiters " \t"

  predicate IsDelimiter(c: char)
  {
    c == ' ' || c == '\t'
  }

  predicate NoDelimiter(s: string)
  {
    forall i :: 0 <= i < |s| ==> !IsDelimiter(s[i])
  }

  predicate OnlyDelimiters(s: string)
  {
    forall i :: 0 <= i < |s| ==> IsDelimiter(s[i])
  }

  /** The number of delimiters that start `s`. */
  function Skip(s: string): (n: nat)
    ensures n <= |s|
    ensures OnlyDelimiters(s[..n])
    ensures n < |s| ==> !IsDelimiter(s[n])
  {
    if s == [] || !IsDelimiter(s[0]) then 0 else 1 + Skip(s[1..])
  }

  /** The longest prefix of `s` without a delimiter. */
  function Word(s: string): (w: string)
    ensures |w| <= |s| && w == s[..|w|]
    ensures NoDelimiter(w)
    ensures |w| < |s| ==> IsDelimiter(s[|w|])
  {
    if s == [] || IsDelimiter(s[0]) then [] else [s[0]] + Word(s[1..])
  }

  /** The tokens `StringTokenizer` hands out, in order. */
  function Tokens(s: string): seq<string>
    decreases |s|
  {
    if s == [] then []
    else if IsDelimiter(s[0]) then Tokens(s[1..])
    else [Word(s)] + Tokens(s[|Word(s)|..])
  }

  /** Leading delimiters are skipped. */
  lemma {:induction false} TokensSkip(s: string)
    ensures Tokens(s) == Tokens(s[Skip(s)..])
    decreases |s|
  {
    if s != [] && IsDelimiter(s[0]) {
      TokensSkip(s[1..]);
      assert s[1..][Skip(s[1..])..] == s[Skip(s)..];
    }
  }

  /**
   * Every token is non-empty and holds no delimiter, and only a line of
   * delimiters alone has no token.
   */
  lemma {:induction false} TokensWellFormed(s: string)
    ensures forall k :: 0 <= k < |Tokens(s)| ==> |Tokens(s)[k]| > 0 && NoDelimiter(Tokens(s)[k])
    ensures Tokens(s) == [] <==> forall i :: 0 <= i < |s| ==> IsDelimiter(s[i])
    decreases |s|
  {
    if s == [] {
    } else if IsDelimiter(s[0]) {
      TokensWellFormed(s[1..]);
      if Tokens(s) == [] {
        forall i | 0 <= i < |s|
          ensures IsDelimiter(s[i])
        {
          if i > 0 {
            assert s[i] == s[1..][i - 1];
          }
        }
      }
    } else {
      var w := Word(s);
      assert w[0] == s[0];
      TokensWellFormed(s[|w|..]);
    }
  }

  /** The word in front of a delimiter does not reach past it. */
  lemma {:induction false} WordBeforeDelimiter(a: string, d: char, b: string)
    requires IsDelimiter(d)
    ensures Word(a + [d] + b) == Word(a)
    ensures (a + [d] + b)[|Word(a)|..] == a[|Word(a)|..] + [d] + b
    decreases |a|
  {
    if a == [] {
    } else if IsDelimiter(a[0]) {
    } else {
      assert (a + [d] + b)[1..] == a[1..] + [d] + b;
      WordBeforeDelimiter(a[1..], d, b);
    }
  }

  /** Text on either side of a delimiter is split independently. */
  lemma {:induction false} TokensAround(a: string, d: char, b: string)
    requires IsDelimiter(d)
    ensures Tokens(a + [d] + b) == Tokens(a) + Tokens(b)
    decreases |a|
  {
    if a == [] {
      assert [d] + b == a + [d] + b;
      assert ([d] + b)[1..] == b;
    } else if IsDelimiter(a[0]) {
      assert (a + [d] + b)[1..] == a[1..] + [d] + b;
      TokensAround(a[1..], d, b);
    } else {
      WordBeforeDelimiter(a, d, b);
      var w := Word(a);
      assert |w| > 0 by { assert w == [a[0]] + Word(a[1..]); }
      TokensAround(a[|w|..], d, b);
    }
  }

  /** Tokens joined by single spaces. */
  function JoinSpaces(tokens: seq<string>): string
  {
    if tokens == [] then "" else if |tokens| == 1 then tokens[0] else tokens[0] + " " + JoinSpaces(tokens[1..])
  }

  /** A single non-empty token without a delimiter splits into itself. */
  lemma {:induction false} TokensOfWord(t: string)
    requires |t| > 0 && NoDelimiter(t)
    ensures Tokens(t) == [t]
  {
    assert Word(t) == t by { WordOfWord(t); }
    assert t[|t|..] == [];
  }

  lemma {:induction false} WordOfWord(t: string)
    requires NoDelimiter(t)
    ensures Word(t) == t
    decreases |t|
  {
    if t != [] {
      WordOfWord(t[1..]);
      assert t == [t[0]] + t[1..];
    }
  }

  /** Splitting undoes joining with spaces: the tokens come back in order. */
  lemma {:induction false} SplitJoin(tokens: seq<string>)
    requires forall k :: 0 <= k < |tokens| ==> |tokens[k]| > 0 && NoDelimiter(tokens[k])
    ensures Tokens(JoinSpaces(tokens)) == tokens
    decreases |tokens|
  {
    if tokens == [] {
    } else if |tokens| == 1 {
      TokensOfWord(tokens[0]);
    } else {
      TokensOfWord(tokens[0]);
      SplitJoin(tokens[1..]);
      TokensAround(tokens[0], ' ', JoinSpaces(tokens[1..]));
      assert tokens[0] + " " + JoinSpaces(tokens[1..]) == tokens[0] + [' '] + JoinSpaces(tokens[1..]);
      assert [tokens[0]] + tokens[1..] == tokens;
    }
  }

  /**
   * The next token of `rest`, when its tokens are the `i`-th and later of
   * `all`: the word after the delimiters that start `rest` is the `i`-th,
   * and the rest follow it.
   */
  lemma NextToken(rest: string, all: seq<string>, i: nat)
    requires i < |all| && Tokens(rest) == all[i..]
    ensures var start := Skip(rest);
      var w := Word(rest[start..]);
      start + |w| <= |rest| && w == all[i] && Tokens(rest[start + |w|..]) == all[i + 1..]
  {
    TokensSkip(rest);
    var start := Skip(rest);
    var w := Word(rest[start..]);
    assert rest[start..][|w|..] == rest[start + |w|..];
    assert all[i..][0] == all[i] && all[i..][1..] == all[i + 1..];
  }

  /**
   * `split`: an array as long as `countTokens`, filled with one
   * `nextToken` per slot.
   */
  method Split(text: string) returns (r: seq<string>)
    ensures r == Tokens(text)
  {
    ghost var all := Tokens(text);
    var tokens := new string[|Tokens(text)|];
    var rest := text;
    var i := 0;
    while i < tokens.Length
      invariant 0 <= i <= tokens.Length == |all|
      invariant tokens[..i] == all[..i] && Tokens(rest) == all[i..]
      decreases tokens.Length - i
    {
      NextToken(rest, all, i);
      var start := Skip(rest);
      var w := Word(rest[start..]);
      tokens[i] := w;
      assert tokens[..i + 1] == all[..i + 1];
      rest := rest[start + |w|..];
      i := i + 1;
    }
    assert tokens[..] == tokens[..i];
    r := tokens[..];
  }

  // ---------------------------------------------------------------------
  // "exit".equalsIgnoreCase(token)

  /**
   * `c` equals the lower-case ASCII letter `lower` ignoring case, the way
   * `String.equalsIgnoreCase` compares characters: equal after upper-casing,
   * or after lower-casing the upper-cased characters. For 'i' this also
   * admits the dotted capital I (U+0130) and the dotless small i (U+0131).
   */
  predicate SameLetter(c: char, lower: char)
    requires 'a' <= lower <= 'z'
  {
    c == lower || c as int == lower as int - 32 || (lower == 'i' && (c == 'İ' || c == 'ı'))
  }

  predicate IsExit(token: string)
  {
    |token| == 4 && SameLetter(token[0], 'e') && SameLetter(token[1], 'x') && SameLetter(token[2], 'i')
    && SameLetter(token[3], 't')
  }

  /** Any case of "exit" ends the session; other words do not. */
  lemma ExitSpellings()
    ensures IsExit("exit") && IsExit("EXIT") && IsExit("Exit") && IsExit("eXiT")
    ensures IsExit("exİt") && IsExit("exıt")
    ensures !IsExit("exit!") && !IsExit("quit") && !IsExit("exi") && !IsExit("")
  {
  }

  // ---------------------------------------------------------------------
  // runReaderLoop

  /** What one `readLine` on the console meets after the prompt. */
  datatype ConsoleEvent =
    | Input(line: string)         // a line was read
    | Interrupt                   // InterruptedException or InterruptedIOException
    | IoFailure(message: string)  // another IOException

  /**
   * The `runCommand` a line is handed to, as the outcome it gives for a
   * command; for the property tool it is `Commands.RunCommand` over the
   * device and the loaded definitions.
   */
  type Runner = Option<seq<string>> -> Outcome

  /** What a session produced: its output, the device calls, and the exception that ended it. */
  datatype Session = Session(log: seq<LogEntry>, calls: seq<Call>, raised: Option<Raised>)

  /** What one round of the loop did, and whether the loop goes on. */
  datatype Turn = Turn(log: seq<LogEntry>, calls: seq<Call>, raised: Option<Raised>, more: bool)

  /**
   * One round: the prompt, then the event. A blank line reaches `args[0]`
   * of an empty array before the length test, so it ends the session with
   * an index exception; a runtime fault of a command ends it as well.
   */
  function ReadTurn(e: ConsoleEvent, run: Runner): (t: Turn)
    ensures t.more ==> t.raised.None?
  {
    match e
    case Interrupt => Turn([Prompt, Print(InterruptNote)], [], None, false)
    case IoFailure(m) => Turn([Prompt, Print("I/O error, " + m)], [], None, false)
    case Input(line) =>
      var args := Tokens(line);
      if |args| == 0 then Turn([Prompt], [], Some(Crash(MissingToken)), false)
      else if IsExit(args[0]) then Turn([Prompt], [], None, false)
      else
        var o := run(Some(args));
        Turn([Prompt] + o.log, o.calls, o.raised, o.raised.None?)
  }

  /**
   * The reader loop over the console's events; when they run out, the
   * console is at its end and `readLine` returns `null`.
   */
  function Loop(events: seq<ConsoleEvent>, run: Runner): Session
    decreases |events|
  {
    if events == [] then Session([Prompt], [], None)
    else
      var t := ReadTurn(events[0], run);
      if !t.more then Session(t.log, t.calls, t.raised)
      else
        var rest := Loop(events[1..], run);
        Session(t.log + rest.log, t.calls + rest.calls, rest.raised)
  }

  /** One turn of the loop from position `i` on, and the loop after it. */
  lemma LoopStep(events: seq<ConsoleEvent>, i: nat, run: Runner)
    requires i < |events|
    ensures var t := ReadTurn(events[i], run);
      var rest := Loop(events[i + 1..], run);
      Loop(events[i..], run) ==
        if t.more then Session(t.log + rest.log, t.calls + rest.calls, rest.raised)
        else Session(t.log, t.calls, t.raised)
  {
    assert events[i..][0] == events[i] && events[i..][1..] == events[i + 1..];
  }

  /** The command lines the loop runs: the lines before the first one that ends it. */
  function CommandLines(events: seq<ConsoleEvent>): (lines: seq<seq<string>>)
    decreases |events|
  {
    if events == [] || !events[0].Input? then []
    else
      var args := Tokens(events[0].line);
      if |args| == 0 || IsExit(args[0]) then [] else [args] + CommandLines(events[1..])
  }

  /** The device calls of a run of commands, one after another. */
  function CallsOf(lines: seq<seq<string>>, run: Runner): seq<Call>
  {
    if lines == [] then [] else run(Some(lines[0])).calls + CallsOf(lines[1..], run)
  }

  /**
   * Nothing after "exit", an interrupt, an I/O error or the end of input
   * is run: the session is the same whatever follows.
   */
  lemma {:induction false} NothingAfterExit(events: seq<ConsoleEvent>, k: nat, more: seq<ConsoleEvent>, run: Runner)
    requires k < |events|
    requires !events[k].Input? || (|Tokens(events[k].line)| > 0 && IsExit(Tokens(events[k].line)[0]))
    ensures Loop(events[..k + 1] + more, run) == Loop(events, run)
    decreases k
  {
    var e := events[..k + 1] + more;
    assert e[0] == events[0];
    if k > 0 {
      assert e[1..] == events[1..][..k] + more;
      NothingAfterExit(events[1..], k - 1, more, run);
    }
  }

  /**
   * Without a runtime fault, the loop runs exactly the command lines before
   * the one that ends it, each once and in order.
   */
  lemma {:induction false} LinesInOrder(events: seq<ConsoleEvent>, run: Runner)
    requires Loop(events, run).raised.None?
    ensures Loop(events, run).calls == CallsOf(CommandLines(events), run)
    decreases |events|
  {
    if events != [] && events[0].Input? {
      var args := Tokens(events[0].line);
      if |args| > 0 && !IsExit(args[0]) {
        LinesInOrder(events[1..], run);
      }
    }
  }

  /** The output of a run of commands, each after its prompt, one after another. */
  function OutputOf(lines: seq<seq<string>>, run: Runner): seq<LogEntry>
  {
    if lines == [] then [] else [Prompt] + run(Some(lines[0])).log + OutputOf(lines[1..], run)
  }

  /**
   * The event that ends the loop, if it is not the end of input: the first
   * one that is not a command line (an interrupt, an I/O error, "exit" or
   * a blank line).
   */
  function StopEvent(events: seq<ConsoleEvent>): Option<ConsoleEvent>
    decreases |events|
  {
    if events == [] then None
    else if !events[0].Input? then Some(events[0])
    else
      var args := Tokens(events[0].line);
      if |args| == 0 || IsExit(args[0]) then Some(events[0]) else StopEvent(events[1..])
  }

  /** What the console shows for the event that ends a session without an exception. */
  function StopLog(stop: Option<ConsoleEvent>): seq<LogEntry>
  {
    match stop
    case None => [Prompt]
    case Some(Interrupt) => [Prompt, Print(InterruptNote)]
    case Some(IoFailure(m)) => [Prompt, Print("I/O error, " + m)]
    case Some(Input(_)) => [Prompt]
  }

  /**
   * Without a runtime fault, the session's output is each command line's
   * prompt and output, each line once and in order, followed by the prompt
   * of the read that ends the loop and the note for an interrupt or an I/O
   * error.
   */
  lemma {:induction false} SessionOutput(events: seq<ConsoleEvent>, run: Runner)
    requires Loop(events, run).raised.None?
    ensures Loop(events, run).log == OutputOf(CommandLines(events), run) + StopLog(StopEvent(events))
    decreases |events|
  {
    if events != [] && events[0].Input? {
      var args := Tokens(events[0].line);
      if |args| > 0 && !IsExit(args[0]) {
        var o := run(Some(args));
        var lines := CommandLines(events[1..]);
        SessionOutput(events[1..], run);
        assert ([args] + lines)[0] == args && ([args] + lines)[1..] == lines;
        AppendAssoc([Prompt] + o.log, OutputOf(lines, run), StopLog(StopEvent(events[1..])));
      }
    }
  }

  /** A blank line (or one of spaces and tabs) ends the session with an index exception. */
  lemma BlankLineEndsSession(line: string, more: seq<ConsoleEvent>, run: Runner)
    requires forall i :: 0 <= i < |line| ==> IsDelimiter(line[i])
    ensures Loop([Input(line)] + more, run) == Session([Prompt], [], Some(Crash(MissingToken)))
  {
    TokensWellFormed(line);
    assert ([Input(line)] + more)[0] == Input(line);
  }

  /** The session's output starts with the prompt, whatever the events, a crash included. */
  lemma PromptFirst(events: seq<ConsoleEvent>, run: Runner)
    ensures |Loop(events, run).log| > 0 && Loop(events, run).log[0] == Prompt
  {
  }
}
