/** The line protocol between clients and manager (`rate_limit/backends/uds`). */
module Protocol {
  import opened Nodes
  import opened RateLimit
  import opened Text

  /** `getProviderKey`. */
  function ProviderKey(p: Provider): string {
    match p
    case Groq => "groq"
    case OpenAI => "openai"
    case Other(_) => "unknown"
  }

  datatype Command =
    | Budget(key: string)
    | Consume(key: string, tokens: int, requests: int)
    | SetBudget(key: string, tokens: int, requests: int)
    | Reset
    | TimeUntilReset
    | Ping

  // ---------------------------------------------------------------- the client's side

  function Words(cmd: Command): seq<string> {
    match cmd
    case Budget(key) => ["BUDGET", key]
    case Consume(key, tokens, requests) => ["CONSUME", key, Format(tokens), Format(requests)]
    case SetBudget(key, tokens, requests) => ["SET_BUDGET", key, Format(tokens), Format(requests)]
    case Reset => ["RESET"]
    case TimeUntilReset => ["TIME_UNTIL_RESET"]
    case Ping => ["PING"]
  }

  /** `Sprintf`. */
  function Spell(cmd: Command): string {
    Join(Words(cmd))
  }

  /** The two numbers of a `BUDGET` reply; `None` makes the client fall back to its full budget. */
  function ReadBudget(reply: string): Option<Usage> {
    var parts := Fields(reply);
    if |parts| != 2 then None
    else
      match (Atoi(parts[0]), Atoi(parts[1]))
      case (Some(tokens), Some(requests)) => Some(Usage(tokens, requests))
      case _ => None
  }

  // ---------------------------------------------------------------- the manager's side

  datatype Parsed = Understood(cmd: Command) | Refused(reply: string)

  function ParseNumbers(parts: seq<string>, set_: bool): Parsed {
    if |parts| != 4 then Refused(if set_ then "ERROR invalid SET_BUDGET command" else "ERROR invalid CONSUME command")
    else
      match (Atoi(parts[2]), Atoi(parts[3]))
      case (Some(tokens), Some(requests)) =>
        Understood(if set_ then SetBudget(parts[1], tokens, requests) else Consume(parts[1], tokens, requests))
      case _ => Refused("ERROR invalid numbers")
  }

  function Parse(line: string): Parsed {
    ParseParts(Fields(line))
  }

  function ParseParts(parts: seq<string>): Parsed {
    if parts == [] then Refused("ERROR empty command")
    else if parts[0] == "BUDGET" then
      if |parts| != 2 then Refused("ERROR invalid BUDGET command") else Understood(Budget(parts[1]))
    else if parts[0] == "CONSUME" then ParseNumbers(parts, false)
    else if parts[0] == "RESET" then Understood(Reset)
    else if parts[0] == "SET_BUDGET" then ParseNumbers(parts, true)
    else if parts[0] == "TIME_UNTIL_RESET" then Understood(TimeUntilReset)
    else if parts[0] == "PING" then Understood(Ping)
    else Refused("ERROR unknown command")
  }

  const MILLISECOND: nat := 1_000_000

  function Execute(book: Book<string>, now: Time, cmd: Command): (Book<string>, string) {
    match cmd
    case Budget(key) =>
      var left := book.At(now).Left(key);
      (book.At(now), Join([Format(left.tokens), Format(left.requests)]))
    case Consume(key, tokens, requests) => (book.At(now).Consume(key, tokens, requests), "OK")
    case SetBudget(key, tokens, requests) => (book.WithBudget(key, tokens, requests), "OK")
    case Reset => (book.Wiped(now), "OK")
    case TimeUntilReset => (book, Format(UntilReset(now) / MILLISECOND))
    case Ping => (book, "PONG")
  }

  /** `handleCommand`. */
  function Handle(book: Book<string>, now: Time, line: string): (Book<string>, string) {
    match Parse(line)
    case Understood(cmd) => Execute(book, now, cmd)
    case Refused(reply) => (book, reply)
  }

  // ---------------------------------------------------------------- round trips

  predicate Sendable(cmd: Command) {
    && HasWord(cmd)
    && (cmd.Consume? || cmd.SetBudget? ==> Fits(cmd.tokens) && Fits(cmd.requests))
  }

  predicate HasWord(cmd: Command) {
    cmd.Budget? || cmd.Consume? || cmd.SetBudget? ==> IsWord(cmd.key)
  }

  lemma WordsAreWords(cmd: Command)
    requires HasWord(cmd)
    ensures AreWords(Words(cmd))
  {
    if cmd.Consume? || cmd.SetBudget? {
      FormatIsWord(cmd.tokens);
      FormatIsWord(cmd.requests);
      hide Format, IsWord;
      assert forall w <- Words(cmd) :: w == Words(cmd)[0] || w == cmd.key || w == Format(cmd.tokens) || w == Format(cmd.requests);
      CommandNames();
    } else {
      CommandNames();
    }
  }

  lemma CommandNames()
    ensures IsWord("BUDGET") && IsWord("CONSUME") && IsWord("SET_BUDGET") && IsWord("RESET")
    ensures IsWord("TIME_UNTIL_RESET") && IsWord("PING")
  {
  }

  lemma ParseWords(cmd: Command)
    ensures ParseParts(Words(cmd)) == if cmd.Consume? || cmd.SetBudget? then ParseNumbers(Words(cmd), cmd.SetBudget?) else Understood(cmd)
  {
    hide ParseNumbers, Format;
  }

  lemma ParseFormatted(cmd: Command)
    requires cmd.Consume? || cmd.SetBudget?
    ensures ParseNumbers(Words(cmd), cmd.SetBudget?)
            == if Fits(cmd.tokens) && Fits(cmd.requests) then Understood(cmd) else Refused("ERROR invalid numbers")
  {
    AtoiFormat(cmd.tokens);
    AtoiFormat(cmd.requests);
    hide Atoi, Format;
  }

  /** The manager understands what the client spelled, exactly when the numbers fit its 64-bit integers. */
  lemma ParseSpell(cmd: Command)
    requires HasWord(cmd)
    ensures Parse(Spell(cmd)) == if Sendable(cmd) then Understood(cmd) else Refused("ERROR invalid numbers")
  {
    WordsAreWords(cmd);
    FieldsJoin(Words(cmd));
    ParseWords(cmd);
    if cmd.Consume? || cmd.SetBudget? {
      ParseFormatted(cmd);
    }
  }

  /** The client reads off the wire the numbers the manager printed. */
  lemma ReadReply(book: Book<string>, now: Time, key: string)
    ensures var left := book.At(now).Left(key);
            ReadBudget(TrimSpace(Execute(book, now, Budget(key)).1 + "\n"))
            == if Fits(left.tokens) && Fits(left.requests) then Some(left) else None
  {
    var left := book.At(now).Left(key);
    var parts := [Format(left.tokens), Format(left.requests)];
    FormatIsWord(left.tokens);
    FormatIsWord(left.requests);
    TrimLine(parts);
    FieldsJoin(parts);
    AtoiFormat(left.tokens);
    AtoiFormat(left.requests);
  }

  /** The reply to `TIME_UNTIL_RESET` is the time to the next minute, rounded down to milliseconds. */
  lemma ReadTime(book: Book<string>, now: Time)
    ensures var (book', reply) := Handle(book, now, Spell(TimeUntilReset));
            book' == book
            && exists ms: nat :: Atoi(TrimSpace(reply + "\n")) == Some(ms)
                 && ms * MILLISECOND <= UntilReset(now) < (ms + 1) * MILLISECOND
  {
    var ms := UntilReset(now) / MILLISECOND;
    ParseSpell(TimeUntilReset);
    FormatIsWord(ms);
    TrimLine([Format(ms)]);
    AtoiFormat(ms);
    assert Handle(book, now, Spell(TimeUntilReset)).1 == Format(ms) == Join([Format(ms)]);
    assert Fits(ms) && ms * MILLISECOND <= UntilReset(now) < (ms + 1) * MILLISECOND;
  }

  /** After `RESET` every key has its whole budget; `PING` changes nothing. */
  lemma ResetAndPing(book: Book<string>, now: Time, key: string)
    ensures var (book', reply) := Handle(book, now, Spell(Reset));
            reply == "OK" && book'.minute == Minute(now) && book'.Budget(key) == book.Budget(key)
            && book'.Left(key) == Usage(Floor(book.Budget(key).tpm), Floor(book.Budget(key).rpm))
    ensures Handle(book, now, Spell(Ping)) == (book, "PONG")
  {
    ParseSpell(Reset);
    ParseSpell(Ping);
  }

  /** Which lines are commands, word by word. */
  lemma UnderstoodExactly(line: string, cmd: Command)
    ensures var f := Fields(line);
            Parse(line) == Understood(cmd) <==>
              match cmd
              case Budget(key) => f == ["BUDGET", key]
              case Consume(key, tokens, requests) =>
                |f| == 4 && f[0] == "CONSUME" && f[1] == key && Atoi(f[2]) == Some(tokens) && Atoi(f[3]) == Some(requests)
              case SetBudget(key, tokens, requests) =>
                |f| == 4 && f[0] == "SET_BUDGET" && f[1] == key && Atoi(f[2]) == Some(tokens) && Atoi(f[3]) == Some(requests)
              case Reset => f != [] && f[0] == "RESET"
              case TimeUntilReset => f != [] && f[0] == "TIME_UNTIL_RESET"
              case Ping => f != [] && f[0] == "PING"
  {
    hide Fields, Atoi;
  }

  predicate IsError(reply: string) {
    |reply| >= 5 && reply[..5] == "ERROR"
  }

  lemma ExecuteIsNoError(book: Book<string>, now: Time, cmd: Command)
    ensures !IsError(Execute(book, now, cmd).1)
  {
    if cmd.Budget? {
      var left := book.At(now).Left(cmd.key);
      FormatStarts(left.tokens);
      assert Execute(book, now, cmd).1[0] == Format(left.tokens)[0];
    } else if cmd.TimeUntilReset? {
      FormatStarts(UntilReset(now) / MILLISECOND);
    }
  }

  lemma FormatStarts(n: int)
    ensures Format(n) != "" && Format(n)[0] != 'E'
  {
    DigitsParse(if n < 0 then -n else n);
    assert n >= 0 ==> Format(n)[0] in Digits(n);
  }

  lemma RefusedIsError(parts: seq<string>)
    requires ParseParts(parts).Refused?
    ensures IsError(ParseParts(parts).reply)
  {
    hide Atoi;
  }

  /** An error reply is given exactly to the lines that are no command, and those change nothing. */
  lemma ErrorsChangeNothing(book: Book<string>, now: Time, line: string)
    ensures IsError(Handle(book, now, line).1) <==> Parse(line).Refused?
    ensures IsError(Handle(book, now, line).1) ==> Handle(book, now, line).0 == book
  {
    hide ParseParts, IsError, Execute;
    if Parse(line).Understood? {
      ExecuteIsNoError(book, now, Parse(line).cmd);
    } else {
      RefusedIsError(Fields(line));
    }
  }

  /** A spelled command is one line. */
  lemma {:induction false} JoinedIsOneLine(words: seq<string>)
    requires AreWords(words)
    ensures forall c <- Join(words) :: c != '\n'
  {
    if words != [] {
      assert words[0] in words && IsWord(words[0]);
      JoinedIsOneLine(words[1..]);
      forall c <- Join(words)
        ensures c != '\n'
      {
        assert c in words[0] || c == ' ' || c in Join(words[1..]);
      }
    }
  }
}
