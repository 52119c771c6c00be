/** The session loop of `main`: one turn reads a line, ends the session on an exit command, and
    otherwise logs the user's message with its sentiment followed by the bot's reply. */
module Session {
  import opened Wrappers
  import opened Values
  import opened Sentiment
  import opened Responses
  import opened Messages
  import opened Recorder
  import Text

  const ExitCommands: seq<string> := ["quit", "exit", "bye", "goodbye"]
  const DefaultName := "User"
  const BotName := "Bot"

  /** Whether a stripped input line asks to end the session, in any case: the exit words have
      three to seven letters. */
  predicate IsExitCommand(line: string)
    ensures IsExitCommand(line) ==> 3 <= |line| <= 7
  {
    Text.Lower(line) in ExitCommands
  }

  /** The exit test ignores case: a line is an exit command exactly when its lower-case form is. */
  lemma ExitIgnoresCase(line: string)
    ensures IsExitCommand(line) <==> IsExitCommand(Text.Lower(line))
  {
    Text.LowerIdempotent(line);
  }

  /** What one turn receives from outside: the typed line, the clock readings of the two
      `format_message` calls, and the outcome of writing the log file should the turn save it. */
  datatype TurnInput = TurnInput(typed: string, userTime: string, botTime: string, writeError: Option<string>)

  /** How a turn ended: the session closed, the bot replied, or an exception was reported and the
      loop went on. */
  datatype TurnOutcome = Ended | Replied(analysis: SentimentResult, reply: string) | Failed(error: Exception)

  /** The user's half of a completed turn: `name`'s stripped, non-empty, non-exit line, logged
      with a sentiment dictionary that has a category. */
  ghost predicate IsUserEntry(user: Record, name: string) {
    && user.speaker == name
    && user.message != [] && !Text.IsSpace(user.message[0]) && !Text.IsSpace(user.message[|user.message| - 1])
    && !IsExitCommand(user.message)
    && user.sentiment.Some? && user.sentiment.value.PyDict?
    && "category" in user.sentiment.value.fields
  }

  /** The bot's half of a completed turn: the reply to the category of the user's sentiment,
      logged without a sentiment. */
  ghost predicate IsBotEntry(user: Record, bot: Record)
    requires user.sentiment.Some? && user.sentiment.value.PyDict? && "category" in user.sentiment.value.fields
  {
    && bot.speaker == BotName
    && bot.sentiment.None?
    && GetResponse(user.sentiment.value.fields["category"]) == Ok(bot.message)
  }

  /** `user` followed by `bot` is one completed turn of `name`'s session. */
  ghost predicate IsTurn(user: Record, bot: Record, name: string) {
    IsUserEntry(user, name) && IsBotEntry(user, bot)
  }

  /** Appending two elements one after the other appends the pair. */
  lemma AppendPair<T>(s: seq<T>, a: T, b: T)
    ensures s + [a] + [b] == s + [a, b]
  {
  }

  /** The log splits into consecutive pairs, each of which satisfies `turn`. */
  ghost predicate PairedBy(history: seq<Record>, turn: (Record, Record) -> bool)
    decreases |history|
  {
    if history == [] then true
    else |history| >= 2 && turn(history[0], history[1]) && PairedBy(history[2..], turn)
  }

  /** The log is a sequence of completed turns of `name`. */
  ghost predicate Paired(history: seq<Record>, name: string) {
    PairedBy(history, (user, bot) => IsTurn(user, bot, name))
  }

  /** Appending a pair that satisfies `turn` keeps the log split into such pairs. */
  lemma {:induction false} PairedAppend(history: seq<Record>, user: Record, bot: Record, turn: (Record, Record) -> bool)
    requires PairedBy(history, turn) && turn(user, bot)
    ensures PairedBy(history + [user, bot], turn)
    decreases |history|
  {
    if history == [] {
      assert ([] + [user, bot])[2..] == [];
    } else {
      assert (history + [user, bot])[2..] == history[2..] + [user, bot];
      PairedAppend(history[2..], user, bot, turn);
    }
  }

  /** A log split into pairs has even length. */
  lemma {:induction false} PairedEven(history: seq<Record>, turn: (Record, Record) -> bool)
    requires PairedBy(history, turn)
    ensures |history| % 2 == 0
    decreases |history|
  {
    if history != [] {
      PairedEven(history[2..], turn);
    }
  }

  /** In a log split into pairs, every even position and the one after it form a pair. */
  lemma {:induction false} PairedAt(history: seq<Record>, turn: (Record, Record) -> bool, k: nat)
    requires PairedBy(history, turn) && k < |history| / 2
    ensures turn(history[2 * k], history[2 * k + 1])
    decreases k
  {
    if k > 0 {
      PairedAt(history[2..], turn, k - 1);
    }
  }

  /** The user record of a successful turn is the user's half of a completed turn. */
  lemma NewUserEntry(name: string, line: string, analysis: SentimentResult, userTime: string)
    requires line != [] && Text.Strip(line) == line && !IsExitCommand(line)
    ensures IsUserEntry(Record(userTime, name, line, Some(analysis.AsValue())), name)
  {
    Text.StripSpec(line);
  }

  /** The bot record of a successful turn answers the user record. */
  lemma NewBotEntry(name: string, line: string, analysis: SentimentResult, reply: string, userTime: string, botTime: string)
    requires GetResponse(analysis.AsValue().fields["category"]) == Ok(reply)
    ensures IsBotEntry(Record(userTime, name, line, Some(analysis.AsValue())), Record(botTime, BotName, reply, None))
  {
  }

  /** The two records a successful turn appends form a completed turn. */
  lemma NewTurn(name: string, line: string, analysis: SentimentResult, reply: string, userTime: string, botTime: string)
    requires line != [] && Text.Strip(line) == line && !IsExitCommand(line)
    requires GetResponse(analysis.AsValue().fields["category"]) == Ok(reply)
    ensures IsTurn(Record(userTime, name, line, Some(analysis.AsValue())), Record(botTime, BotName, reply, None), name)
  {
    NewUserEntry(name, line, analysis, userTime);
    NewBotEntry(name, line, analysis, reply, userTime, botTime);
  }

  /** Logging a completed turn record by record keeps the log a sequence of completed turns. */
  lemma TurnAppended(history: seq<Record>, user: Record, bot: Record, name: string)
    requires Paired(history, name) && IsTurn(user, bot, name)
    ensures history + [user] + [bot] == history + [user, bot]
    ensures Paired(history + [user] + [bot], name)
  {
    AppendPair(history, user, bot);
    PairedAppend(history, user, bot, (u, b) => IsTurn(u, b, name));
  }

  /** A completed turn: the user's record carries a sentiment with a category string, and the
      bot's record carries none and holds one of the five replies, the one for that category. */
  lemma TurnReply(user: Record, bot: Record, name: string)
    requires IsTurn(user, bot, name)
    ensures user.speaker == name && user.sentiment.Some? && user.sentiment.value.PyDict?
    ensures "category" in user.sentiment.value.fields
    ensures bot.speaker == BotName && bot.sentiment.None?
    ensures user.sentiment.value.fields["category"].PyStr?
    ensures exists c :: bot.message == Reply(c) && Text.Lower(user.sentiment.value.fields["category"].s) == Label(c)
  {
    var category := user.sentiment.value.fields["category"];
    var c := ParseCategory(category.s).value;
    ParseIff(category.s, c);
  }

  /** In a log of completed turns, each even position holds a record of the user's and the
      position after it the bot's reply to it. */
  lemma LoggedTurn(history: seq<Record>, name: string, k: nat)
    requires Paired(history, name) && k < |history| / 2
    ensures IsTurn(history[2 * k], history[2 * k + 1], name)
  {
    PairedAt(history, (u, b) => IsTurn(u, b, name), k);
  }

  /** The speaker name `main` settles on: the stripped typed name, or "User" when that is empty. */
  function SpeakerName(typedName: string): (name: string)
    ensures name != []
    ensures Text.Strip(typedName) != [] ==> name == Text.Strip(typedName)
    ensures Text.Strip(typedName) == [] ==> name == DefaultName
  {
    var stripped := Text.Strip(typedName);
    if stripped == [] then DefaultName else stripped
  }

  /** The log after one pass of the loop on `input`. An exit command leaves it as it is, whether
      or not the save succeeds, and so does a line `analyze_sentiment` refuses. Any other line
      adds the user's record and then the bot's reply. */
  function NextLog(name: string, scorer: Scorer, log: seq<Record>, input: TurnInput): (next: seq<Record>)
    ensures log <= next && (|next| == |log| || |next| == |log| + 2)
  {
    var line := Text.Strip(input.typed);
    if IsExitCommand(line) then log
    else
      match AnalyzeSentiment(PyStr(line), scorer)
      case Err(_) => log
      case Ok(analysis) =>
        log + [Record(input.userTime, name, line, Some(analysis.AsValue())),
               Record(input.botTime, BotName, Reply(analysis.category), None)]
  }

  /** One pass of the loop keeps the log a sequence of completed turns. */
  lemma NextLogPaired(name: string, scorer: Scorer, log: seq<Record>, input: TurnInput)
    requires Paired(log, name)
    ensures Paired(NextLog(name, scorer, log, input), name)
  {
    var line := Text.Strip(input.typed);
    if !IsExitCommand(line) && AnalyzeSentiment(PyStr(line), scorer).Ok? {
      var analysis := AnalyzeSentiment(PyStr(line), scorer).value;
      Text.StripIdempotent(input.typed);
      Text.StrippedBlank(line);
      ParseLabel(analysis.category);
      var user := Record(input.userTime, name, line, Some(analysis.AsValue()));
      var bot := Record(input.botTime, BotName, Reply(analysis.category), None);
      NewTurn(name, line, analysis, Reply(analysis.category), input.userTime, input.botTime);
      TurnAppended(log, user, bot, name);
    }
  }

  /** The log after the loop has run over the first `n` of `inputs`, one pass per input,
      starting from `log`. */
  function RunLog(name: string, scorer: Scorer, log: seq<Record>, inputs: seq<TurnInput>, n: nat): (final: seq<Record>)
    requires n <= |inputs|
    ensures log <= final
  {
    if n == 0 then log else NextLog(name, scorer, RunLog(name, scorer, log, inputs, n - 1), inputs[n - 1])
  }

  /** One chat session: the speaker's name, the sentiment scorer, and the in-memory log. */
  class ChatSession {
    const name: string
    const scorer: Scorer
    var history: seq<Record>
    var active: bool

    /** The log consists of completed turns of this session's speaker. */
    ghost predicate Valid()
      reads this
    {
      Paired(history, name)
    }

    /** A session starts active with an empty log. */
    constructor (typedName: string, scorer: Scorer)
      ensures Valid() && active && history == []
      ensures name == SpeakerName(typedName) && this.scorer == scorer
    {
      name := SpeakerName(typedName);
      this.scorer := scorer;
      history := [];
      active := true;
    }

    /** One pass of the loop. An exit command saves the log and, if the save succeeds, ends the
        session; if the save raises, the error is reported and the loop goes on. Any other
        line is classified: an empty line raises and logs nothing; otherwise the user's record
        (with its sentiment) and the bot's record (without one) are appended, in that order. */
    method Step(input: TurnInput) returns (outcome: TurnOutcome)
      requires Valid() && active
      modifies this
      ensures Valid() && history == NextLog(name, scorer, old(history), input)
      ensures active <==> !EndsSession(input)
      ensures var line := Text.Strip(input.typed);
        if IsExitCommand(line) then
          && (input.writeError.None? ==> outcome == Ended)
          && (input.writeError.Some? ==> outcome == Failed(IOError(SaveErrorPrefix + input.writeError.value)))
        else if line == [] then
          outcome == Failed(ValueError(InvalidTextMessage))
        else
          && outcome.Replied?
          && AnalyzeSentiment(PyStr(line), scorer) == Ok(outcome.analysis)
          && outcome.reply == Reply(outcome.analysis.category)
    {
      var line := Text.Strip(input.typed);
      if IsExitCommand(line) {
        outcome := Quit(input.writeError);
      } else {
        Text.StripIdempotent(input.typed);
        outcome := Chat(line, input.userTime, input.botTime);
      }
    }

    /** The exit branch: save the log; the session ends only if the save succeeds. */
    method Quit(writeError: Option<string>) returns (outcome: TurnOutcome)
      requires Valid() && active
      modifies this
      ensures Valid() && history == old(history)
      ensures writeError.None? ==> outcome == Ended && !active
      ensures writeError.Some? ==> outcome == Failed(IOError(SaveErrorPrefix + writeError.value)) && active
    {
      var saved := SaveConversation(HistoryValue(history), writeError);
      if saved.Ok? {
        active := false;
        outcome := Ended;
      } else {
        outcome := Failed(saved.error);
      }
    }

    /** The classifying branch on a stripped, non-exit line. */
    method Chat(line: string, userTime: string, botTime: string) returns (outcome: TurnOutcome)
      requires Valid() && active
      requires Text.Strip(line) == line && !IsExitCommand(line)
      modifies this
      ensures Valid() && active
      ensures line == [] ==> history == old(history) && outcome == Failed(ValueError(InvalidTextMessage))
      ensures line != [] ==>
          && outcome.Replied?
          && AnalyzeSentiment(PyStr(line), scorer) == Ok(outcome.analysis)
          && outcome.analysis.polarity == scorer(line).polarity
          && outcome.analysis.subjectivity == scorer(line).subjectivity
          && InBand(outcome.analysis.category, outcome.analysis.polarity)
          && outcome.reply == Reply(outcome.analysis.category)
          && history == old(history) + [Record(userTime, name, line, Some(outcome.analysis.AsValue())),
                                        Record(botTime, BotName, outcome.reply, None)]
    {
      Text.StrippedBlank(line);
      var analysis := AnalyzeSentiment(PyStr(line), scorer);
      if analysis.Err? {
        outcome := Failed(analysis.error);
        return;
      }
      outcome := Respond(line, analysis.value, userTime, botTime);
    }

    /** A classified line: log the user's record with its sentiment, look up the reply to its
        category, and log the bot's record with the reply. */
    method Respond(line: string, analysis: SentimentResult, userTime: string, botTime: string)
      returns (outcome: TurnOutcome)
      requires Valid()
      requires line != [] && Text.Strip(line) == line && !IsExitCommand(line)
      modifies this
      ensures Valid() && active == old(active)
      ensures outcome == Replied(analysis, Reply(analysis.category))
      ensures history == old(history) + [Record(userTime, name, line, Some(analysis.AsValue())),
                                         Record(botTime, BotName, Reply(analysis.category), None)]
    {
      var sentiment := analysis.AsValue();
      var userMessage := FormatMessage(PyStr(name), PyStr(line), sentiment, userTime);
      history := history + [userMessage.value];
      // get_response runs after the user's record is logged; it cannot raise here.
      ParseLabel(analysis.category);
      var reply := GetResponse(sentiment.fields["category"]);
      var botMessage := FormatMessage(PyStr(BotName), PyStr(reply.value), PyNone, botTime);
      history := history + [botMessage.value];
      outcome := Replied(analysis, reply.value);
      NewTurn(name, line, analysis, reply.value, userTime, botTime);
      TurnAppended(old(history), userMessage.value, botMessage.value, name);
    }

    /** The loop itself, over a script of inputs: turns run until one ends the session or the
        script runs out. The log only grows, by whole turns, so its length stays even. */
    method Converse(inputs: seq<TurnInput>) returns (consumed: nat)
      requires Valid() && active
      modifies this
      ensures Valid() && consumed == TakenUntil(inputs, EndsSession, 0)
      ensures history == RunLog(name, scorer, old(history), inputs, consumed) && |history| % 2 == 0
      ensures !active <==> 0 < consumed && EndsSession(inputs[consumed - 1])
    {
      consumed := 0;
      while consumed < |inputs| && active
        invariant Valid() && consumed <= |inputs|
        invariant history == RunLog(name, scorer, old(history), inputs, consumed)
        invariant Progress(inputs, EndsSession, consumed, active)
        decreases |inputs| - consumed
      {
        var _ := Step(inputs[consumed]);
        ProgressStep(inputs, EndsSession, consumed, active);
        consumed := consumed + 1;
      }
      ProgressDone(inputs, EndsSession, consumed, active);
      PairedEven(history, (user, bot) => IsTurn(user, bot, name));
    }
  }

  /** A loop that stops after the first element satisfying `stop` has consumed `n` elements and
      is still `going`, or has stopped: still going, it has met no stopping element and has as
      far to go as from the start; stopped, it did so on the element it consumed last. */
  ghost predicate Progress<T>(xs: seq<T>, stop: T -> bool, n: nat, going: bool)
    requires n <= |xs|
  {
    if going then
      && TakenUntil(xs, stop, n) == TakenUntil(xs, stop, 0)
      && (0 < n ==> !stop(xs[n - 1]))
    else
      && 0 < n && stop(xs[n - 1])
      && n == TakenUntil(xs, stop, 0)
  }

  /** One more element consumed. */
  lemma ProgressStep<T>(xs: seq<T>, stop: T -> bool, n: nat, going: bool)
    requires n < |xs| && Progress(xs, stop, n, true) && going == !stop(xs[n])
    ensures Progress(xs, stop, n + 1, going)
  {
    assert xs[(n + 1) - 1] == xs[n];
  }

  /** When the loop ends, it has consumed what `TakenUntil` says, and it is still going exactly
      when the last element it consumed (if any) was not a stopping one. */
  lemma ProgressDone<T>(xs: seq<T>, stop: T -> bool, n: nat, going: bool)
    requires n <= |xs| && Progress(xs, stop, n, going) && (going ==> n == |xs|)
    ensures n == TakenUntil(xs, stop, 0)
    ensures !going <==> 0 < n && stop(xs[n - 1])
  {
  }

  /** How far a loop that stops after the first element satisfying `stop` gets from position
      `from` of `xs`: up to and including that element, or to the end. */
  function TakenUntil<T>(xs: seq<T>, stop: T -> bool, from: nat): (n: nat)
    requires from <= |xs|
    ensures from <= n <= |xs|
    decreases |xs| - from
  {
    if from == |xs| then from
    else if stop(xs[from]) then from + 1
    else TakenUntil(xs, stop, from + 1)
  }

  /** Of the elements taken, only the last can satisfy `stop`; and if the loop stops before the
      end, the last element taken does satisfy it. */
  lemma {:induction false} TakenUntilStops<T>(xs: seq<T>, stop: T -> bool, from: nat)
    requires from <= |xs|
    ensures var n := TakenUntil(xs, stop, from);
      && (forall i :: from <= i < n ==> stop(xs[i]) ==> i == n - 1)
      && (n < |xs| ==> from < n && stop(xs[n - 1]))
    decreases |xs| - from
  {
    if from < |xs| && !stop(xs[from]) {
      TakenUntilStops(xs, stop, from + 1);
    }
  }

  /** Whether a turn with this input closes the session: an exit command whose save succeeds.
      Such a line is never blank, and no write error was reported. */
  predicate EndsSession(input: TurnInput)
    ensures EndsSession(input) ==> Text.Strip(input.typed) != [] && input.writeError.None?
  {
    IsExitCommand(Text.Strip(input.typed)) && input.writeError.None?
  }
}
