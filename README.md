# Sentiment chatbot core, modelled in Dafny

This project models the core of a small command-line chatbot (`project.py`). The bot reads lines
from a user and scores each line's sentiment with an external analyser (TextBlob). It sorts the
polarity into one of five categories and answers with a fixed reply for that category. It keeps a
log of timestamped user and bot records, and writes the log to a JSON file when the user types an
exit word.

The modules follow the program's functions:

- `Values`: Python's dynamically typed arguments (`None`, bools, ints, floats, strings, lists,
  dictionaries), their truthiness, and the two exception kinds raised (`ValueError`, `IOError`).
  Every `isinstance` guard becomes an explicit case.
- `Text`: `str.strip()` and `str.lower()` on ASCII characters.
- `Sentiment`: `analyze_sentiment`. It has the input guard and the five-way threshold ladder.
  The analyser is an oracle: a function from a text to its polarity and subjectivity.
- `Responses`: `get_response`, a case-insensitive lookup in the table of five replies.
- `Messages`: `format_message`. The clock reading is a parameter. The sentiment key is present
  only when the sentiment argument is truthy.
- `Recorder`: `save_conversation`. It checks that it was given a list. The outcome of writing the
  file is a parameter.
- `Session`: the loop of `main` as a class `ChatSession`, with its log (`history`) and whether it
  is still running (`active`).
  - `Step` is one pass of the loop.
  - `Converse` runs the loop over a script of inputs.
  - The class invariant says the log is a sequence of completed turns. Each turn is the user's
    record with a sentiment, followed by the bot's reply to that sentiment's category.

One point where the code and its own greeting differ. The greeting at project.py:107 says to
"Type 'quit' or 'exit' to end the conversation". But typing an exit word runs
`save_conversation`, and if the save raises, the loop does not end. The `except Exception`
handler (project.py:148-150) reports the error and the loop goes round again. The model follows
the code: the session stays active and the log is unchanged.

## Model

| member | source | states |
|---|---|---|
| Text.Strip | project.py:12 | `str.strip()` on ASCII: the result is never longer than the text. What it removes is stated by `Text.StripSpec`. |
| Text.StripSpec | project.py:12 | `strip()` gives the empty string exactly when the text is all whitespace. Otherwise the result starts and ends with non-whitespace. It is a slice of the text with only whitespace outside it. |
| Text.StripIdempotent | project.py:113 | Stripping an already stripped line changes nothing. So `analyze_sentiment`'s own `strip()` sees the line as `main` left it. |
| Text.StrippedBlank | project.py:12-13 | A stripped line is blank only when it is empty. |
| Text.Lower | project.py:53 | `str.lower()` on ASCII: same length, and each character is the lower-case form of the one at the same place, so no upper-case letter remains. |
| Text.LowerOfLowerCase | project.py:53 | `lower()` leaves a string without upper-case letters unchanged. |
| Text.LowerIdempotent | project.py:53 | Lower-casing twice is lower-casing once. |
| Sentiment.Label | project.py:20-29 | The category strings are lower case, of length 7, 8 or 13. So they are keys `get_response` finds after lower-casing. |
| Sentiment.LabelInjective | project.py:20-29 | The five category strings are pairwise different. |
| Sentiment.Classify | project.py:20-29 | The ladder returns a category whose polarity band contains the polarity. |
| Sentiment.BandsDisjoint | project.py:20-29 | No polarity lies in two bands. |
| Sentiment.ClassifyIsBand | project.py:20-29 | The ladder returns a category exactly when the polarity lies in that category's band. |
| Sentiment.Boundaries | project.py:20-29 | 0.3 itself is positive and points just above it are very positive. 0 is a bucket of its own. -0.3 itself is very negative and points just above it are negative. |
| Sentiment.BeyondThresholds | project.py:20-29 | Every polarity above 0.3 is very positive, and every polarity below -0.3 is very negative. |
| Sentiment.SentimentResult.AsValue | project.py:31-35 | The result dictionary has exactly the keys polarity, subjectivity and category. The category is the label string. The dictionary is never empty, so it is truthy. |
| Sentiment.AnalyzeSentiment | project.py:7-35 | Raises `ValueError("Input must be a non-empty string")` exactly for a non-string or an all-whitespace text. Otherwise it passes the analyser's polarity and subjectivity through unchanged, with the category whose band holds the polarity. |
| Sentiment.RefusedTexts | test_project.py:16-22 | The empty string, the integer 123 and a whitespace-only text are refused. |
| Sentiment.SubjectivityIrrelevant | project.py:15-29 | Two analysers that agree on polarity give the same category, whatever subjectivity they report. |
| Responses.Reply | project.py:45-51 | The reply table: one reply per category, none of them empty. |
| Responses.ReplyInjective | project.py:45-51 | Different categories get different replies. |
| Responses.ParseCategory | project.py:53-54 | The key lookup succeeds exactly when the lower-cased string is a label, and then returns the category of that label. |
| Responses.ParseLabel | project.py:45-54 | Every label string finds its own category. |
| Responses.ParseIff | project.py:53-54 | Lookup gives category `c` exactly when the lower-cased string is `c`'s label. |
| Responses.ParseIgnoresCase | project.py:53 | The lookup of a string equals the lookup of its lower-case form. |
| Responses.GetResponse | project.py:37-57 | A non-string raises `ValueError("Sentiment category must be a string")`. A string whose lower-case form is no label raises `ValueError("Invalid sentiment category")`. Otherwise the result is the fixed reply of the category so named. |
| Responses.GetResponseSucceedsIff | project.py:42-57 | `get_response` succeeds exactly on strings whose lower-case form is one of the five labels. |
| Responses.GetResponseIgnoresCase | project.py:53 | Every spelling gets the same answer as its lower-case form, be it a reply or an error. |
| Responses.LowerOfUpperLabel | project.py:53 | "VERY POSITIVE" lower-cases to the label "very positive". |
| Responses.UpperCaseLabel | test_project.py:50 | `get_response("VERY POSITIVE")` equals `get_response("very positive")`, which is the very-positive reply. |
| Responses.WrongLengthRefused | project.py:54-55 | A string of no label's length, in any case, is an invalid category. |
| Responses.UnknownCategory | test_project.py:41-47 | "invalid_category" and 123 are refused with their respective errors. |
| Responses.AnalyzeThenRespond | project.py:123-130 | The category of any accepted analysis gets the fixed reply of that category. So the call to `get_response` in the loop never raises. |
| Values.Truthy | project.py:84 | A value is falsy exactly when it is `None`, `False`, `0`, `0.0`, `""`, `[]` or `{}`. |
| Messages.Record.AsValue | project.py:84-95 | The logged dictionary has exactly the keys timestamp, speaker and message, plus "sentiment" exactly when the record carries a sentiment. Each key holds the record's field. |
| Messages.FormatMessage | project.py:74-95 | Raises `ValueError("Speaker and message must be strings")` exactly when speaker or message is not a string. Otherwise it copies both and the timestamp unchanged, and keeps the sentiment exactly when it is truthy. |
| Messages.SentimentKeyPresence | project.py:84-95 | The "sentiment" key is present exactly for a truthy sentiment, and then holds the argument. It is absent for `None` and for an empty dictionary. |
| Recorder.HistoryValue | project.py:69 | The saved value is a list with one dictionary per log record, in log order. |
| Recorder.SaveConversation | project.py:59-72 | A non-list raises `ValueError("Conversation history must be a list")`. A successful write returns `True`. A failed write raises `IOError` whose message is "Error saving conversation: " followed by the cause. |
| Recorder.GuardBeforeStorage | project.py:64-65 | For a non-list the outcome does not depend on the file system, and it is a `ValueError`. |
| Recorder.LogPassesGuard | project.py:118 | Saving the session's own log fails exactly when the write fails. |
| Session.IsExitCommand | project.py:116 | An exit command, after lower-casing, is one of quit, exit, bye and goodbye, so it is 3 to 7 characters long. |
| Session.ExitIgnoresCase | project.py:116 | A line ends the session exactly when its lower-case form does, so any spelling of an exit word counts. |
| Session.EndsSession | project.py:116-120 | An input that ends the session is a non-blank exit command whose save succeeded. With `Step`'s ensures, the session stops exactly on such an input. |
| Session.PairedAppend | project.py:127-135 | Appending one more user/bot pair keeps the log a sequence of such pairs. |
| Session.PairedEven | project.py:127-135 | A log of pairs has even length. |
| Session.PairedAt | project.py:127-135 | In a log of pairs, positions 2k and 2k+1 form a pair. |
| Session.NewUserEntry | project.py:113-127 | The user record of a successful turn has the speaker's name and the stripped, non-empty, non-exit line, with the sentiment dictionary. |
| Session.NewBotEntry | project.py:130-135 | The bot record has speaker "Bot", no sentiment, and the reply to the user record's category. |
| Session.NewTurn | project.py:123-135 | The two records a successful turn appends form a completed turn. |
| Session.TurnAppended | project.py:127-135 | Appending the two records one after the other keeps the log a sequence of completed turns. |
| Session.TurnReply | project.py:126-135 | In a completed turn, the bot's message is one of the five replies: the one for the category of the user's sentiment. |
| Session.LoggedTurn | project.py:126-135 | In a valid log, each even position and the one after it form a completed turn. |
| Session.SpeakerName | project.py:102-105 | The name is the stripped typed name, or "User" when that is empty. It is never empty. |
| Session.NextLog | project.py:113-135 | The log after one pass of the loop. An exit word or a refused line leaves it unchanged. Any other line appends the user record and the bot's reply. So the old log is a prefix, and the log grows by 0 or 2 records. |
| Session.NextLogPaired | project.py:123-135 | One pass of the loop keeps the log a sequence of completed turns. |
| Session.RunLog | project.py:110-150 | The log after the loop has made one pass for each of the first `n` inputs. The starting log is a prefix of it. |
| Session.ChatSession.constructor | project.py:98-105 | A session starts active, with an empty log and the speaker name above. |
| Session.ChatSession.Step | project.py:110-150 | The new log is `NextLog` of the old log and the input. The session ends exactly on an input that `EndsSession`. An exit word with a successful save ends the session; a failed save reports the `IOError`. A blank line reports the `ValueError`. Any other line is answered with the analysis `analyze_sentiment` gives it and the reply for its category. The log stays a sequence of completed turns. |
| Session.ChatSession.Quit | project.py:116-120 | The exit branch: the log is unchanged. The session ends exactly when the save succeeds. |
| Session.ChatSession.Chat | project.py:122-135 | The non-exit branch: a blank line raises and logs nothing. Otherwise the turn is analysed and answered. |
| Session.ChatSession.Respond | project.py:125-135 | The user record and then the bot record are appended. The reply is the fixed reply of the analysed category. |
| Session.ChatSession.Converse | project.py:110-150 | The loop consumes inputs up to and including the first one that ends the session, or all of them (`TakenUntil`). The final log is `RunLog` of the old log over the inputs consumed. The session is over exactly when the last input consumed ended it. The log stays a sequence of completed turns of even length. |
| Session.TakenUntil | project.py:110-120 | How far a stop-at-first loop gets: between its start and the end of the script. |
| Session.TakenUntilStops | project.py:110-120 | Of the inputs consumed, only the last can be a stopping one. If the loop stops before the end, the last one consumed stopped it. |
| Session.ProgressStep | project.py:110-120 | One more pass of the loop keeps the loop's progress invariant. |
| Session.ProgressDone | project.py:110-120 | When the loop exits, it has consumed what `TakenUntil` says. It is still running exactly when the last input did not end the session. |

## Left out

- The TextBlob analyser is not modelled. It is the `Scorer` parameter, and nothing is assumed about the values it returns.
- Sentiment.Classify: floating point is modelled by exact reals. Each real stands for the decimal value its double prints as, so `0.3` and `-0.3` in the ladder are the reals 0.3 and -0.3, and `Sentiment.Boundaries` matches Python at ±0.3 on that reading. Binary doubles differ at one point. The double written `-0.3` lies slightly above the real -0.3. For a polarity equal to that double, Python's `polarity > -0.3` is false, so the answer is "very negative". `Classify` of that double's exact value gives `Negative`.
- `datetime.now().strftime(...)` is not modelled. Each `format_message` call receives its timestamp as a parameter.
- JSON serialisation, opening the file, and the `filename` argument of `save_conversation` are not modelled. The outcome of the write is the `writeError` parameter: `None` for success, or the error text.
- Console output is not modelled: `colored`, `print`, the welcome and hello lines, the title-cased sentiment line and the `:.2f` number format. The model assumes console output never fails. The `print` of the reply at project.py:131 sits between the two appends. If it raised, the handler at project.py:148-150 would keep the user record with no bot record after it, and the log would stop being a sequence of completed turns. The class invariant holds only while console output does not fail.
- `KeyboardInterrupt` is not modelled. It ends the loop without saving, and it is a signal from the terminal rather than an input line.
- An `EOFError` or other failure of `input()` itself is not modelled. From reading the source: an `EOFError` at project.py:113 is caught by the handler at project.py:148-150, and the loop goes round again. Once input is exhausted, every later `input()` raises again, so the loop never ends. Nothing was executed to confirm this.
- `Text.Strip` and `Text.Lower` cover ASCII only: `isspace()` is characters 9-13 and 28-32, and `lower()` maps A-Z to a-z. Python's Unicode tables are not modelled.
- Session.TurnReply: states that the lower-cased category string is the label of the reply's category, not that the stored string is the label itself. The class invariant is kept to what `get_response` needs.
