/** The conversation recorder: `save_conversation`, which checks that it was given a list and then
    overwrites the destination file with it. */
module Recorder {
  import opened Wrappers
  import opened Values
  import opened Messages

  /** The log as the Python list of dictionaries that is saved, in the same order. */
  function HistoryValue(history: seq<Record>): (v: Value)
    ensures v.PyList? && |v.items| == |history|
    ensures forall i :: 0 <= i < |history| ==> v.items[i] == history[i].AsValue()
  {
    PyList(seq(|history|, i requires 0 <= i < |history| => history[i].AsValue()))
  }

  const NotAListMessage := "Conversation history must be a list"
  const SaveErrorPrefix := "Error saving conversation: "

  /** `save_conversation(history)`. Writing the file is outside the model: `writeError` is what
      opening and serialising reported (`None` when the write succeeded). A non-list is refused
      before storage is touched; a failed write is re-raised as `IOError`. */
  function SaveConversation(history: Value, writeError: Option<string>): (r: Result<bool, Exception>)
    ensures !history.PyList? ==> r == Err(ValueError(NotAListMessage))
    ensures history.PyList? && writeError.None? ==> r == Ok(true)
    ensures history.PyList? && writeError.Some? ==> r == Err(IOError(SaveErrorPrefix + writeError.value))
  {
    if !history.PyList? then
      Err(ValueError(NotAListMessage))
    else
      match writeError
      case None => Ok(true)
      case Some(cause) => Err(IOError(SaveErrorPrefix + cause))
  }

  /** The type guard comes first: for a non-list the outcome of the write plays no part. */
  lemma GuardBeforeStorage(history: Value, w1: Option<string>, w2: Option<string>)
    requires !history.PyList?
    ensures SaveConversation(history, w1) == SaveConversation(history, w2)
    ensures SaveConversation(history, w1).error.ValueError?
  {
  }

  /** The session's log always passes the guard, so saving it fails only when the write does. */
  lemma LogPassesGuard(history: seq<Record>, writeError: Option<string>)
    ensures SaveConversation(HistoryValue(history), writeError).Ok? <==> writeError.None?
  {
  }
}
