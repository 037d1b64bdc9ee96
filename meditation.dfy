/**
 * The guided-meditation page (`Meditation`): a chat log capped at the last 50 entries, a
 * submit handler that posts the message with the earlier log as history, and the success
 * and failure branches that append the reply or an apology.
 *
 * `handleSubmit` is asynchronous; it is modelled as `Submit` (everything up to the awaited
 * request, which it returns) and `Complete` (everything after, given the request's outcome).
 */
module Meditation {
  import opened Options
  import Text
  import Needs

  /** A log entry; its timestamp is not modelled. */
  datatype LogEntry = LogEntry(text: string, isAI: bool)

  /** The history roles the chat API expects, sent as `USER` and `CHATBOT`. */
  datatype Role = UserRole | ChatbotRole

  /** One history item: `{role: "USER" | "CHATBOT", message}`. */
  datatype HistoryEntry = HistoryEntry(role: Role, message: string)

  /** The POST the page makes: address, `user_message` and `chat_history`. */
  datatype ChatRequest = ChatRequest(url: string, userMessage: string, chatHistory: seq<HistoryEntry>)

  /**
   * How the awaited request ended: an ok response whose body has `response`; a non-ok
   * response whose error body may carry `detail`; or an Error thrown by `fetch` or while
   * reading the body, with its message.
   */
  datatype FetchOutcome = Ok(response: string) | NotOk(detail: Option<string>) | Exception(message: string)

  /** `slice(-50)`: the log keeps this many entries. */
  const MaxLog: nat := 50

  const Greeting: string := "Hello!  Come, Let's have a chat"
  const Welcome: string := "Welcome to your meditation session"
  const Apology: string := "Sorry, I couldn't process your request. Please try again."
  const ApiFailed: string := "API request failed"

  /** The last `MaxLog` entries of `s`, or all of `s` when it is shorter: `s.slice(-50)`. */
  function LastEntries(s: seq<LogEntry>): (r: seq<LogEntry>)
    ensures |r| <= MaxLog && |r| <= |s|
    ensures |s| <= MaxLog ==> r == s
    ensures |s| > MaxLog ==> r == s[|s| - MaxLog..]
  {
    if |s| <= MaxLog then s else s[|s| - MaxLog..]
  }

  /**
   * `[...log, m].slice(-50)`: at most 50 entries, ending with `m`, and a suffix of
   * `log + [m]` that drops only what does not fit.
   */
  function Append(log: seq<LogEntry>, m: LogEntry): (r: seq<LogEntry>)
    ensures |r| <= MaxLog && |r| > 0 && r[|r| - 1] == m
    ensures |r| == if |log| < MaxLog then |log| + 1 else MaxLog
    ensures r == (log + [m])[|log| + 1 - |r|..]
  {
    LastEntries(log + [m])
  }

  /**
   * However many entries have been appended, the capped log is the last 50 of all of them:
   * capping after every append is the same as capping once at the end.
   */
  lemma AppendKeepsLastEntries(all: seq<LogEntry>, m: LogEntry)
    ensures Append(LastEntries(all), m) == LastEntries(all + [m])
  {
  }

  /**
   * `chatLog.map(...)`: the history lines up with the log, with the same length and order,
   * AI entries as CHATBOT and the rest as USER.
   */
  function ToHistory(log: seq<LogEntry>): (h: seq<HistoryEntry>)
    ensures |h| == |log|
    ensures forall i :: 0 <= i < |log| ==>
      h[i] == HistoryEntry(if log[i].isAI then ChatbotRole else UserRole, log[i].text)
  {
    if log == [] then []
    else [HistoryEntry(if log[0].isAI then ChatbotRole else UserRole, log[0].text)] + ToHistory(log[1..])
  }

  /** The error shown for a non-ok response: `errorData.detail || "API request failed"`. */
  function ErrorText(detail: Option<string>): (e: string)
    ensures e != ""
    ensures detail.Some? && detail.value != "" ==> e == detail.value
    ensures detail.None? || detail.value == "" ==> e == ApiFailed
  {
    if detail.Some? && detail.value != "" then detail.value else ApiFailed
  }

  /** The entry appended once the request has ended: the AI's reply, or the fixed apology. */
  function Reply(outcome: FetchOutcome): (m: LogEntry)
    ensures m.isAI
    ensures m.text == (if outcome.Ok? then outcome.response else Apology)
  {
    match outcome
    case Ok(response) => LogEntry(response, true)
    case NotOk(_) => LogEntry(Apology, true)
    case Exception(_) => LogEntry(Apology, true)
  }

  /** The large text in the middle of the page: the newest entry, or the welcome line for an empty log. */
  function Displayed(log: seq<LogEntry>): (shown: string)
    ensures log != [] ==> shown == log[|log| - 1].text
    ensures log == [] ==> shown == Welcome
  {
    if |log| > 0 then log[|log| - 1].text else Welcome
  }

  /** After an exchange ends, the page shows what was appended last: the reply or the apology. */
  lemma DisplaysReply(log: seq<LogEntry>, outcome: FetchOutcome)
    ensures Displayed(Append(log, Reply(outcome))) == (if outcome.Ok? then outcome.response else Apology)
  {
  }

  class MeditationPage {
    var inputMessage: string
    var showChatLog: bool
    var isLoading: bool
    var error: Option<string>
    var chatLog: seq<LogEntry>

    ghost predicate Valid()
      reads this
    {
      |chatLog| <= MaxLog
    }

    /** The page as first rendered: a single AI greeting, nothing loading, no error. */
    constructor ()
      ensures Valid()
      ensures chatLog == [LogEntry(Greeting, true)]
      ensures inputMessage == "" && !showChatLog && !isLoading && error == None
    {
      inputMessage := "";
      showChatLog := false;
      isLoading := false;
      error := None;
      chatLog := [LogEntry(Greeting, true)];
    }

    /** The input's change handler. */
    method SetInputMessage(s: string)
      modifies this`inputMessage
      ensures inputMessage == s
    {
      inputMessage := s;
    }

    /** The "Show/Hide Chat Log" button. */
    method ToggleChatLog()
      modifies this`showChatLog
      ensures showChatLog == !old(showChatLog)
    {
      showChatLog := !showChatLog;
    }

    /**
     * `handleSubmit` up to the awaited request. A blank input changes nothing and sends
     * nothing. Otherwise: the error is cleared, the input emptied, the user's message
     * appended (capped at 50), loading switched on, and the request built from the log as
     * it was before that append. The input is disabled while loading, so a second submit
     * cannot start before `Complete`.
     */
    method Submit() returns (request: Option<ChatRequest>)
      requires Valid()
      requires !isLoading
      modifies this`error, this`inputMessage, this`chatLog, this`isLoading
      ensures Valid()
      ensures Text.IsBlank(old(inputMessage)) ==>
        && request == None && error == old(error) && inputMessage == old(inputMessage)
        && chatLog == old(chatLog) && !isLoading
      ensures !Text.IsBlank(old(inputMessage)) ==>
        && request == Some(ChatRequest(Needs.GetData("api") + "/chat/", old(inputMessage), ToHistory(old(chatLog))))
        && error == None && inputMessage == ""
        && chatLog == Append(old(chatLog), LogEntry(old(inputMessage), false))
        && isLoading
    {
      if Text.IsBlank(inputMessage) {
        return None;
      }
      error := None;
      var userMessage := inputMessage;
      inputMessage := "";
      var history := ToHistory(chatLog);
      chatLog := Append(chatLog, LogEntry(userMessage, false));
      isLoading := true;
      request := Some(ChatRequest(Needs.GetData("api") + "/chat/", userMessage, history));
    }

    /**
     * `handleSubmit` after the request: the reply (success) or the apology (any failure) is
     * appended; a failure also sets the error to `detail`, "API request failed", or the
     * thrown Error's message; and loading is always switched off.
     */
    method Complete(outcome: FetchOutcome)
      requires Valid()
      requires isLoading
      modifies this`error, this`chatLog, this`isLoading
      ensures Valid()
      ensures !isLoading
      ensures chatLog == Append(old(chatLog), Reply(outcome))
      ensures error == match outcome
        case Ok(_) => old(error)
        case NotOk(detail) => Some(ErrorText(detail))
        case Exception(message) => Some(message)
    {
      match outcome {
        case Ok(response) =>
          chatLog := Append(chatLog, LogEntry(response, true));
        case NotOk(detail) =>
          error := Some(ErrorText(detail));
          chatLog := Append(chatLog, LogEntry(Apology, true));
        case Exception(message) =>
          error := Some(message);
          chatLog := Append(chatLog, LogEntry(Apology, true));
      }
      isLoading := false;
    }
  }
}
