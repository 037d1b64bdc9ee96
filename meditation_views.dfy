/**
 * The meditation backend's view (`backend/meditation/views.py`): `get_ai_response`, which
 * forwards a message and the stored history to the AI service and picks the reply out of
 * the answer, and the `add_message` action, which stores the user's message and the reply.
 *
 * The HTTP call is not made here: its result is a parameter (`BackendOutcome`).
 */
module MeditationViews {
  import opened Options
  import Text

  /** A stored `MeditationMessage` as `values("content", "is_ai")` returns it. */
  datatype StoredMessage = StoredMessage(content: string, isAi: bool)

  /** A history item as sent: `{"role": "assistant" | "user", "content"}`. */
  datatype FormattedMessage = FormattedMessage(role: string, content: string)

  /** An item of the service's `chat_history` answer; `role` is absent when the item has none. */
  datatype ReplyEntry = ReplyEntry(role: Option<string>, content: string)

  /** The POST made to the AI service: address, `user_message` and `chat_history`. */
  datatype AiRequest = AiRequest(url: string, userMessage: string, chatHistory: seq<FormattedMessage>)

  /**
   * How the call ended: an ok answer carrying its `chat_history`; a non-ok status; or a
   * `RequestException` (connection refused, timeout, ...).
   */
  datatype BackendOutcome = Ok(chatHistory: seq<ReplyEntry>) | NotOk | RequestError

  /** The AI service's base address, with its trailing slash. */
  const NgrokUrl: string := "https://2052-35-233-198-252.ngrok-free.app/"

  const Assistant: string := "assistant"
  const UserRole: string := "user"
  const NoResponse: string := "No response from AI."
  const Unavailable: string := "AI is unavailable."
  const Unreachable: string := "AI is unreachable at the moment."

  /** One stored message in the service's format. */
  function Format(m: StoredMessage): FormattedMessage {
    FormattedMessage(if m.isAi then Assistant else UserRole, m.content)
  }

  /** `formatted_history`: one item per stored message, at the same position, in the service's format. */
  function FormatHistory(history: seq<StoredMessage>): (f: seq<FormattedMessage>)
    ensures |f| == |history|
    ensures forall i :: 0 <= i < |history| ==> f[i] == Format(history[i])
  {
    if history == [] then []
    else [Format(history[0])] + FormatHistory(history[1..])
  }

  /** The role is the only thing formatting decides: `assistant` exactly for the AI's messages. */
  lemma FormatRoles(m: StoredMessage)
    ensures Format(m).role == Assistant <==> m.isAi
    ensures Format(m).role == UserRole <==> !m.isAi
    ensures Format(m).content == m.content
  {
  }

  /**
   * `ai_messages`: the contents of the answer's items whose role is `assistant`, in order;
   * one per such item. `AssistantContentsEmpty` and
   * `ReplyIsLastAssistant` characterise it.
   */
  function AssistantContents(entries: seq<ReplyEntry>): (ai: seq<string>)
  {
    if entries == [] then []
    else
      var head := if entries[0].role == Some(Assistant) then [entries[0].content] else [];
      head + AssistantContents(entries[1..])
  }

  lemma {:induction false} AssistantContentsConcat(a: seq<ReplyEntry>, b: seq<ReplyEntry>)
    ensures AssistantContents(a + b) == AssistantContents(a) + AssistantContents(b)
  {
    if a == [] {
      assert a + b == b;
    } else {
      assert (a + b)[1..] == a[1..] + b;
      AssistantContentsConcat(a[1..], b);
    }
  }

  /** The answer has no assistant item exactly when `ai_messages` is empty. */
  lemma {:induction false} AssistantContentsEmpty(entries: seq<ReplyEntry>)
    ensures AssistantContents(entries) == [] <==>
      forall i :: 0 <= i < |entries| ==> entries[i].role != Some(Assistant)
  {
    if entries != [] {
      AssistantContentsEmpty(entries[1..]);
      assert forall i :: 1 <= i < |entries| ==> entries[i] == entries[1..][i - 1];
    }
  }

  /** The request `get_ai_response` makes: `{NGROK_URL}/chat/`, the input, the formatted history. */
  function RequestFor(userInput: string, chatHistory: seq<StoredMessage>): (r: AiRequest)
    ensures r.url == NgrokUrl + "/chat/"
    ensures r.userMessage == userInput
    ensures |r.chatHistory| == |chatHistory|
    ensures forall i :: 0 <= i < |chatHistory| ==> r.chatHistory[i] == Format(chatHistory[i])
  {
    AiRequest(NgrokUrl + "/chat/", userInput, FormatHistory(chatHistory))
  }

  /**
   * `NGROK_URL` already ends in a slash, so the path the service is asked for begins
   * with an empty segment: the address ends in `//chat/`.
   */
  lemma RequestPathHasDoubleSlash(userInput: string, chatHistory: seq<StoredMessage>)
    ensures Text.EndsWith(RequestFor(userInput, chatHistory).url, "//chat/")
  {
  }

  /**
   * The text `get_ai_response` returns: the last assistant item's content when the call
   * succeeded and there is one, "No response from AI." when there is none, "AI is
   * unavailable." for a non-ok status and "AI is unreachable at the moment." when the
   * request raised.
   */
  function GetAiResponse(outcome: BackendOutcome): (reply: string)
    ensures outcome.NotOk? ==> reply == Unavailable
    ensures outcome.RequestError? ==> reply == Unreachable
    ensures outcome.Ok? && AssistantContents(outcome.chatHistory) == [] ==> reply == NoResponse
  {
    match outcome
    case Ok(entries) =>
      var ai := AssistantContents(entries);
      if |ai| > 0 then ai[|ai| - 1] else NoResponse
    case NotOk => Unavailable
    case RequestError => Unreachable
  }

  /**
   * On success the reply is the content of the LAST item whose role is `assistant`: whatever
   * follows it (user items, items without a role) does not matter.
   */
  lemma ReplyIsLastAssistant(entries: seq<ReplyEntry>, j: nat)
    requires j < |entries| && entries[j].role == Some(Assistant)
    requires forall k :: j < k < |entries| ==> entries[k].role != Some(Assistant)
    ensures GetAiResponse(Ok(entries)) == entries[j].content
  {
    var tail := entries[j + 1..];
    assert entries == entries[..j] + [entries[j]] + tail;
    AssistantContentsConcat(entries[..j] + [entries[j]], tail);
    AssistantContentsConcat(entries[..j], [entries[j]]);
    assert forall k :: 0 <= k < |tail| ==> tail[k] == entries[j + 1 + k];
    AssistantContentsEmpty(tail);
    assert AssistantContents([entries[j]]) == [entries[j].content];
  }

  /** On success with no assistant item anywhere, the fallback text is returned. */
  lemma NoAssistantReply(entries: seq<ReplyEntry>)
    requires forall k :: 0 <= k < |entries| ==> entries[k].role != Some(Assistant)
    ensures GetAiResponse(Ok(entries)) == NoResponse
  {
    AssistantContentsEmpty(entries);
  }

  /** The messages of one meditation session, oldest first (`ordering = ['timestamp']`). */
  class SessionMessages {
    var messages: seq<StoredMessage>

    /** A session with no messages. */
    constructor ()
      ensures messages == []
    {
      messages := [];
    }

    /**
     * The `add_message` action. The body's `message` (empty when absent) is stored as a user
     * message first, so the history sent to the AI service ends with it; the AI's reply, or
     * the fallback text, is then stored as an AI message. Both stored messages are returned.
     */
    method AddMessage(message: Option<string>, outcome: BackendOutcome)
      returns (userMessage: StoredMessage, aiMessage: StoredMessage, request: AiRequest)
      modifies this`messages
      ensures userMessage == StoredMessage(if message.Some? then message.value else "", false)
      ensures request == RequestFor(userMessage.content, old(messages) + [userMessage])
      ensures aiMessage == StoredMessage(GetAiResponse(outcome), true)
      ensures messages == old(messages) + [userMessage, aiMessage]
    {
      var content := if message.Some? then message.value else "";
      userMessage := StoredMessage(content, false);
      messages := messages + [userMessage];
      var chatHistory := messages;
      request := RequestFor(content, chatHistory);
      aiMessage := StoredMessage(GetAiResponse(outcome), true);
      messages := messages + [aiMessage];
    }
  }

  /** The history the AI service receives in `add_message` ends with the message just stored, as a user item. */
  lemma HistoryEndsWithNewMessage(stored: seq<StoredMessage>, content: string)
    ensures var h := RequestFor(content, stored + [StoredMessage(content, false)]).chatHistory;
      |h| == |stored| + 1 && h[|stored|] == FormattedMessage(UserRole, content)
  {
  }
}
