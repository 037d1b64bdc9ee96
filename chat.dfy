/**
 * The resolution chat page (`Chat`): a list of resolution processes, and for the one the
 * user continues, a WebSocket, an append-only message log and a send form.
 *
 * React state and refs are the fields of `ChatPage`; `socketRef` is the index in `conns`
 * of the socket `socketRef.current` refers to. Each socket remembers the resolution its
 * open handler captured.
 */
module Chat {
  import opened Options
  import opened Transport
  import Text

  datatype User = User(id: string, name: string)

  /** A chat message; its timestamp is not modelled and `id` is supplied by the caller. */
  datatype ChatMessage = ChatMessage(id: string, sender: User, text: string)

  datatype Status = Ongoing | Resolved | Pending

  datatype Resolution = Resolution(id: string, title: string, status: Status, participants: seq<User>, description: string)

  /** Which screen is shown: the resolution list, a chat, or the (unused) new-resolution form. */
  datatype View = ListView | ChatView | NewResolutionView

  /** A socket the page created: its address, the resolution it was opened for, its state. */
  datatype ChatConn = ChatConn(url: string, resolution: Resolution, state: ReadyState)

  /** The chat server every resolution's socket lives under. */
  const ChatWsBase: string := "ws://localhost:8000/ws/"

  /** The user the page starts with. */
  const DefaultUser: User := User("1", "User")

  /** A message is drawn on the right exactly when its sender's id is the current user's id. */
  predicate IsRightAligned(m: ChatMessage, currentUser: User) {
    m.sender.id == currentUser.id
  }

  /**
   * What the page sends is always drawn on the right once it comes back, and alignment
   * ignores names: a different user object with the same id is also on the right.
   */
  lemma OwnMessagesRightAligned(id: string, text: string, currentUser: User, other: User)
    requires other.id == currentUser.id && other.name != currentUser.name
    ensures IsRightAligned(ChatMessage(id, currentUser, text), currentUser)
    ensures IsRightAligned(ChatMessage(id, other, text), currentUser)
    ensures forall m: ChatMessage :: m.sender.id != currentUser.id ==> !IsRightAligned(m, currentUser)
  {
  }

  class ChatPage {
    const currentUser: User
    var view: View
    var messages: seq<ChatMessage>
    var newMessage: string
    var currentResolution: Option<Resolution>
    /** `socketRef.current`: index into `conns`, or None for `null`. */
    var socketRef: Option<nat>
    /** Every socket the page created, oldest first. */
    var conns: seq<ChatConn>
    /** What was transmitted, with the index of the socket it went through. */
    var sent: seq<(nat, ChatMessage)>

    ghost predicate Valid()
      reads this
    {
      socketRef.Some? ==> socketRef.value < |conns|
    }

    /** The page as first rendered: the list view, no messages, no socket. */
    constructor ()
      ensures Valid()
      ensures currentUser == DefaultUser && view == ListView
      ensures messages == [] && newMessage == "" && currentResolution == None
      ensures socketRef == None && conns == [] && sent == []
    {
      currentUser := DefaultUser;
      view := ListView;
      messages := [];
      newMessage := "";
      currentResolution := None;
      socketRef := None;
      conns := [];
      sent := [];
    }

    /**
     * `openChat(resolution)`: closes the current socket, if any, then opens a new one for
     * `ws://localhost:8000/ws/{id}` and makes it current. The view and the current
     * resolution do not change yet, and the message log is kept. When the constructor
     * throws (an address the browser refuses), nothing catches it: the old socket is
     * already closed, no socket is added and `socketRef` keeps pointing at the closed one.
     */
    method OpenChat(resolution: Resolution, constructorThrows: bool)
      requires Valid()
      modifies this`conns, this`socketRef
      ensures Valid()
      ensures var closed := if old(socketRef).Some?
          then old(conns)[old(socketRef).value := old(conns)[old(socketRef).value].(state := AfterClose(old(conns)[old(socketRef).value].state))]
          else old(conns);
        if constructorThrows then
          conns == closed && socketRef == old(socketRef)
        else
          conns == closed + [ChatConn(ChatWsBase + resolution.id, resolution, Connecting)] && socketRef == Some(|old(conns)|)
    {
      if socketRef.Some? {
        var i := socketRef.value;
        conns := conns[i := conns[i].(state := AfterClose(conns[i].state))];
      }
      if constructorThrows {
        return;
      }
      conns := conns + [ChatConn(ChatWsBase + resolution.id, resolution, Connecting)];
      socketRef := Some(|conns| - 1);
    }

    /** Open event of socket `i`: only now does the page switch to the chat for that socket's resolution. */
    method OnOpen(i: nat)
      requires Valid()
      requires i < |conns| && conns[i].state == Connecting
      modifies this`conns, this`currentResolution, this`view
      ensures Valid()
      ensures currentResolution == Some(old(conns)[i].resolution) && view == ChatView
      ensures conns == old(conns)[i := old(conns)[i].(state := Open)]
    {
      conns := conns[i := conns[i].(state := Open)];
      currentResolution := Some(conns[i].resolution);
      view := ChatView;
    }

    /** Message event of socket `i`: the message goes to the end of the log, whichever resolution it belongs to. */
    method OnMessage(i: nat, m: ChatMessage)
      requires Valid()
      requires i < |conns| && conns[i].state == Open
      modifies this`messages
      ensures Valid()
      ensures messages == old(messages) + [m]
    {
      messages := messages + [m];
    }

    /** Close event of socket `i`: only logged; the view, the log and `socketRef` stay as they are. */
    method OnClose(i: nat)
      requires Valid()
      requires i < |conns| && conns[i].state != Closed
      modifies this`conns
      ensures Valid()
      ensures conns == old(conns)[i := old(conns)[i].(state := Closed)]
    {
      conns := conns[i := conns[i].(state := Closed)];
    }

    /** The input's change handler. */
    method SetNewMessage(s: string)
      modifies this`newMessage
      ensures newMessage == s
    {
      newMessage := s;
    }

    /**
     * `handleSendMessage`: needs only a non-blank input and some socket (no OPEN check).
     * It hands `{id, sender: currentUser, text: newMessage}` to `send`, which transmits it
     * when the socket is OPEN, drops it when the socket is closing or closed, and throws while
     * it is still connecting; in the first two cases the input is cleared. The message is
     * not added to the local log.
     */
    method HandleSendMessage(id: string) returns (threw: bool)
      requires Valid()
      modifies this`sent, this`newMessage
      ensures var go := !Text.IsBlank(old(newMessage)) && socketRef.Some?;
        var outcome := if go then SendResult(conns[socketRef.value].state) else Discarded;
        && (threw <==> go && outcome == Throws)
        && (go && outcome == Transmitted ==> sent == old(sent) + [(socketRef.value, ChatMessage(id, currentUser, old(newMessage)))])
        && (!(go && outcome == Transmitted) ==> sent == old(sent))
        && (newMessage == if go && !threw then "" else old(newMessage))
    {
      threw := false;
      if Text.IsBlank(newMessage) || socketRef.None? {
        return;
      }
      var i := socketRef.value;
      var message := ChatMessage(id, currentUser, newMessage);
      var outcome := SendResult(conns[i].state);
      if outcome == Throws {
        threw := true;
        return;
      }
      if outcome == Transmitted {
        sent := sent + [(i, message)];
      }
      newMessage := "";
    }

    /** "Back to list": shows the list again; the socket stays open and the log is kept. */
    method BackToList()
      modifies this`view
      ensures view == ListView
    {
      view := ListView;
    }

    /** Unmount cleanup: closes the current socket, if any. */
    method Unmount()
      requires Valid()
      modifies this`conns
      ensures Valid()
      ensures socketRef.Some? ==> conns == old(conns)[socketRef.value := old(conns)[socketRef.value].(state := AfterClose(old(conns)[socketRef.value].state))]
      ensures socketRef.None? ==> conns == old(conns)
    {
      if socketRef.Some? {
        var i := socketRef.value;
        conns := conns[i := conns[i].(state := AfterClose(conns[i].state))];
      }
    }
  }
}
