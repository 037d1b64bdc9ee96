/**
 * The conflict-resolution room page (`ConflictResolution`): join a room over a WebSocket,
 * keep the connected flag and an append-only message log from the socket's events, send
 * chat text and mediation requests, and label and align each message when rendering.
 *
 * React state and refs are the fields of `ResolvePage`; `ws` is the index in `conns` of the
 * socket `ws.current` refers to. Each socket remembers the room id its handlers captured.
 */
module Resolve {
  import opened Options
  import opened Transport
  import Text
  import Needs
  import RoomAddress

  /** The `type` of a room message. */
  datatype Kind = UserKind | AiKind | SystemKind

  /** A room message; `userName` is the optional `user_name`. The timestamp is not modelled. */
  datatype RoomMessage = RoomMessage(kind: Kind, content: string, userId: string, userName: Option<string>)

  /** What the page sends: `{type: 'message', content}` or `{type: 'request_mediation'}`. */
  datatype Outgoing = ChatText(content: string) | MediationRequest

  /** A socket the page created: its address, the room id its handlers captured, its state. */
  datatype RoomConn = RoomConn(url: string, room: string, state: ReadyState)

  /** Horizontal placement of a message bubble. */
  datatype Align = Start | Center | End

  const MissingFieldsError: string := "Please enter both room ID and your name"
  const ConnectionError: string := "Connection error. Please try again."
  const ConstructError: string := "Failed to connect. Please check your URL."
  const DisconnectedNotice: string := "Disconnected from room"
  const SystemId: string := "system"
  const MediatorId: string := "ai_mediator"

  /** The notice the open handler appends: `Connected to room {roomId}`. */
  function ConnectedNotice(room: string): string {
    "Connected to room " + room
  }

  /** A system notice as the handlers build it (`type: 'system'`, `user_id: 'system'`, no name). */
  function Notice(content: string): RoomMessage {
    RoomMessage(SystemKind, content, SystemId, None)
  }

  /**
   * The name shown above a message: `user_name` when it is a non-empty string (an empty one
   * is falsy), otherwise 'Mediator' for the mediator, 'System' for system notices and
   * 'Unknown' for anyone else. Never empty.
   */
  function SenderLabel(m: RoomMessage): (shown: string)
    ensures shown != ""
    ensures m.userName.Some? && m.userName.value != "" ==> shown == m.userName.value
    ensures (m.userName.None? || m.userName.value == "") ==>
      shown in {"Mediator", "System", "Unknown"} && (shown == "Mediator" <==> m.userId == MediatorId)
    ensures (m.userName.None? || m.userName.value == "") && m.userId != MediatorId ==>
      (shown == "System" <==> m.userId == SystemId) && (shown == "Unknown" <==> m.userId != SystemId)
  {
    if m.userName.Some? && m.userName.value != "" then m.userName.value
    else if m.userId == MediatorId then "Mediator"
    else if m.userId == SystemId then "System"
    else "Unknown"
  }

  /**
   * Placement: the page's own messages on the right, the mediator's centred, everyone
   * else's (system notices included) on the left. Own id wins over the mediator id.
   */
  function Alignment(m: RoomMessage, userId: string): (a: Align)
    ensures a == End <==> m.userId == userId
    ensures a == Center <==> m.userId != userId && m.userId == MediatorId
    ensures a == Start <==> m.userId != userId && m.userId != MediatorId
  {
    if m.userId == userId then End
    else if m.userId == MediatorId then Center
    else Start
  }

  /**
   * The page's user id is `user_` followed by random characters, so the notices the page
   * appends itself are labelled 'System' and shown on the left.
   */
  lemma NoticeRendering(content: string, userId: string)
    requires Text.StartsWith(userId, "user_")
    ensures SenderLabel(Notice(content)) == "System"
    ensures Alignment(Notice(content), userId) == Start
  {
    assert userId[0] == 'u';
  }

  class ResolvePage {
    /** `user_` plus random characters, fixed for the page's lifetime; `NoticeRendering` applies to it. */
    const userId: string
    /** `encodeURIComponent`, supplied by the caller. */
    const encode: string -> string

    var inputMessage: string
    var messages: seq<RoomMessage>
    var roomId: string
    var userName: string
    var isConnected: bool
    var error: Option<string>
    /** `ws.current`: index into `conns`, or None for `null`. */
    var ws: Option<nat>
    /** Every socket the page created, oldest first. */
    var conns: seq<RoomConn>
    /** What was transmitted, with the index of the socket it went through. */
    var sent: seq<(nat, Outgoing)>

    ghost predicate Valid()
      reads this
    {
      && Text.StartsWith(userId, "user_")
      && (ws.Some? ==> ws.value < |conns|)
    }

    /** The page as first rendered: empty fields, no messages, not connected, no socket. */
    constructor (userId: string, encode: string -> string)
      requires Text.StartsWith(userId, "user_")
      ensures Valid()
      ensures this.userId == userId && this.encode == encode
      ensures inputMessage == "" && messages == [] && roomId == "" && userName == ""
      ensures !isConnected && error == None && ws == None && conns == [] && sent == []
    {
      this.userId := userId;
      this.encode := encode;
      inputMessage := "";
      messages := [];
      roomId := "";
      userName := "";
      isConnected := false;
      error := None;
      ws := None;
      conns := [];
      sent := [];
    }

    /** The room-id input's change handler. */
    method SetRoomId(s: string)
      modifies this`roomId
      ensures roomId == s
    {
      roomId := s;
    }

    /** The name input's change handler. */
    method SetUserName(s: string)
      modifies this`userName
      ensures userName == s
    {
      userName := s;
    }

    /** The message input's change handler. */
    method SetInputMessage(s: string)
      modifies this`inputMessage
      ensures inputMessage == s
    {
      inputMessage := s;
    }

    /**
     * `connectToRoom()`. A blank room id or name sets the error and opens nothing. Otherwise
     * the error is cleared and a socket is created for `RoomUrl`; it becomes `ws.current`
     * without the previous one being closed. If the constructor throws (an address the
     * browser refuses), the error says so and `ws.current` is kept.
     */
    method ConnectToRoom(constructorThrows: bool)
      requires Valid()
      modifies this`error, this`ws, this`conns
      ensures Valid()
      ensures Text.IsBlank(roomId) || Text.IsBlank(userName) ==>
        error == Some(MissingFieldsError) && ws == old(ws) && conns == old(conns)
      ensures !Text.IsBlank(roomId) && !Text.IsBlank(userName) && constructorThrows ==>
        error == Some(ConstructError) && ws == old(ws) && conns == old(conns)
      ensures !Text.IsBlank(roomId) && !Text.IsBlank(userName) && !constructorThrows ==>
        && error == None
        && conns == old(conns) + [RoomConn(RoomAddress.RoomUrl(Needs.GetData("else"), roomId, userId, encode(userName)), roomId, Connecting)]
        && ws == Some(|old(conns)|)
    {
      if Text.IsBlank(roomId) || Text.IsBlank(userName) {
        error := Some(MissingFieldsError);
        return;
      }
      error := None;
      var url := RoomAddress.RoomUrl(Needs.GetData("else"), roomId, userId, encode(userName));
      if constructorThrows {
        error := Some(ConstructError);
      } else {
        conns := conns + [RoomConn(url, roomId, Connecting)];
        ws := Some(|conns| - 1);
      }
    }

    /** Open event of socket `i`: connected, and one notice naming the room it was opened for. */
    method OnOpen(i: nat)
      requires Valid()
      requires i < |conns| && conns[i].state == Connecting
      modifies this`isConnected, this`messages, this`conns
      ensures Valid()
      ensures isConnected
      ensures messages == old(messages) + [Notice(ConnectedNotice(old(conns)[i].room))]
      ensures conns == old(conns)[i := old(conns)[i].(state := Open)]
    {
      conns := conns[i := conns[i].(state := Open)];
      isConnected := true;
      messages := messages + [Notice(ConnectedNotice(conns[i].room))];
    }

    /** Message event of socket `i`: the parsed message goes to the end of the log. */
    method OnMessage(i: nat, m: RoomMessage)
      requires Valid()
      requires i < |conns| && conns[i].state == Open
      modifies this`messages
      ensures Valid()
      ensures messages == old(messages) + [m]
    {
      messages := messages + [m];
    }

    /** Close event of socket `i` (current or not): disconnected, and one notice. */
    method OnClose(i: nat)
      requires Valid()
      requires i < |conns| && conns[i].state != Closed
      modifies this`isConnected, this`messages, this`conns
      ensures Valid()
      ensures !isConnected
      ensures messages == old(messages) + [Notice(DisconnectedNotice)]
      ensures conns == old(conns)[i := old(conns)[i].(state := Closed)]
    {
      conns := conns[i := conns[i].(state := Closed)];
      isConnected := false;
      messages := messages + [Notice(DisconnectedNotice)];
    }

    /** Error event of socket `i`: only the error text changes. */
    method OnError(i: nat)
      requires Valid()
      requires i < |conns|
      modifies this`error
      ensures Valid()
      ensures error == Some(ConnectionError)
    {
      error := Some(ConnectionError);
    }

    /**
     * `sendMessage()`: only with a non-blank input and an OPEN current socket, sends the
     * input as typed (not trimmed) and clears it; otherwise does nothing.
     */
    method SendMessage()
      requires Valid()
      modifies this`sent, this`inputMessage
      ensures var go := !Text.IsBlank(old(inputMessage)) && ws.Some? && conns[ws.value].state == Open;
        && (go ==> sent == old(sent) + [(ws.value, ChatText(old(inputMessage)))] && inputMessage == "")
        && (!go ==> sent == old(sent) && inputMessage == old(inputMessage))
    {
      if Text.IsBlank(inputMessage) || ws.None? || conns[ws.value].state != Open {
        return;
      }
      sent := sent + [(ws.value, ChatText(inputMessage))];
      inputMessage := "";
    }

    /** `requestMediation()`: sends a mediation request exactly when the current socket is OPEN; the input plays no part. */
    method RequestMediation()
      requires Valid()
      modifies this`sent
      ensures var go := ws.Some? && conns[ws.value].state == Open;
        && (go ==> sent == old(sent) + [(ws.value, MediationRequest)])
        && (!go ==> sent == old(sent))
    {
      if ws.None? || conns[ws.value].state != Open {
        return;
      }
      sent := sent + [(ws.value, MediationRequest)];
    }

    /**
     * `disconnect()` ("Leave Room"), and likewise the unmount cleanup: closes the current
     * socket but leaves `ws.current` pointing at it. The flag and the log change only when
     * the close event arrives.
     */
    method Disconnect()
      requires Valid()
      modifies this`conns
      ensures Valid()
      ensures ws.Some? ==> conns == old(conns)[ws.value := old(conns)[ws.value].(state := AfterClose(old(conns)[ws.value].state))]
      ensures ws.None? ==> conns == old(conns)
    {
      if ws.Some? {
        var i := ws.value;
        conns := conns[i := conns[i].(state := AfterClose(conns[i].state))];
      }
    }
  }
}
