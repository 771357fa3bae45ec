/**
 * The JSON envelopes `{event, payload}` the client pages send over the
 * WebSocket, and the values their payloads carry. Parsing and
 * serialisation of JSON are not modelled: each event is a typed value.
 */
module Protocol {
  import opened Wrappers

  /**
   * A reaction counter as JavaScript holds it: a number, or NaN once
   * `undefined + 1` has been stored under a missing key.
   */
  datatype Count = Num(n: int) | NaN

  /** A chat message as the room page renders and updates it. */
  datatype Message = Message(
    id: string,
    username: string,
    kind: string,
    content: string,
    reactions: map<string, Count>)

  /** A room member as the room snapshot lists it. */
  datatype User = User(username: string, peerId: string)

  /** The room snapshot the room page keeps in `roomInfo`. */
  datatype RoomInfo = RoomInfo(name: string, users: seq<User>, messages: seq<Message>)

  /** The five reaction kinds the page offers. */
  const REACTION_KINDS: seq<string> := ["good", "love", "haha", "fire", "bad"]

  /** Client-to-server envelopes. */
  datatype Envelope =
    | GetRooms
    | GetRoom(roomId: string)
    | CreateRoom(name: string)
    | JoinRoom(roomId: string, username: string, peerId: string)
    | LeaveRoom(roomId: string, username: string)
    | SendMessage(roomId: string, messageInfo: Message)
    | Reaction(roomId: string, messageId: string, reactionType: string)

  /** Server-to-client events the room page reacts to; any other name is ignored. */
  datatype RoomEvent =
    | JoinRoomEvent(room: RoomInfo)
    | GetRoomEvent(found: Option<RoomInfo>)
    | LeaveRoomEvent(newRoom: RoomInfo, leaver: User)
    | SendMessageEvent(message: Message)
    | ReactionEvent(messageId: string, reactionType: string)
    | OtherRoomEvent(event: string)

  /** Server-to-client events the lobby page reacts to; any other name is ignored. */
  datatype LobbyEvent =
    | GetRoomsEvent(rooms: map<string, RoomInfo>)
    | CreateRoomEvent
    | OtherLobbyEvent(event: string)
}
