/**
 * The voice chat room page: how it applies the server's events to its room
 * snapshot (`roomInfo`), its one-shot `joined` flag and its map of active
 * peer calls, and which envelopes its handlers send.
 *
 * ClientState and Step are the specification; the class RoomClient holds
 * the same state in fields and its methods update them in place as the page
 * does, each proved to agree with Step.
 */
module VoiceChatRoom {
  import opened Wrappers
  import opened Protocol
  import Js

  /** An opaque PeerJS media connection. */
  type CallHandle = nat

  /** `Math.trunc(Math.random() * 100000000)` ranges below this bound. */
  const RANDOM_ID_BOUND: nat := 100000000

  const MESSAGE_ID_PREFIX: string := "reaction-"

  /**
   * Everything the page keeps between events. Calls placed, calls closed
   * and envelopes sent are logs of what the page did through PeerJS and
   * the WebSocket.
   */
  datatype ClientState = ClientState(
    roomInfo: Option<RoomInfo>,
    joined: bool,
    peerCreated: bool,
    myPeerId: Option<string>,
    activeCalls: map<string, CallHandle>,
    placedCalls: seq<string>,
    closedCalls: seq<CallHandle>,
    sent: seq<Envelope>,
    message: string,
    navigatedToLobby: bool)

  // ---------------------------------------------------------------------------
  // Reactions

  /** `reactions[kind] += 1`; a missing key or NaN count gives NaN. */
  function Incremented(reactions: map<string, Count>, kind: string): (r: Count)
    ensures r.Num? <==> kind in reactions && reactions[kind].Num?
    ensures r.Num? ==> r.n == reactions[kind].n + 1
  {
    if kind in reactions && reactions[kind].Num? then Num(reactions[kind].n + 1) else NaN
  }

  /** One message after a reaction of `kind`: that counter goes up by one, nothing else changes. */
  function Bump(m: Message, kind: string): (r: Message)
    ensures r.id == m.id && r.username == m.username && r.kind == m.kind && r.content == m.content
    ensures r.reactions.Keys == m.reactions.Keys + {kind}
    ensures kind in m.reactions && m.reactions[kind].Num? ==> r.reactions[kind] == Num(m.reactions[kind].n + 1)
    ensures forall k :: k in m.reactions && k != kind ==> r.reactions[k] == m.reactions[k]
  {
    m.(reactions := m.reactions[kind := Incremented(m.reactions, kind)])
  }

  /** The `reaction` handler's effect: every message whose id matches gets the counter bumped. */
  function ApplyReaction(msgs: seq<Message>, messageId: string, kind: string): (r: seq<Message>)
    ensures |r| == |msgs|
    ensures forall i :: 0 <= i < |msgs| ==> r[i].id == msgs[i].id && r[i].content == msgs[i].content
  {
    if msgs == [] then []
    else [if msgs[0].id == messageId then Bump(msgs[0], kind) else msgs[0]]
         + ApplyReaction(msgs[1..], messageId, kind)
  }

  lemma {:induction false} ApplyReactionAt(msgs: seq<Message>, messageId: string, kind: string, i: nat)
    requires i < |msgs|
    ensures ApplyReaction(msgs, messageId, kind)[i]
         == if msgs[i].id == messageId then Bump(msgs[i], kind) else msgs[i]
  {
    if i > 0 {
      ApplyReactionAt(msgs[1..], messageId, kind, i - 1);
    }
  }

  /**
   * A reaction bumps the chosen counter by exactly one on every message
   * with the target id, and leaves the other counters of those messages and
   * every other message unchanged.
   */
  lemma ReactionIncrementsOneCounter(msgs: seq<Message>, messageId: string, kind: string, i: nat)
    requires i < |msgs|
    ensures var r := ApplyReaction(msgs, messageId, kind);
      && (msgs[i].id != messageId ==> r[i] == msgs[i])
      && (msgs[i].id == messageId && kind in msgs[i].reactions && msgs[i].reactions[kind].Num? ==>
            kind in r[i].reactions && r[i].reactions[kind] == Num(msgs[i].reactions[kind].n + 1))
      && (forall k :: k in msgs[i].reactions && k != kind ==>
            k in r[i].reactions && r[i].reactions[k] == msgs[i].reactions[k])
      && r[i].id == msgs[i].id && r[i].content == msgs[i].content
  {
    ApplyReactionAt(msgs, messageId, kind, i);
  }

  /** With no message carrying the id, a reaction changes nothing. */
  lemma {:induction false} ReactionWithoutMatch(msgs: seq<Message>, messageId: string, kind: string)
    requires forall i :: 0 <= i < |msgs| ==> msgs[i].id != messageId
    ensures ApplyReaction(msgs, messageId, kind) == msgs
  {
    if msgs != [] {
      ReactionWithoutMatch(msgs[1..], messageId, kind);
    }
  }

  /** `count` reactions of one kind in a row. */
  function Reactions(msgs: seq<Message>, messageId: string, kind: string, count: nat): (r: seq<Message>)
    ensures |r| == |msgs|
  {
    if count == 0 then msgs else ApplyReaction(Reactions(msgs, messageId, kind, count - 1), messageId, kind)
  }

  /** After `count` reactions of one kind, a matching message's counter has grown by `count`. */
  lemma {:induction false} ReactionsAccumulate(msgs: seq<Message>, messageId: string, kind: string,
                                               count: nat, i: nat, start: int)
    requires i < |msgs| && msgs[i].id == messageId
    requires kind in msgs[i].reactions && msgs[i].reactions[kind] == Num(start)
    ensures var r := Reactions(msgs, messageId, kind, count)[i];
      && r.id == messageId
      && msgs[i].reactions.Keys <= r.reactions.Keys
      && kind in r.reactions && r.reactions[kind] == Num(start + count)
      && forall k :: k in msgs[i].reactions && k != kind ==> r.reactions[k] == msgs[i].reactions[k]
  {
    if count > 0 {
      ReactionsAccumulate(msgs, messageId, kind, count - 1, i, start);
      ApplyReactionAt(Reactions(msgs, messageId, kind, count - 1), messageId, kind, i);
    }
  }

  // ---------------------------------------------------------------------------
  // Calls placed on the first join

  /** `user.peerId !== myPeerId.current`, where an unset id differs from every peer id. */
  predicate IsOther(me: Option<string>, peerId: string) {
    me.None? || me.value != peerId
  }

  /** The peers the first `join-room` calls: every listed user but ourselves, in list order. */
  function CallTargets(users: seq<User>, me: Option<string>): (r: seq<string>)
    ensures |r| <= |users|
    ensures forall i :: 0 <= i < |r| ==> IsOther(me, r[i])
  {
    if users == [] then []
    else
      var last := users[|users| - 1];
      CallTargets(users[..|users| - 1], me) + (if IsOther(me, last.peerId) then [last.peerId] else [])
  }

  /** The handles of the calls to `order`'s peers, in that order. */
  function HandlesOf(order: seq<string>, calls: map<string, CallHandle>): (r: seq<CallHandle>)
    requires forall i :: 0 <= i < |order| ==> order[i] in calls
    ensures |r| == |order|
    ensures forall i :: 0 <= i < |order| ==> r[i] == calls[order[i]]
  {
    if order == [] then []
    else HandlesOf(order[..|order| - 1], calls) + [calls[order[|order| - 1]]]
  }

  /**
   * `Object.values(calls).forEach(call => call.close())`: every call is
   * closed once. `closed` lists the handles in closing order, and the ghost
   * `order` the peers they belong to, each exactly once.
   */
  method CloseAll(calls: map<string, CallHandle>) returns (closed: seq<CallHandle>, ghost order: seq<string>)
    ensures |order| == |calls|
    ensures forall i :: 0 <= i < |order| ==> order[i] in calls
    ensures forall i, j :: 0 <= i < j < |order| ==> order[i] != order[j]
    ensures forall p :: p in calls ==> p in order
    ensures closed == HandlesOf(order, calls)
  {
    var remaining := calls;
    closed, order := [], [];
    while remaining != map[]
      invariant remaining.Keys <= calls.Keys
      invariant forall p :: p in remaining ==> remaining[p] == calls[p]
      invariant |order| == |calls| - |remaining|
      invariant forall i :: 0 <= i < |order| ==> order[i] in calls && order[i] !in remaining
      invariant forall i, j :: 0 <= i < j < |order| ==> order[i] != order[j]
      invariant forall p :: p in calls && p !in remaining ==> p in order
      invariant closed == HandlesOf(order, calls)
      decreases |remaining|
    {
      var p :| p in remaining;
      assert (order + [p])[..|order|] == order;
      order := order + [p];
      closed := closed + [remaining[p]];
      remaining := remaining - {p};
    }
  }

  /** A peer is called exactly when it is listed and is not ourselves. */
  lemma {:induction false} CallTargetsExactly(users: seq<User>, me: Option<string>, peerId: string)
    ensures peerId in CallTargets(users, me) <==>
      IsOther(me, peerId) && exists i :: 0 <= i < |users| && users[i].peerId == peerId
  {
    if users != [] {
      var init := users[..|users| - 1];
      CallTargetsExactly(init, me, peerId);
      if exists i :: 0 <= i < |init| && init[i].peerId == peerId {
        var i :| 0 <= i < |init| && init[i].peerId == peerId;
        assert users[i].peerId == peerId;
      }
      if exists i :: 0 <= i < |users| && users[i].peerId == peerId {
        var i :| 0 <= i < |users| && users[i].peerId == peerId;
        if i < |init| { assert init[i].peerId == peerId; }
      }
    }
  }

  // ---------------------------------------------------------------------------
  // The event reducer

  /** What `ws.current.onmessage` does with each event. */
  function Step(s: ClientState, ev: RoomEvent): (r: ClientState)
    ensures r.sent == s.sent && r.message == s.message && r.navigatedToLobby == s.navigatedToLobby
    ensures r.peerCreated == s.peerCreated && r.myPeerId == s.myPeerId
    ensures s.joined ==> r.joined
    ensures s.placedCalls <= r.placedCalls && s.closedCalls <= r.closedCalls
    ensures r.activeCalls.Keys <= s.activeCalls.Keys
    ensures forall p :: p in r.activeCalls ==> r.activeCalls[p] == s.activeCalls[p]
  {
    match ev
    case JoinRoomEvent(room) =>
      var s1 := s.(roomInfo := Some(room));
      if s.joined then s1
      else
        // With no Peer object yet, the first call attempt throws; nothing is placed.
        var calls := if s.peerCreated then CallTargets(room.users, s.myPeerId) else [];
        s1.(joined := true, placedCalls := s.placedCalls + calls)
    case GetRoomEvent(found) =>
      s.(roomInfo := found)
    case LeaveRoomEvent(newRoom, leaver) =>
      var s1 := s.(roomInfo := Some(newRoom));
      // Closing a call that is not in the map throws before the delete.
      if leaver.peerId in s.activeCalls then
        s1.(closedCalls := s.closedCalls + [s.activeCalls[leaver.peerId]],
            activeCalls := s.activeCalls - {leaver.peerId})
      else s1
    case SendMessageEvent(m) =>
      // Reading `messages` of a null snapshot throws: the state is left as it was.
      if s.roomInfo.None? then s
      else s.(roomInfo := Some(s.roomInfo.value.(messages := s.roomInfo.value.messages + [m])))
    case ReactionEvent(messageId, kind) =>
      if s.roomInfo.None? then s
      else s.(roomInfo := Some(s.roomInfo.value.(
        messages := ApplyReaction(s.roomInfo.value.messages, messageId, kind))))
    case OtherRoomEvent(_) =>
      s
  }

  /** `send-message` appends its payload as the last message; earlier messages and the users stay. */
  lemma SendMessageAppends(s: ClientState, m: Message)
    requires s.roomInfo.Some?
    ensures var t := Step(s, SendMessageEvent(m));
      && t.roomInfo.Some?
      && |t.roomInfo.value.messages| == |s.roomInfo.value.messages| + 1
      && t.roomInfo.value.messages[|t.roomInfo.value.messages| - 1] == m
      && t.roomInfo.value.messages[..|s.roomInfo.value.messages|] == s.roomInfo.value.messages
      && t.roomInfo.value.users == s.roomInfo.value.users
      && t.roomInfo.value.name == s.roomInfo.value.name
  {
  }

  /** A `reaction` whose id matches no message leaves the snapshot as it was. */
  lemma ReactionWithoutMatchUnchanged(s: ClientState, messageId: string, kind: string)
    requires s.roomInfo.Some?
    requires forall i :: 0 <= i < |s.roomInfo.value.messages| ==> s.roomInfo.value.messages[i].id != messageId
    ensures Step(s, ReactionEvent(messageId, kind)) == s
  {
    ReactionWithoutMatch(s.roomInfo.value.messages, messageId, kind);
  }

  /**
   * `join-room` always installs its snapshot. Only the first one calls
   * anybody, and then exactly the listed users other than ourselves.
   */
  lemma JoinRoomCalls(s: ClientState, room: RoomInfo, peerId: string)
    ensures var t := Step(s, JoinRoomEvent(room));
      && t.roomInfo == Some(room)
      && t.joined
      && (s.joined ==> t.placedCalls == s.placedCalls)
      && (!s.joined && s.peerCreated ==>
            t.placedCalls == s.placedCalls + CallTargets(room.users, s.myPeerId)
            && (peerId in t.placedCalls[|s.placedCalls|..] <==>
                  IsOther(s.myPeerId, peerId) && exists i :: 0 <= i < |room.users| && room.users[i].peerId == peerId))
  {
    var t := Step(s, JoinRoomEvent(room));
    if !s.joined && s.peerCreated {
      assert t.placedCalls[|s.placedCalls|..] == CallTargets(room.users, s.myPeerId);
      CallTargetsExactly(room.users, s.myPeerId, peerId);
    }
  }

  /** A second `join-room` places no call, whatever its snapshot. */
  lemma SecondJoinPlacesNoCall(s: ClientState, first: RoomInfo, second: RoomInfo)
    ensures var t := Step(s, JoinRoomEvent(first));
      Step(t, JoinRoomEvent(second)).placedCalls == t.placedCalls
  {
  }

  /** The `joined` flag is one-shot: once set, no event resets it, and only `join-room` sets it. */
  lemma JoinedIsOneShot(s: ClientState, ev: RoomEvent)
    ensures s.joined ==> Step(s, ev).joined
    ensures !ev.JoinRoomEvent? ==> Step(s, ev).joined == s.joined
  {
  }

  /**
   * `leave-room` installs the new snapshot and closes and forgets the
   * leaver's call, keeping every other entry; with no call for the leaver
   * the map stays as it was.
   */
  lemma LeaveRoomForgetsLeaver(s: ClientState, newRoom: RoomInfo, leaver: User)
    ensures var t := Step(s, LeaveRoomEvent(newRoom, leaver));
      && t.roomInfo == Some(newRoom)
      && leaver.peerId !in t.activeCalls
      && (forall p :: p in s.activeCalls && p != leaver.peerId ==> p in t.activeCalls && t.activeCalls[p] == s.activeCalls[p])
      && t.activeCalls.Keys == s.activeCalls.Keys - {leaver.peerId}
      && (leaver.peerId in s.activeCalls ==> t.closedCalls == s.closedCalls + [s.activeCalls[leaver.peerId]])
  {
  }

  /** `get-room` installs its payload, absent or not. */
  lemma GetRoomReplaces(s: ClientState, found: Option<RoomInfo>)
    ensures Step(s, GetRoomEvent(found)).roomInfo == found
    ensures Step(s, GetRoomEvent(found)).(roomInfo := s.roomInfo) == s
  {
  }

  /** Incoming events never send anything and never touch the message box. */
  lemma EventsSendNothing(s: ClientState, ev: RoomEvent)
    ensures Step(s, ev).sent == s.sent && Step(s, ev).message == s.message
  {
  }

  // ---------------------------------------------------------------------------
  // Outgoing messages

  /** The counters of a fresh message: all five kinds at zero. */
  function FreshReactions(): (r: map<string, Count>)
    ensures r.Keys == set k | k in REACTION_KINDS
    ensures forall k :: k in r ==> r[k] == Num(0)
  {
    map["good" := Num(0), "love" := Num(0), "haha" := Num(0), "fire" := Num(0), "bad" := Num(0)]
  }

  /**
   * What `handleMessage` sends for the typed text and random draw: nothing
   * for blank text, otherwise one `send-message` of type "text" with id
   * "reaction-<draw>", all five counters at zero and the text untrimmed.
   */
  function OutgoingMessage(roomID: string, username: string, text: string, draw: nat): (r: Option<Envelope>)
    ensures r.None? <==> Js.AllWhiteSpace(text)
    ensures r.Some? ==>
      && r.value.SendMessage?
      && r.value.roomId == roomID
      && var m := r.value.messageInfo;
      && m.kind == "text" && m.username == username && m.content == text
      && |m.id| > |MESSAGE_ID_PREFIX| && m.id[..|MESSAGE_ID_PREFIX|] == MESSAGE_ID_PREFIX
      && m.reactions == FreshReactions()
  {
    if Js.Trim(text) != "" then
      Some(SendMessage(roomID, Message(MESSAGE_ID_PREFIX + Js.Decimal(draw), username, "text", text, FreshReactions())))
    else None
  }

  /** Different random draws give messages different ids. */
  lemma MessageIdsDiffer(roomID: string, username: string, text: string, d1: nat, d2: nat)
    requires !Js.AllWhiteSpace(text) && d1 != d2
    ensures OutgoingMessage(roomID, username, text, d1).value.messageInfo.id
         != OutgoingMessage(roomID, username, text, d2).value.messageInfo.id
  {
    var a := MESSAGE_ID_PREFIX + Js.Decimal(d1);
    var b := MESSAGE_ID_PREFIX + Js.Decimal(d2);
    if a == b {
      assert a[|MESSAGE_ID_PREFIX|..] == Js.Decimal(d1);
      assert b[|MESSAGE_ID_PREFIX|..] == Js.Decimal(d2);
      Js.DecimalInjective(d1, d2);
    }
  }

  /** The first reaction of a listed kind on a fresh message makes that counter 1, the others 0. */
  lemma FirstReactionOnFreshMessage(m: Message, kind: string, other: string)
    requires m.reactions == FreshReactions()
    requires kind in REACTION_KINDS && other in REACTION_KINDS && other != kind
    ensures Bump(m, kind).reactions[kind] == Num(1)
    ensures Bump(m, kind).reactions[other] == Num(0)
  {
  }

  // ---------------------------------------------------------------------------
  // The page

  class RoomClient {
    const roomID: string
    const username: string
    var roomInfo: Option<RoomInfo>
    var joined: bool
    var peerCreated: bool
    var myPeerId: Option<string>
    var activeCalls: map<string, CallHandle>
    var placedCalls: seq<string>
    var closedCalls: seq<CallHandle>
    var sent: seq<Envelope>
    var message: string
    var navigatedToLobby: bool

    function State(): ClientState
      reads this
    {
      ClientState(roomInfo, joined, peerCreated, myPeerId, activeCalls, placedCalls, closedCalls,
                  sent, message, navigatedToLobby)
    }

    /** The page as first rendered for room `roomID`: no snapshot, not joined, nothing sent. */
    constructor (roomID: string, username: string)
      ensures this.roomID == roomID && this.username == username
      ensures State() == ClientState(None, false, false, None, map[], [], [], [], "", false)
    {
      this.roomID := roomID;
      this.username := username;
      roomInfo := None;
      joined := false;
      peerCreated := false;
      myPeerId := None;
      activeCalls := map[];
      placedCalls := [];
      closedCalls := [];
      sent := [];
      message := "";
      navigatedToLobby := false;
    }

    /** `ws.current.onopen`: without a username go back to the lobby; otherwise ask for the room and create the Peer. */
    method OnOpen()
      modifies this
      ensures username == "" ==> State() == old(State()).(navigatedToLobby := true)
      ensures username != "" ==> State() == old(State()).(sent := old(sent) + [GetRoom(roomID)], peerCreated := true)
    {
      if username == "" {
        navigatedToLobby := true;
      } else {
        sent := sent + [GetRoom(roomID)];
        peerCreated := true;
      }
    }

    /** The Peer's `open` event: remember our peer id and ask to join the room under it. */
    method OnPeerOpen(id: string)
      modifies this
      ensures State() == old(State()).(myPeerId := Some(id), sent := old(sent) + [JoinRoom(roomID, username, id)])
    {
      myPeerId := Some(id);
      sent := sent + [JoinRoom(roomID, username, id)];
    }

    /** A call's `stream` event, for a call we placed or answered: it becomes the active call for that peer. */
    method OnCallStream(peerId: string, call: CallHandle)
      modifies this
      ensures State() == old(State()).(activeCalls := old(activeCalls)[peerId := call])
    {
      activeCalls := activeCalls[peerId := call];
    }

    /** `ws.current.onmessage`. */
    method OnMessage(ev: RoomEvent)
      modifies this
      ensures State() == Step(old(State()), ev)
    {
      match ev
      case JoinRoomEvent(room) => OnJoinRoom(room);
      case GetRoomEvent(found) => roomInfo := found;
      case LeaveRoomEvent(newRoom, leaver) => OnLeaveRoom(newRoom, leaver);
      case SendMessageEvent(m) => OnSendMessage(m);
      case ReactionEvent(messageId, kind) => OnReaction(messageId, kind);
      case OtherRoomEvent(_) =>
    }

    method OnJoinRoom(room: RoomInfo)
      modifies this
      ensures State() == Step(old(State()), JoinRoomEvent(room))
    {
      roomInfo := Some(room);
      if !joined {
        joined := true;
        if peerCreated {
          var placed := placedCalls;
          var i := 0;
          while i < |room.users|
            invariant 0 <= i <= |room.users|
            invariant placed == placedCalls + CallTargets(room.users[..i], myPeerId)
          {
            assert room.users[..i + 1][..i] == room.users[..i];
            if IsOther(myPeerId, room.users[i].peerId) {
              placed := placed + [room.users[i].peerId];
            }
            i := i + 1;
          }
          assert room.users[..i] == room.users;
          placedCalls := placed;
        }
      }
    }

    method OnLeaveRoom(newRoom: RoomInfo, leaver: User)
      modifies this
      ensures State() == Step(old(State()), LeaveRoomEvent(newRoom, leaver))
    {
      roomInfo := Some(newRoom);
      if leaver.peerId in activeCalls {
        closedCalls := closedCalls + [activeCalls[leaver.peerId]];
        activeCalls := activeCalls - {leaver.peerId};
      }
    }

    method OnSendMessage(m: Message)
      modifies this
      ensures State() == Step(old(State()), SendMessageEvent(m))
    {
      if roomInfo.Some? {
        roomInfo := Some(roomInfo.value.(messages := roomInfo.value.messages + [m]));
      }
    }

    /** The `reaction` branch: walks the messages and bumps the counter of each match in place. */
    method OnReaction(messageId: string, kind: string)
      modifies this
      ensures State() == Step(old(State()), ReactionEvent(messageId, kind))
    {
      if roomInfo.None? {
        return;
      }
      ghost var before := roomInfo.value.messages;
      var i := 0;
      while i < |roomInfo.value.messages|
        invariant roomInfo.Some?
        invariant roomInfo.value.name == old(roomInfo).value.name
        invariant roomInfo.value.users == old(roomInfo).value.users
        invariant |roomInfo.value.messages| == |before|
        invariant 0 <= i <= |before|
        invariant forall k :: 0 <= k < i ==>
          roomInfo.value.messages[k] == if before[k].id == messageId then Bump(before[k], kind) else before[k]
        invariant forall k :: i <= k < |before| ==> roomInfo.value.messages[k] == before[k]
        invariant State() == old(State()).(roomInfo := roomInfo)
      {
        var msg := roomInfo.value.messages[i];
        if msg.id == messageId {
          roomInfo := Some(roomInfo.value.(messages := roomInfo.value.messages[i := Bump(msg, kind)]));
        }
        i := i + 1;
      }
      forall k | 0 <= k < |before|
        ensures roomInfo.value.messages[k] == ApplyReaction(before, messageId, kind)[k]
      {
        ApplyReactionAt(before, messageId, kind, k);
      }
      assert roomInfo.value.messages == ApplyReaction(before, messageId, kind);
    }

    /** The message box's `onChange`. */
    method SetMessage(text: string)
      modifies this
      ensures State() == old(State()).(message := text)
    {
      message := text;
    }

    /** `handleMessage`: send the typed text unless it is blank, then clear the box either way. */
    method HandleMessage(draw: nat)
      requires draw < RANDOM_ID_BOUND
      modifies this
      ensures var out := OutgoingMessage(roomID, username, old(message), draw);
        State() == old(State()).(
          sent := old(sent) + (if out.Some? then [out.value] else []),
          message := "")
    {
      if Js.Trim(message) != "" {
        var sendMessage := SendMessage(roomID, Message(
          MESSAGE_ID_PREFIX + Js.Decimal(draw), username, "text", message, FreshReactions()));
        sent := sent + [sendMessage];
      }
      message := "";
    }

    /** `handleReaction`: one `reaction` envelope for this room. */
    method HandleReaction(messageId: string, reactionType: string)
      modifies this
      ensures State() == old(State()).(sent := old(sent) + [Reaction(roomID, messageId, reactionType)])
    {
      sent := sent + [Reaction(roomID, messageId, reactionType)];
    }

    /**
     * The effect's cleanup on unmount: close every active call, each once,
     * then empty the map. The ghost `order` lists the peers in the order
     * their calls were closed, each exactly once; that this is the map's
     * insertion order is not modelled.
     */
    method Unmount() returns (ghost order: seq<string>)
      modifies this
      ensures activeCalls == map[]
      ensures |order| == |old(activeCalls)|
      ensures forall i :: 0 <= i < |order| ==> order[i] in old(activeCalls)
      ensures forall i, j :: 0 <= i < j < |order| ==> order[i] != order[j]
      ensures forall p :: p in old(activeCalls) ==> p in order
      ensures closedCalls == old(closedCalls) + HandlesOf(order, old(activeCalls))
      ensures |closedCalls| == |old(closedCalls)| + |old(activeCalls)|
      ensures old(closedCalls) <= closedCalls
      ensures forall p :: p in old(activeCalls) ==> old(activeCalls)[p] in closedCalls[|old(closedCalls)|..]
      ensures State() == old(State()).(activeCalls := map[], closedCalls := closedCalls)
    {
      var closed;
      closed, order := CloseAll(activeCalls);
      forall p | p in activeCalls
        ensures activeCalls[p] in closed
      {
        var i :| 0 <= i < |order| && order[i] == p;
        assert closed[i] == activeCalls[p];
      }
      closedCalls := closedCalls + closed;
      assert closedCalls[|old(closedCalls)|..] == closed;
      activeCalls := map[];
    }

    /** `handleLeaveRoom`: one `leave-room` envelope, then back to the lobby. */
    method HandleLeaveRoom()
      modifies this
      ensures State() == old(State()).(sent := old(sent) + [LeaveRoom(roomID, username)], navigatedToLobby := true)
    {
      sent := sent + [LeaveRoom(roomID, username)];
      navigatedToLobby := true;
    }
  }
}
