/**
 * The voice chat lobby page: the room list it keeps in step with the
 * server, the create-room form, and the voice changer button that cycles
 * through the four voice modes.
 */
module VoiceChat {
  import opened Wrappers
  import opened Protocol
  import Js

  /** The lobby's React state: still connecting, the last room map received, the typed room name, envelopes sent. */
  datatype LobbyState = LobbyState(
    loading: bool,
    rooms: Option<map<string, RoomInfo>>,
    createRoomName: string,
    sent: seq<Envelope>)

  /** The page as first rendered. */
  const INITIAL: LobbyState := LobbyState(true, None, "", [])

  /** The socket's `onopen`: stop showing "Connecting" and ask for the rooms. */
  function OnOpen(s: LobbyState): (r: LobbyState)
    ensures !r.loading && r.sent == s.sent + [GetRooms]
    ensures r.rooms == s.rooms && r.createRoomName == s.createRoomName
  {
    Refresh(s.(loading := false))
  }

  /** `handleRefresh`: one `get-rooms` request. */
  function Refresh(s: LobbyState): (r: LobbyState)
    ensures r.sent == s.sent + [GetRooms] && r.(sent := s.sent) == s
  {
    s.(sent := s.sent + [GetRooms])
  }

  /** The socket's `onmessage`. */
  function OnLobbyMessage(s: LobbyState, ev: LobbyEvent): (r: LobbyState)
    ensures r.loading == s.loading && r.createRoomName == s.createRoomName
    ensures r.sent == s.sent || r.sent == s.sent + [GetRooms]
    ensures r.rooms == s.rooms || ev.GetRoomsEvent?
  {
    match ev
    case GetRoomsEvent(rooms) => s.(rooms := Some(rooms))
    case CreateRoomEvent => Refresh(s)
    case OtherLobbyEvent(_) => s
  }

  /** The room name input's `onChange`. */
  function SetCreateRoomName(s: LobbyState, name: string): (r: LobbyState)
    ensures r.createRoomName == name && r.(createRoomName := s.createRoomName) == s
  {
    s.(createRoomName := name)
  }

  /** `handleCreateRoom`: send the typed name and clear the input. */
  function CreateRoom(s: LobbyState): (r: LobbyState)
    ensures r.createRoomName == "" && r.sent == s.sent + [Protocol.CreateRoom(s.createRoomName)]
    ensures r.rooms == s.rooms && r.loading == s.loading
  {
    s.(createRoomName := "", sent := s.sent + [Protocol.CreateRoom(s.createRoomName)])
  }

  /** A `get-rooms` reply replaces the room map wholesale; nothing else changes. */
  lemma GetRoomsReplaces(s: LobbyState, rooms: map<string, RoomInfo>)
    ensures OnLobbyMessage(s, GetRoomsEvent(rooms)).rooms == Some(rooms)
    ensures OnLobbyMessage(s, GetRoomsEvent(rooms)).(rooms := s.rooms) == s
  {
  }

  /** A `create-room` notification sends exactly one new `get-rooms` request and changes nothing else. */
  lemma CreateRoomNotificationRefreshes(s: LobbyState)
    ensures var t := OnLobbyMessage(s, CreateRoomEvent);
      t.sent == s.sent + [GetRooms] && t.rooms == s.rooms && t.createRoomName == s.createRoomName
  {
  }

  /** `handleCreateRoom` sends the typed name, once, and leaves the input empty. */
  lemma CreateRoomSendsName(s: LobbyState)
    ensures var t := CreateRoom(s);
      && t.sent == s.sent + [Protocol.CreateRoom(s.createRoomName)]
      && t.createRoomName == ""
      && t.rooms == s.rooms
  {
  }

  /**
   * A whole exchange: open, type a name, create the room, receive a
   * `create-room` notification, then a `get-rooms` reply with the rooms.
   */
  lemma CreateRoomExchange(name: string, rooms: map<string, RoomInfo>)
    ensures var s := OnLobbyMessage(OnLobbyMessage(CreateRoom(SetCreateRoomName(OnOpen(INITIAL), name)),
                                                   CreateRoomEvent), GetRoomsEvent(rooms));
      && s.sent == [GetRooms, Protocol.CreateRoom(name), GetRooms]
      && s.rooms == Some(rooms)
      && s.createRoomName == ""
      && !s.loading
  {
  }

  /**
   * The create-room button's `disabled`: the room name or the username is
   * empty after trimming, that is, consists of whitespace only.
   */
  function CreateRoomDisabled(name: string, username: string): (r: bool)
    ensures r <==> Js.AllWhiteSpace(name) || Js.AllWhiteSpace(username)
  {
    Js.Trim(name) == "" || Js.Trim(username) == ""
  }

  // ---------------------------------------------------------------------------
  // Voice changer

  /** The modes in button order; pressing moves to the next one and wraps around. */
  const VOICE_MODES: seq<string> := ["normal", "deep", "chipmunk", "echo"]

  /** Where a known mode sits in the cycle. */
  function Position(mode: string): (r: nat)
    requires mode in VOICE_MODES
    ensures r < |VOICE_MODES| && VOICE_MODES[r] == mode
  {
    if mode == "normal" then 0 else if mode == "deep" then 1 else if mode == "chipmunk" then 2 else 3
  }

  /** `handleVoiceChanger`: the next mode in the cycle; a mode outside the four is kept. */
  function NextVoice(mode: string): (r: string)
    ensures mode !in VOICE_MODES ==> r == mode
    ensures mode in VOICE_MODES ==> r == VOICE_MODES[(Position(mode) + 1) % |VOICE_MODES|]
  {
    if mode == "normal" then "deep"
    else if mode == "deep" then "chipmunk"
    else if mode == "chipmunk" then "echo"
    else if mode == "echo" then "normal"
    else mode
  }

  /** The mode after `k` presses. */
  function Presses(mode: string, k: nat): string {
    if k == 0 then mode else NextVoice(Presses(mode, k - 1))
  }

  /** The four modes are distinct, so a mode's position is its index. */
  lemma PositionOfIndex(j: nat)
    requires j < |VOICE_MODES|
    ensures Position(VOICE_MODES[j]) == j
  {
  }

  /** The index after j in the cycle. */
  function Succ(j: nat): nat {
    if j == 3 then 0 else j + 1
  }

  /** Pressing once from the j-th mode gives the next one, wrapping after the last. */
  lemma NextVoiceAt(j: nat)
    requires j < |VOICE_MODES|
    ensures NextVoice(VOICE_MODES[j]) == VOICE_MODES[Succ(j)]
  {
    PositionOfIndex(j);
  }

  /** The index k steps after i. */
  function CycleIndex(i: nat, k: nat): (r: nat)
    requires i < 4
    ensures r < 4
  {
    if k == 0 then i else Succ(CycleIndex(i, k - 1))
  }

  /** Stepping k times from i is adding k modulo 4. */
  lemma {:induction false} CycleIndexIsMod(i: nat, k: nat)
    requires i < 4
    ensures CycleIndex(i, k) == (i + k) % 4
  {
    if k > 0 {
      CycleIndexIsMod(i, k - 1);
      var q, m := (i + k - 1) / 4, (i + k - 1) % 4;
      assert i + k == 4 * q + m + 1;
      if m == 3 {
        assert i + k == 4 * (q + 1);
      }
    }
  }

  /** k presses from the i-th mode land on the (i + k) mod 4-th. */
  lemma {:induction false} PressesAlongCycle(i: nat, k: nat)
    requires i < |VOICE_MODES|
    ensures Presses(VOICE_MODES[i], k) == VOICE_MODES[(i + k) % 4]
  {
    PressesIndex(i, k);
    CycleIndexIsMod(i, k);
  }

  lemma {:induction false} PressesIndex(i: nat, k: nat)
    requires i < |VOICE_MODES|
    ensures Presses(VOICE_MODES[i], k) == VOICE_MODES[CycleIndex(i, k)]
  {
    if k > 0 {
      var j := CycleIndex(i, k - 1);
      PressesIndex(i, k - 1);
      assert Presses(VOICE_MODES[i], k) == NextVoice(VOICE_MODES[j]);
      NextVoiceAt(j);
    }
  }

  /** Four presses return to a known mode, and fewer never do. */
  lemma VoiceCyclePeriod(mode: string, k: nat)
    requires mode in VOICE_MODES
    ensures Presses(mode, 4) == mode
    ensures 0 < k < 4 ==> Presses(mode, k) != mode
  {
    CyclePeriodAt(Position(mode), k);
  }

  lemma CyclePeriodAt(i: nat, k: nat)
    requires i < |VOICE_MODES|
    ensures Presses(VOICE_MODES[i], 4) == VOICE_MODES[i]
    ensures 0 < k < 4 ==> Presses(VOICE_MODES[i], k) != VOICE_MODES[i]
  {
    CycleReturns(i);
    if 0 < k < 4 {
      CycleNotEarlier(i, k);
    }
  }

  lemma CycleReturns(i: nat)
    requires i < |VOICE_MODES|
    ensures Presses(VOICE_MODES[i], 4) == VOICE_MODES[i]
  {
    PressesIndex(i, 4);
    CycleIndexIsMod(i, 4);
  }

  lemma CycleNotEarlier(i: nat, k: nat)
    requires i < |VOICE_MODES| && 0 < k < 4
    ensures Presses(VOICE_MODES[i], k) != VOICE_MODES[i]
  {
    PressesIndex(i, k);
    CycleIndexIsMod(i, k);
    var j := (i + k) % 4;
    assert j != i;
    PositionOfIndex(i);
    PositionOfIndex(j);
  }

  /** An unknown mode stays as it is, however often the button is pressed. */
  lemma {:induction false} UnknownVoiceFixed(mode: string, k: nat)
    requires mode !in VOICE_MODES
    ensures Presses(mode, k) == mode
  {
    if k > 0 {
      UnknownVoiceFixed(mode, k - 1);
    }
  }
}
