/**
 * The shared-room timer page: the view it keeps (time, running flag, active
 * preset, members), the handler it installs for the server's messages, and
 * the commands its buttons send. Commands are the server's own decoded
 * `Command` values, so the effect of a button on the room can be stated
 * against `ServerState.Dispatch`.
 */
module CollabPage {
  import opened Options
  import opened Presets
  import opened ServerState
  import ServerProperties
  import ServerSync

  /** A member card. */
  datatype Member = Member(id: string, name: string, image: string, status: string)

  /**
   * A parsed server message, by its `type` field, with the fields the handler
   * reads; `members` is `None` when the payload has no such field.
   */
  datatype Incoming =
    | UpdateTimerMsg(timer: int, isRunning: bool, preset: string)
    | JoinedRoomMsg(timer: int, isRunning: bool, preset: string, members: Option<seq<Member>>)
    | MemberUpdateMsg(members: Option<seq<Member>>)
    | OtherMsg(kind: string)

  /** The page's state variables that the handler and the buttons read. */
  datatype View = View(time: int, isRunning: bool, activePreset: string, members: seq<Member>)

  /** The state the page is mounted with. */
  function InitialView(): View
  {
    View(25 * 60, false, FocusName, [])
  }

  /** `data.members || []` for a field that is an array or absent. */
  function MembersOrEmpty(m: Option<seq<Member>>): seq<Member>
  {
    match m
    case Some(ms) => ms
    case None => []
  }

  /**
   * `socket.onmessage`: `updateTimer` and `joinedRoom` set the timer fields,
   * `joinedRoom` and `memberUpdate` set the members, anything else is ignored.
   */
  function Receive(v: View, m: Incoming): (r: View)
    ensures !m.JoinedRoomMsg? && !m.MemberUpdateMsg? ==> r.members == v.members
    ensures !m.JoinedRoomMsg? && !m.UpdateTimerMsg? ==>
      r.time == v.time && r.isRunning == v.isRunning && r.activePreset == v.activePreset
    ensures m.UpdateTimerMsg? || m.JoinedRoomMsg? ==>
      r.time == m.timer && r.isRunning == m.isRunning && r.activePreset == m.preset
    ensures m.JoinedRoomMsg? || m.MemberUpdateMsg? ==>
      (m.members.Some? ==> r.members == m.members.value) && (m.members.None? ==> r.members == [])
    ensures m.OtherMsg? ==> r == v
  {
    match m
    case UpdateTimerMsg(timer, running, preset) => v.(time := timer, isRunning := running, activePreset := preset)
    case JoinedRoomMsg(timer, running, preset, ms) =>
      View(timer, running, preset, MembersOrEmpty(ms))
    case MemberUpdateMsg(ms) => v.(members := MembersOrEmpty(ms))
    case OtherMsg(_) => v
  }

  /** How the page parses what the server sends: `joinedRoom` has no `members` field. */
  function Parse(m: ServerMsg): (r: Incoming)
    ensures !r.MemberUpdateMsg?
    ensures r.JoinedRoomMsg? ==> r.members == None
    ensures m.Left? <==> r.OtherMsg?
  {
    match m
    case JoinedRoom(_, timer, running, preset) => JoinedRoomMsg(timer, running, preset, None)
    case UpdateTimer(timer, running, preset) => UpdateTimerMsg(timer, running, preset)
    case Left(_) => OtherMsg("leave")
  }

  /** `searchParams.get('room') || 'default_room'`. */
  function RoomIdOf(room: Option<string>): (r: string)
    ensures r != ""
    ensures room.Some? && room.value != "" ==> r == room.value
    ensures room.None? || room.value == "" ==> r == DefaultRoomId
  {
    match room
    case Some(id) => if id != "" then id else DefaultRoomId
    case None => DefaultRoomId
  }

  const JoinPath: string := "/join?room="

  /** The link the share button copies; the room id is not URL-encoded. */
  function ShareLink(origin: string, roomId: string): (r: string)
    ensures |r| == |origin| + |JoinPath| + |roomId|
    ensures r[..|origin|] == origin
    ensures r[|origin|..|origin| + |JoinPath|] == JoinPath
    ensures r[|origin| + |JoinPath|..] == roomId
  {
    origin + JoinPath + roomId
  }

  /** Reading the room back out of a link on `origin`: what follows `origin/join?room=`. */
  function LinkRoom(link: string, origin: string): (r: Option<string>)
    ensures r.Some? ==> link == origin + JoinPath + r.value
  {
    var prefix := origin + JoinPath;
    if |prefix| <= |link| && link[..|prefix|] == prefix then Some(link[|prefix|..]) else None
  }

  /** A shared link leads back to the room it was made for. */
  lemma ShareLinkRoundTrip(origin: string, roomId: string)
    ensures LinkRoom(ShareLink(origin, roomId), origin) == Some(roomId)
    ensures roomId != "" ==> RoomIdOf(LinkRoom(ShareLink(origin, roomId), origin)) == roomId
  {
    var link := ShareLink(origin, roomId);
    assert link[..|origin + JoinPath|] == origin + JoinPath;
  }

  /** The start/pause button: `pauseTimer` while running, `startTimer` otherwise. */
  function StartPauseCommand(roomId: string, isRunning: bool): (c: Command)
    ensures c.StartTimer? || c.PauseTimer?
    ensures c.roomId == roomId
    ensures c.PauseTimer? <==> isRunning
  {
    if isRunning then PauseTimer(roomId) else StartTimer(roomId)
  }

  /** A preset button sends the preset's name, never its duration. */
  function PresetCommand(roomId: string, p: Preset): (c: Command)
    ensures c.SetPreset? && c.roomId == roomId && c.preset == p.name
  {
    SetPreset(roomId, p.name)
  }

  /**
   * The leave button's message: its type `leaveRoom` is none the server
   * handles. The page also sends the room id, which the server never reads,
   * so the command carries only the type.
   */
  function LeaveCommand(roomId: string): (c: Command)
    ensures c.Other? && c.kind == "leaveRoom"
  {
    Other("leaveRoom")
  }

  /** A send guarded by `socket && socket instanceof WebSocket`. */
  function SendIf(connected: bool, c: Command): (r: seq<Command>)
    ensures |r| <= 1
    ensures r != [] <==> connected
    ensures r != [] ==> r[0] == c
  {
    if connected then [c] else []
  }

  // ---- the page against the server ----

  /**
   * When the room a page shows is the room on the server, its start/pause
   * button flips the room's running flag and keeps its timer and preset.
   */
  lemma StartPauseFlipsRoom(s: State, socket: SocketId, roomId: string, v: View)
    requires Inv(s) && roomId in s.rooms && v.isRunning == s.rooms[roomId].isRunning
    ensures var s' := Dispatch(s, socket, StartPauseCommand(roomId, v.isRunning));
      && roomId in s'.rooms
      && s'.rooms[roomId].isRunning == !v.isRunning
      && s'.rooms[roomId].timer == s.rooms[roomId].timer
      && s'.rooms[roomId].preset == s.rooms[roomId].preset
  {
    ServerProperties.ToggleEffect(s, roomId, !v.isRunning);
  }

  /** Every preset button rewinds the room to that preset's duration, stopped. */
  lemma PresetButtonSetsDuration(s: State, socket: SocketId, roomId: string, i: nat)
    requires Inv(s) && roomId in s.rooms && i < |TimerPresets|
    ensures var p := TimerPresets[i];
      var s' := Dispatch(s, socket, PresetCommand(roomId, p));
      && roomId in s'.rooms
      && s'.rooms[roomId].timer == p.duration * 60
      && s'.rooms[roomId].preset == p.name
      && !s'.rooms[roomId].isRunning
  {
    ServerProperties.SetPresetEffect(s, roomId, TimerPresets[i].name);
  }

  /** The button's `leaveRoom` message changes nothing on the server and gets no reply. */
  lemma LeaveButtonIgnored(s: State, socket: SocketId, roomId: string)
    ensures Dispatch(s, socket, LeaveCommand(roomId)) == s
  {
  }

  /**
   * The whole button, the ignored message and then the socket's close, acts
   * on the server exactly as a close: the entry is spliced out of `clients`.
   */
  lemma LeaveButtonActsAsClose(s: State, socket: SocketId, roomId: string)
    requires Inv(s)
    ensures var s' := Close(Dispatch(s, socket, LeaveCommand(roomId)), socket);
      && s' == Close(s, socket)
      && (forall k :: 0 <= k < |s'.clients| ==> s'.clients[k].socket != socket)
      && s'.rooms == s.rooms && s'.sent == s.sent
  {
    LeaveButtonIgnored(s, socket, roomId);
    ServerProperties.CloseEffect(s, socket);
  }

  /** The page that receives the reply to its `join` shows that room, with no members. */
  lemma JoinReplyShowsRoom(s: State, socket: SocketId, roomId: string, v: View)
    requires Inv(s) && FirstIndex(s.clients, socket) >= 0
    ensures var s' := JoinRoom(s, socket, roomId);
      var out := Outbox(s'.sent, socket);
      && roomId in s'.rooms && out != []
      && var r := s'.rooms[roomId];
      Receive(v, Parse(out[|out| - 1])) == View(r.timer, r.isRunning, r.preset, [])
  {
    ServerProperties.JoinEffect(s, socket, roomId);
  }

  /** A page in the room that receives a broadcast shows the room and keeps its members. */
  lemma BroadcastShowsRoom(s: State, roomId: string, socket: SocketId, v: View)
    requires UniqueSockets(s.clients) && roomId in s.rooms && InRoom(s.clients, socket, roomId)
    ensures var out := Outbox(BroadcastTimerUpdate(s, roomId).sent, socket);
      && out != []
      && var r := s.rooms[roomId];
      Receive(v, Parse(out[|out| - 1])) == View(r.timer, r.isRunning, r.preset, v.members)
  {
    ServerProperties.BroadcastReachesRoom(s, roomId);
  }

  /** The view after the handler has applied each message, in the order sent. */
  function ReceiveAll(v: View, msgs: seq<ServerMsg>): View
    decreases |msgs|
  {
    if msgs == [] then v else Receive(ReceiveAll(v, msgs[..|msgs| - 1]), Parse(msgs[|msgs| - 1]))
  }

  /**
   * In every state the server reaches, a page whose socket is in a room and
   * that has applied all it was sent shows that room's timer, running flag
   * and preset.
   */
  lemma PageShowsRoom(s: State, k: nat, v: View)
    requires ServerSync.Good(s) && k < |s.clients| && s.clients[k].roomId != ""
    ensures var c := s.clients[k];
      && c.roomId in s.rooms
      && var w, r := ReceiveAll(v, Outbox(s.sent, c.socket)), s.rooms[c.roomId];
      w.time == r.timer && w.isRunning == r.isRunning && w.activePreset == r.preset
  {
    var c := s.clients[k];
    assert ClientOk(s, c);
    assert ServerSync.LastShows(s.sent, c.socket, s.rooms[c.roomId]);
  }

  /** Hence two pages in the same room that are caught up show the same timer. */
  lemma PagesAgree(events: seq<ServerSync.Event>, a: nat, b: nat, va: View, vb: View)
    requires var s := ServerSync.Run(Initial(), events);
      a < |s.clients| && b < |s.clients| && s.clients[a].roomId == s.clients[b].roomId != ""
    ensures var s := ServerSync.Run(Initial(), events);
      var wa := ReceiveAll(va, Outbox(s.sent, s.clients[a].socket));
      var wb := ReceiveAll(vb, Outbox(s.sent, s.clients[b].socket));
      wa.time == wb.time && wa.isRunning == wb.isRunning && wa.activePreset == wb.activePreset
  {
    var s := ServerSync.Run(Initial(), events);
    ServerSync.ReachableGood(events);
    PageShowsRoom(s, a, va);
    PageShowsRoom(s, b, vb);
  }

  /**
   * The page: its state variables as fields, whether its socket is an open
   * WebSocket, and every message sent on that socket.
   */
  class Page {
    const roomId: string
    var time: int
    var isRunning: bool
    var activePreset: string
    var members: seq<Member>
    var connected: bool
    var sent: seq<Command>

    function Current(): View
      reads this
    {
      View(time, isRunning, activePreset, members)
    }

    /** Mounting with the `room` query parameter, before the socket is open. */
    constructor (roomParam: Option<string>)
      ensures roomId == RoomIdOf(roomParam) && roomId != ""
      ensures Current() == InitialView() && !connected && sent == []
    {
      roomId := RoomIdOf(roomParam);
      time := 25 * 60;
      isRunning := false;
      activePreset := FocusName;
      members := [];
      connected := false;
      sent := [];
    }

    /** The effect that runs once the socket is open: it joins the page's room. */
    method OnSocketOpen()
      modifies this
      ensures connected && sent == old(sent) + [Join(roomId)]
      ensures Current() == old(Current())
    {
      connected := true;
      sent := sent + [Join(roomId)];
    }

    /** The `onmessage` handler. */
    method OnMessage(m: Incoming)
      modifies this
      ensures Current() == Receive(old(Current()), m)
      ensures connected == old(connected) && sent == old(sent)
    {
      match m {
        case UpdateTimerMsg(timer, running, preset) =>
          time := timer;
          isRunning := running;
          activePreset := preset;
        case JoinedRoomMsg(timer, running, preset, ms) =>
          time := timer;
          isRunning := running;
          activePreset := preset;
          members := MembersOrEmpty(ms);
        case MemberUpdateMsg(ms) =>
          members := MembersOrEmpty(ms);
        case OtherMsg(_) =>
      }
    }

    /** `setTimerPreset(preset)`: asks the server to switch; the page waits for its update. */
    method SetTimerPreset(p: Preset)
      modifies this
      ensures sent == old(sent) + SendIf(connected, PresetCommand(roomId, p))
      ensures Current() == old(Current()) && connected == old(connected)
    {
      if connected {
        sent := sent + [PresetCommand(roomId, p)];
      }
    }

    /** `handleStartPause`. */
    method HandleStartPause()
      modifies this
      ensures sent == old(sent) + SendIf(connected, StartPauseCommand(roomId, isRunning))
      ensures Current() == old(Current()) && connected == old(connected)
    {
      if connected {
        if isRunning {
          sent := sent + [PauseTimer(roomId)];
        } else {
          sent := sent + [StartTimer(roomId)];
        }
      }
    }

    /** `handleReset`. */
    method HandleReset()
      modifies this
      ensures sent == old(sent) + SendIf(connected, ResetTimer(roomId))
      ensures Current() == old(Current()) && connected == old(connected)
    {
      if connected {
        sent := sent + [ResetTimer(roomId)];
      }
    }

    /** `handleLeaveRoom`: sends `leaveRoom`, then closes the socket. */
    method HandleLeaveRoom()
      modifies this
      ensures sent == old(sent) + SendIf(old(connected), LeaveCommand(roomId))
      ensures !connected
      ensures Current() == old(Current())
    {
      if connected {
        sent := sent + [LeaveCommand(roomId)];
        connected := false;
      }
    }
  }
}
