/**
 * The collaborative timer server as a state machine over values: the
 * `clients` list, the `rooms` map, the runtime's table of live intervals and
 * the log of messages sent on the sockets. Each function is one handler of
 * the server; the class in module TimerServer runs them in place.
 */
module ServerState {
  import opened Options

  /** A socket, identified by the order in which connections were accepted. */
  type SocketId = nat
  /** The handle `setInterval` returns. */
  type IntervalId = nat

  const DefaultRoomId: string := "default_room"
  const FocusSeconds: int := 25 * 60

  /** A room record; `timerInterval` is the handle of its countdown, if any. */
  datatype Room = Room(id: string, timer: int, isRunning: bool, timerInterval: Option<IntervalId>, preset: string)

  /** An entry of the `clients` list. */
  datatype Client = Client(socket: SocketId, userId: string, roomId: string, isAdmin: bool)

  /** A decoded client message, by its `type` field; any other type is `Other`. */
  datatype Command =
    | Join(roomId: string)
    | Leave(roomId: string)
    | StartTimer(roomId: string)
    | PauseTimer(roomId: string)
    | ResetTimer(roomId: string)
    | SetPreset(roomId: string, preset: string)
    | Other(kind: string)

  /** The messages the server sends. */
  datatype ServerMsg =
    | JoinedRoom(roomId: string, timer: int, isRunning: bool, preset: string)
    | UpdateTimer(timer: int, isRunning: bool, preset: string)
    | Left(roomId: string)

  /** One `send` on one socket. */
  datatype Delivery = Delivery(to: SocketId, msg: ServerMsg)

  /**
   * The whole server: connected clients in connection order, the room map,
   * the live intervals (handle to the id of the room whose callback it runs),
   * the next fresh interval handle and socket id, and every message sent so far.
   */
  datatype State = State(
    clients: seq<Client>,
    rooms: map<string, Room>,
    intervals: map<IntervalId, string>,
    nextInterval: IntervalId,
    nextSocket: SocketId,
    sent: seq<Delivery>)

  /** The record a room starts with. */
  function NewRoom(id: string): Room
  {
    Room(id, FocusSeconds, false, None, "Focus")
  }

  /** The server at start-up: no clients and only `default_room`. */
  function Initial(): State
  {
    State([], map[DefaultRoomId := NewRoom(DefaultRoomId)], map[], 0, 0, [])
  }

  /** The `switch` on a preset name, which has no default branch. */
  function PresetSeconds(preset: string): Option<int>
  {
    if preset == "Focus" then Some(25 * 60)
    else if preset == "Short Break" then Some(5 * 60)
    else if preset == "Long Break" then Some(15 * 60)
    else None
  }

  /** The timer after the preset switch: unchanged when no case matches. */
  function SwitchedTimer(preset: string, timer: int): int
  {
    match PresetSeconds(preset)
    case Some(d) => d
    case None => timer
  }

  /** Index of the first client entry on `socket`, or -1 (`find`/`findIndex`). */
  function FirstIndex(cs: seq<Client>, socket: SocketId): (r: int)
    ensures -1 <= r < |cs|
    ensures r >= 0 ==> cs[r].socket == socket && forall j :: 0 <= j < r ==> cs[j].socket != socket
    ensures r == -1 ==> forall j :: 0 <= j < |cs| ==> cs[j].socket != socket
  {
    if cs == [] then -1
    else if cs[0].socket == socket then 0
    else
      var k := FirstIndex(cs[1..], socket);
      if k == -1 then -1 else k + 1
  }

  /** The `updateTimer` message for a room. */
  function Snapshot(room: Room): ServerMsg
  {
    UpdateTimer(room.timer, room.isRunning, room.preset)
  }

  /** One delivery of `m` to each client in `roomId`, walking the list in order. */
  function Fanout(cs: seq<Client>, roomId: string, m: ServerMsg): seq<Delivery>
  {
    if cs == [] then []
    else
      var last := cs[|cs| - 1];
      Fanout(cs[..|cs| - 1], roomId, m) + (if last.roomId == roomId then [Delivery(last.socket, m)] else [])
  }

  /** The messages a log holds for one socket, in the order sent. */
  function Outbox(log: seq<Delivery>, socket: SocketId): seq<ServerMsg>
  {
    if log == [] then []
    else
      var last := log[|log| - 1];
      Outbox(log[..|log| - 1], socket) + (if last.to == socket then [last.msg] else [])
  }

  /** `broadcastTimerUpdate`. */
  function BroadcastTimerUpdate(s: State, roomId: string): State
  {
    if roomId !in s.rooms then s
    else s.(sent := s.sent + Fanout(s.clients, roomId, Snapshot(s.rooms[roomId])))
  }

  /** `if (room.timerInterval) { clearInterval(...); room.timerInterval = undefined }`. */
  function ClearRoomInterval(s: State, roomId: string): (r: State)
    requires roomId in s.rooms
    ensures roomId in r.rooms
  {
    var room := s.rooms[roomId];
    match room.timerInterval
    case None => s
    case Some(t) => s.(rooms := s.rooms[roomId := room.(timerInterval := None)], intervals := s.intervals - {t})
  }

  /** `toggleRoomTimer(roomId, shouldRun)`. */
  function ToggleRoomTimer(s: State, roomId: string, shouldRun: bool): State
  {
    if roomId !in s.rooms then s
    else BroadcastTimerUpdate(SetRunning(ClearRoomInterval(s, roomId), roomId, shouldRun), roomId)
  }

  /** `room.isRunning = shouldRun`, then `setInterval` when it should count down. */
  function SetRunning(c: State, roomId: string, shouldRun: bool): State
    requires roomId in c.rooms
  {
    var room := c.rooms[roomId].(isRunning := shouldRun);
    var t := c.nextInterval;
    if shouldRun && room.timer > 0 then
      c.(rooms := c.rooms[roomId := room.(timerInterval := Some(t))],
         intervals := c.intervals[t := roomId],
         nextInterval := t + 1)
    else c.(rooms := c.rooms[roomId := room])
  }

  /** One firing of the interval callback `t`. */
  function Tick(s: State, t: IntervalId): State
    requires t in s.intervals && s.intervals[t] in s.rooms
  {
    var roomId := s.intervals[t];
    var room := s.rooms[roomId].(timer := s.rooms[roomId].timer - 1);
    var d := s.(rooms := s.rooms[roomId := room]);
    var stopped :=
      if room.timer <= 0 then
        var c := ClearRoomInterval(d, roomId);
        c.(rooms := c.rooms[roomId := c.rooms[roomId].(isRunning := false)])
      else d;
    BroadcastTimerUpdate(stopped, roomId)
  }

  /** `setTimerPreset(roomId, preset)`. */
  function SetTimerPreset(s: State, roomId: string, preset: string): State
  {
    if roomId !in s.rooms then s
    else
      var c := ClearRoomInterval(s, roomId);
      var room := c.rooms[roomId];
      var room' := room.(isRunning := false, preset := preset, timer := SwitchedTimer(preset, room.timer));
      BroadcastTimerUpdate(c.(rooms := c.rooms[roomId := room']), roomId)
  }

  /** The `resetTimer` case of the message switch. */
  function ResetRoomTimer(s: State, roomId: string): State
  {
    if roomId !in s.rooms then s
    else
      var c := ClearRoomInterval(s, roomId);
      var room := c.rooms[roomId];
      var room' := room.(timer := SwitchedTimer(room.preset, room.timer), isRunning := false);
      BroadcastTimerUpdate(c.(rooms := c.rooms[roomId := room']), roomId)
  }

  /** The `join` case of the message switch. */
  function JoinRoom(s: State, socket: SocketId, roomId: string): State
  {
    var i := FirstIndex(s.clients, socket);
    if i < 0 then s
    else
      var rooms := if roomId in s.rooms then s.rooms else s.rooms[roomId := NewRoom(roomId)];
      var room := rooms[roomId];
      s.(clients := s.clients[i := s.clients[i].(roomId := roomId)],
         rooms := rooms,
         sent := s.sent + [Delivery(socket, JoinedRoom(roomId, room.timer, room.isRunning, room.preset))])
  }

  /** The `leave` case of the message switch. */
  function LeaveRoom(s: State, socket: SocketId, roomId: string): State
  {
    var i := FirstIndex(s.clients, socket);
    var s' := if i < 0 then s else s.(clients := s.clients[i := s.clients[i].(roomId := "")]);
    s'.(sent := s'.sent + [Delivery(socket, Left(roomId))])
  }

  /** The message handler: `switch (data.type)`. */
  function Dispatch(s: State, socket: SocketId, cmd: Command): State
  {
    match cmd
    case Join(roomId) => JoinRoom(s, socket, roomId)
    case Leave(roomId) => LeaveRoom(s, socket, roomId)
    case StartTimer(roomId) => ToggleRoomTimer(s, roomId, true)
    case PauseTimer(roomId) => ToggleRoomTimer(s, roomId, false)
    case ResetTimer(roomId) => ResetRoomTimer(s, roomId)
    case SetPreset(roomId, preset) => SetTimerPreset(s, roomId, preset)
    case Other(_) => s
  }

  /** The connection handler: a new entry with empty user, room and no admin flag. */
  function Connect(s: State): State
  {
    s.(clients := s.clients + [Client(s.nextSocket, "", "", false)], nextSocket := s.nextSocket + 1)
  }

  /** The close handler: splice out the first entry on the socket. */
  function Close(s: State, socket: SocketId): State
  {
    var i := FirstIndex(s.clients, socket);
    if i < 0 then s else s.(clients := s.clients[..i] + s.clients[i + 1..])
  }

  // ---- the invariant the handlers keep ----

  /** A room record is keyed by its id, never negative, and has a handle only while it counts down. */
  ghost predicate RoomOk(s: State, id: string)
    requires id in s.rooms
  {
    var room := s.rooms[id];
    && room.id == id
    && room.timer >= 0
    && (room.timerInterval.Some? ==>
          && room.isRunning && room.timer > 0
          && room.timerInterval.value in s.intervals
          && s.intervals[room.timerInterval.value] == id)
  }

  /** A live interval was issued earlier and is the handle stored in its room. */
  ghost predicate IntervalOk(s: State, t: IntervalId)
    requires t in s.intervals
  {
    && t < s.nextInterval
    && s.intervals[t] in s.rooms
    && s.rooms[s.intervals[t]].timerInterval == Some(t)
  }

  /** A client entry: an issued socket, no identity, no admin flag, in no room or a known one. */
  ghost predicate ClientOk(s: State, c: Client)
  {
    && c.socket < s.nextSocket
    && c.userId == "" && !c.isAdmin
    && (c.roomId == "" || c.roomId in s.rooms)
  }

  ghost predicate UniqueSockets(cs: seq<Client>)
  {
    forall i, j :: 0 <= i < j < |cs| ==> cs[i].socket != cs[j].socket
  }

  ghost predicate Inv(s: State)
  {
    && DefaultRoomId in s.rooms
    && (forall id :: id in s.rooms ==> RoomOk(s, id))
    && (forall t :: t in s.intervals ==> IntervalOk(s, t))
    && (forall i :: 0 <= i < |s.clients| ==> ClientOk(s, s.clients[i]))
    && UniqueSockets(s.clients)
  }

  /** The live intervals whose callback runs for `roomId`. */
  ghost function DriversOf(s: State, roomId: string): set<IntervalId>
  {
    set t | t in s.intervals && s.intervals[t] == roomId
  }

  /** The socket has a client entry whose room is `roomId`. */
  ghost predicate InRoom(cs: seq<Client>, socket: SocketId, roomId: string)
  {
    exists k :: 0 <= k < |cs| && cs[k].socket == socket && cs[k].roomId == roomId
  }
}
