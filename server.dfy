/**
 * The WebSocket server's handlers run in place on the server's registries.
 * Each handler is proved to leave the registries exactly as the matching
 * function of ServerState says, and to keep `ServerState.Inv` together with
 * the agreement of `ServerSync`: every client in a room was last sent that
 * room's current state.
 */
module TimerServer {
  import opened Options
  import opened ServerState
  import ServerSync

  class Server {
    var clients: seq<Client>
    var rooms: map<string, Room>
    /** The runtime's live `setInterval` handles, each with the room its callback serves. */
    var intervals: map<IntervalId, string>
    var nextInterval: IntervalId
    var nextSocket: SocketId
    /** Every `send` performed so far, in order. */
    var sent: seq<Delivery>

    function Current(): State
      reads this
    {
      State(clients, rooms, intervals, nextInterval, nextSocket, sent)
    }

    ghost predicate Valid()
      reads this
    {
      ServerSync.Good(Current())
    }

    /** Start-up: empty client list and the `default_room` record. */
    constructor ()
      ensures Current() == Initial() && Valid()
    {
      clients := [];
      rooms := map[DefaultRoomId := NewRoom(DefaultRoomId)];
      intervals := map[];
      nextInterval, nextSocket := 0, 0;
      sent := [];
      ServerSync.InitialGood();
    }

    /** `broadcastTimerUpdate`: the `clients.forEach` loop. */
    method BroadcastTimerUpdate(roomId: string)
      modifies this
      ensures Current() == ServerState.BroadcastTimerUpdate(old(Current()), roomId)
    {
      if roomId !in rooms {
        return;
      }
      var room := rooms[roomId];
      var msg := UpdateTimer(room.timer, room.isRunning, room.preset);
      var i := 0;
      while i < |clients|
        invariant 0 <= i <= |clients|
        invariant sent == old(sent) + Fanout(clients[..i], roomId, msg)
        invariant unchanged(this`clients) && unchanged(this`rooms) && unchanged(this`intervals)
        invariant unchanged(this`nextInterval) && unchanged(this`nextSocket)
      {
        assert clients[..i + 1][..i] == clients[..i];
        if clients[i].roomId == roomId {
          sent := sent + [Delivery(clients[i].socket, msg)];
        }
        i := i + 1;
      }
      assert clients[..i] == clients;
    }

    /** Clears the room's interval, if it has one. */
    method ClearRoomInterval(roomId: string)
      requires roomId in rooms
      modifies this
      ensures Current() == ServerState.ClearRoomInterval(old(Current()), roomId)
    {
      var room := rooms[roomId];
      if room.timerInterval.Some? {
        intervals := intervals - {room.timerInterval.value};
        rooms := rooms[roomId := room.(timerInterval := None)];
      }
    }

    /** `toggleRoomTimer(roomId, shouldRun)`. */
    method ToggleRoomTimer(roomId: string, shouldRun: bool)
      modifies this
      ensures Current() == ServerState.ToggleRoomTimer(old(Current()), roomId, shouldRun)
    {
      if roomId !in rooms {
        return;
      }
      ClearRoomInterval(roomId);
      rooms := rooms[roomId := rooms[roomId].(isRunning := shouldRun)];
      if shouldRun && rooms[roomId].timer > 0 {
        var t := nextInterval;
        nextInterval := nextInterval + 1;
        intervals := intervals[t := roomId];
        rooms := rooms[roomId := rooms[roomId].(timerInterval := Some(t))];
      }
      BroadcastTimerUpdate(roomId);
    }

    /** `setTimerPreset(roomId, preset)`. */
    method SetTimerPreset(roomId: string, preset: string)
      modifies this
      ensures Current() == ServerState.SetTimerPreset(old(Current()), roomId, preset)
    {
      if roomId !in rooms {
        return;
      }
      ClearRoomInterval(roomId);
      var room := rooms[roomId];
      room := room.(isRunning := false, preset := preset);
      match PresetSeconds(preset) {
        case Some(d) => room := room.(timer := d);
        case None =>
      }
      rooms := rooms[roomId := room];
      BroadcastTimerUpdate(roomId);
    }

    /** The connection handler; the new socket's id is returned. */
    method OnConnection() returns (socket: SocketId)
      requires Valid()
      modifies this
      ensures Valid()
      ensures socket == old(nextSocket)
      ensures Current() == ServerState.Connect(old(Current()))
    {
      ghost var s0 := Current();
      socket := nextSocket;
      nextSocket := nextSocket + 1;
      clients := clients + [Client(socket, "", "", false)];
      ServerSync.ConnectGood(s0);
    }

    /** The `join` case: only a socket with a client entry joins; the room is made on first use. */
    method HandleJoin(socket: SocketId, roomId: string)
      modifies this
      ensures Current() == JoinRoom(old(Current()), socket, roomId)
    {
      var i := FirstIndex(clients, socket);
      if i >= 0 {
        clients := clients[i := clients[i].(roomId := roomId)];
        if roomId !in rooms {
          rooms := rooms[roomId := NewRoom(roomId)];
        }
        var room := rooms[roomId];
        sent := sent + [Delivery(socket, JoinedRoom(roomId, room.timer, room.isRunning, room.preset))];
      }
    }

    /** The `leave` case: the reply is sent whether or not a client entry was found. */
    method HandleLeave(socket: SocketId, roomId: string)
      modifies this
      ensures Current() == LeaveRoom(old(Current()), socket, roomId)
    {
      var i := FirstIndex(clients, socket);
      if i >= 0 {
        clients := clients[i := clients[i].(roomId := "")];
      }
      sent := sent + [Delivery(socket, Left(roomId))];
    }

    /** The `resetTimer` case. */
    method HandleReset(roomId: string)
      modifies this
      ensures Current() == ResetRoomTimer(old(Current()), roomId)
    {
      if roomId in rooms {
        ClearRoomInterval(roomId);
        var room := rooms[roomId];
        match PresetSeconds(room.preset) {
          case Some(d) => room := room.(timer := d);
          case None =>
        }
        room := room.(isRunning := false);
        rooms := rooms[roomId := room];
        BroadcastTimerUpdate(roomId);
      }
    }

    /** The message handler of one socket: `switch (data.type)`. */
    method OnMessage(socket: SocketId, cmd: Command)
      requires Valid()
      modifies this
      ensures Valid()
      ensures Current() == Dispatch(old(Current()), socket, cmd)
    {
      ghost var s0 := Current();
      match cmd {
        case Join(roomId) => HandleJoin(socket, roomId);
        case Leave(roomId) => HandleLeave(socket, roomId);
        case StartTimer(roomId) => ToggleRoomTimer(roomId, true);
        case PauseTimer(roomId) => ToggleRoomTimer(roomId, false);
        case ResetTimer(roomId) => HandleReset(roomId);
        case SetPreset(roomId, preset) => SetTimerPreset(roomId, preset);
        case Other(_) =>
      }
      ServerSync.DispatchGood(s0, socket, cmd);
    }

    /** One run of the callback of the live interval `t`. */
    method OnInterval(t: IntervalId)
      requires Valid() && t in intervals
      modifies this
      ensures old(intervals[t]) in old(rooms)
      ensures Valid()
      ensures Current() == Tick(old(Current()), t)
    {
      ghost var s0 := Current();
      ServerSync.TickGood(s0, t);
      var roomId := intervals[t];
      rooms := rooms[roomId := rooms[roomId].(timer := rooms[roomId].timer - 1)];
      if rooms[roomId].timer <= 0 {
        ClearRoomInterval(roomId);
        rooms := rooms[roomId := rooms[roomId].(isRunning := false)];
      }
      BroadcastTimerUpdate(roomId);
    }

    /** The close handler. */
    method OnClose(socket: SocketId)
      requires Valid()
      modifies this
      ensures Valid()
      ensures Current() == ServerState.Close(old(Current()), socket)
    {
      ghost var s0 := Current();
      var index := FirstIndex(clients, socket);
      if index != -1 {
        clients := clients[..index] + clients[index + 1..];
      }
      ServerSync.CloseGood(s0, socket);
    }
  }
}
