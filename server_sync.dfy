/**
 * The agreement the broadcasts maintain: every client that is in a room has
 * most recently been sent that room's current timer, running flag and preset.
 */
module ServerSync {
  import opened ServerState
  import ServerInvariants
  import ServerProperties

  /** A `joinedRoom` or `updateTimer` message that carries the room's three timer fields. */
  ghost predicate Shows(m: ServerMsg, r: Room)
  {
    && (m.JoinedRoom? || m.UpdateTimer?)
    && m.timer == r.timer && m.isRunning == r.isRunning && m.preset == r.preset
  }

  /** The last message sent to `socket` shows `r`. */
  ghost predicate LastShows(log: seq<Delivery>, socket: SocketId, r: Room)
  {
    var out := Outbox(log, socket);
    out != [] && Shows(out[|out| - 1], r)
  }

  /** Every client in a (non-empty) room was last sent that room's state. */
  ghost predicate Synced(s: State)
  {
    forall k :: 0 <= k < |s.clients| && s.clients[k].roomId != "" && s.clients[k].roomId in s.rooms ==>
      LastShows(s.sent, s.clients[k].socket, s.rooms[s.clients[k].roomId])
  }

  /** The server's invariant together with the agreement. */
  ghost predicate Good(s: State)
  {
    Inv(s) && Synced(s)
  }

  lemma InitialGood()
    ensures Good(Initial())
  {
    ServerInvariants.InitialInv();
  }

  /**
   * A handler that edits one room and then broadcasts it keeps the room's
   * clients in step: each socket in the room gets the new state once, and
   * no other client's outbox changes.
   */
  lemma FanoutKeepsSynced(s: State, s': State, roomId: string, r': Room)
    requires UniqueSockets(s.clients) && Synced(s) && roomId in s.rooms
    requires s'.clients == s.clients && s'.rooms == s.rooms[roomId := r']
    requires s'.sent == s.sent + Fanout(s.clients, roomId, Snapshot(r'))
    ensures Synced(s')
    ensures forall so :: Outbox(s'.sent, so) == Outbox(s.sent, so) + if InRoom(s.clients, so, roomId) then [Snapshot(r')] else []
  {
    var m := Snapshot(r');
    forall so ensures Outbox(s'.sent, so) == Outbox(s.sent, so) + if InRoom(s.clients, so, roomId) then [m] else [] {
      ServerProperties.OutboxConcat(s.sent, Fanout(s.clients, roomId, m), so);
      ServerProperties.FanoutOutbox(s.clients, roomId, m, so);
    }
    forall k | 0 <= k < |s'.clients| && s'.clients[k].roomId != "" && s'.clients[k].roomId in s'.rooms
      ensures LastShows(s'.sent, s'.clients[k].socket, s'.rooms[s'.clients[k].roomId])
    {
      var c := s.clients[k];
      ServerProperties.OutboxConcat(s.sent, Fanout(s.clients, roomId, m), c.socket);
      ServerProperties.FanoutOutbox(s.clients, roomId, m, c.socket);
      if c.roomId == roomId {
        assert InRoom(s.clients, c.socket, roomId);
      } else {
        assert !InRoom(s.clients, c.socket, roomId) by {
          forall j | 0 <= j < |s.clients| && s.clients[j].socket == c.socket ensures s.clients[j].roomId != roomId {
            assert j == k;
          }
        }
      }
    }
  }

  lemma ToggleGood(s: State, roomId: string, shouldRun: bool)
    requires Good(s)
    ensures Good(ToggleRoomTimer(s, roomId, shouldRun))
  {
    if roomId in s.rooms {
      ServerProperties.ToggleEffect(s, roomId, shouldRun);
      var s' := ToggleRoomTimer(s, roomId, shouldRun);
      FanoutKeepsSynced(s, s', roomId, s'.rooms[roomId]);
    }
  }

  lemma SetPresetGood(s: State, roomId: string, preset: string)
    requires Good(s)
    ensures Good(SetTimerPreset(s, roomId, preset))
  {
    if roomId in s.rooms {
      ServerProperties.SetPresetEffect(s, roomId, preset);
      var s' := SetTimerPreset(s, roomId, preset);
      FanoutKeepsSynced(s, s', roomId, s'.rooms[roomId]);
    }
  }

  lemma ResetGood(s: State, roomId: string)
    requires Good(s)
    ensures Good(ResetRoomTimer(s, roomId))
  {
    if roomId in s.rooms {
      ServerProperties.ResetEffect(s, roomId);
      var s' := ResetRoomTimer(s, roomId);
      FanoutKeepsSynced(s, s', roomId, s'.rooms[roomId]);
    }
  }

  lemma TickGood(s: State, t: IntervalId)
    requires Good(s) && t in s.intervals
    ensures s.intervals[t] in s.rooms
    ensures Good(Tick(s, t))
  {
    ServerProperties.TickEffect(s, t);
    var roomId := s.intervals[t];
    var s' := Tick(s, t);
    FanoutKeepsSynced(s, s', roomId, s'.rooms[roomId]);
  }

  lemma JoinGood(s: State, socket: SocketId, roomId: string)
    requires Good(s)
    ensures Good(JoinRoom(s, socket, roomId))
  {
    ServerProperties.JoinEffect(s, socket, roomId);
    var s' := JoinRoom(s, socket, roomId);
    var i := FirstIndex(s.clients, socket);
    if i >= 0 {
      forall k | 0 <= k < |s'.clients| && s'.clients[k].roomId != "" && s'.clients[k].roomId in s'.rooms
        ensures LastShows(s'.sent, s'.clients[k].socket, s'.rooms[s'.clients[k].roomId])
      {
        if k != i {
          var c := s.clients[k];
          assert s'.clients[k] == c && c.socket != socket;
          assert ClientOk(s, c);
          assert s'.rooms[c.roomId] == s.rooms[c.roomId];
        }
      }
    }
  }

  lemma LeaveGood(s: State, socket: SocketId, roomId: string)
    requires Good(s)
    ensures Good(LeaveRoom(s, socket, roomId))
  {
    ServerProperties.LeaveEffect(s, socket, roomId);
    var s' := LeaveRoom(s, socket, roomId);
    var i := FirstIndex(s.clients, socket);
    forall k | 0 <= k < |s'.clients| && s'.clients[k].roomId != "" && s'.clients[k].roomId in s'.rooms
      ensures LastShows(s'.sent, s'.clients[k].socket, s'.rooms[s'.clients[k].roomId])
    {
      if k != i {
        var c := s.clients[k];
        assert s'.clients[k] == c;
        assert c.socket != socket;
      }
    }
  }

  lemma DispatchGood(s: State, socket: SocketId, cmd: Command)
    requires Good(s)
    ensures Good(Dispatch(s, socket, cmd))
  {
    match cmd {
      case Join(roomId) => JoinGood(s, socket, roomId);
      case Leave(roomId) => LeaveGood(s, socket, roomId);
      case StartTimer(roomId) => ToggleGood(s, roomId, true);
      case PauseTimer(roomId) => ToggleGood(s, roomId, false);
      case ResetTimer(roomId) => ResetGood(s, roomId);
      case SetPreset(roomId, preset) => SetPresetGood(s, roomId, preset);
      case Other(_) =>
    }
  }

  lemma ConnectGood(s: State)
    requires Good(s)
    ensures Good(Connect(s))
  {
    ServerProperties.ConnectEffect(s);
    var s' := Connect(s);
    forall k | 0 <= k < |s'.clients| && s'.clients[k].roomId != "" && s'.clients[k].roomId in s'.rooms
      ensures LastShows(s'.sent, s'.clients[k].socket, s'.rooms[s'.clients[k].roomId])
    {
      assert s'.clients[k] == s.clients[k];
    }
  }

  lemma CloseGood(s: State, socket: SocketId)
    requires Good(s)
    ensures Good(Close(s, socket))
  {
    ServerProperties.CloseEffect(s, socket);
    var s' := Close(s, socket);
    var i := FirstIndex(s.clients, socket);
    if i >= 0 {
      forall k | 0 <= k < |s'.clients| && s'.clients[k].roomId != "" && s'.clients[k].roomId in s'.rooms
        ensures LastShows(s'.sent, s'.clients[k].socket, s'.rooms[s'.clients[k].roomId])
      {
        if k < i {
          assert s'.clients[k] == s.clients[k];
        } else {
          assert s'.clients[k] == s.clients[k + 1];
        }
      }
    }
  }

  // ---- every reachable state ----

  /** What can happen to the server: a connection, a message, an interval firing, a close. */
  datatype Event =
    | Connected
    | Message(socket: SocketId, cmd: Command)
    | Fired(t: IntervalId)
    | Closed(socket: SocketId)

  /**
   * The server after each event in turn. The runtime fires only live
   * intervals, so a firing of a cleared handle is no event at all.
   */
  function Step(s: State, e: Event): State
  {
    match e
    case Connected => Connect(s)
    case Message(socket, cmd) => Dispatch(s, socket, cmd)
    case Fired(t) => if t in s.intervals && s.intervals[t] in s.rooms then Tick(s, t) else s
    case Closed(socket) => Close(s, socket)
  }

  function Run(s: State, events: seq<Event>): State
    decreases |events|
  {
    if events == [] then s else Run(Step(s, events[0]), events[1..])
  }

  lemma StepGood(s: State, e: Event)
    requires Good(s)
    ensures Good(Step(s, e))
  {
    match e {
      case Connected => ConnectGood(s);
      case Message(socket, cmd) => DispatchGood(s, socket, cmd);
      case Fired(t) => if t in s.intervals { TickGood(s, t); }
      case Closed(socket) => CloseGood(s, socket);
    }
  }

  /** Every state the server reaches from start-up keeps the invariant and the agreement. */
  lemma {:induction false} RunGood(s: State, events: seq<Event>)
    requires Good(s)
    ensures Good(Run(s, events))
    decreases |events|
  {
    if events != [] {
      StepGood(s, events[0]);
      RunGood(Step(s, events[0]), events[1..]);
    }
  }

  lemma ReachableGood(events: seq<Event>)
    ensures Good(Run(Initial(), events))
  {
    InitialGood();
    RunGood(Initial(), events);
  }
}
