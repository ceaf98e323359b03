/** Every handler of the server keeps `ServerState.Inv`. */
module ServerInvariants {
  import opened Options
  import opened ServerState

  /**
   * At start-up there are no clients, no live intervals and nothing sent, and
   * the only room is `default_room`: 1500 s, stopped, Focus, no handle.
   */
  lemma InitialInv()
    ensures var s := Initial();
      && s.clients == [] && s.intervals == map[] && s.sent == []
      && s.rooms.Keys == {"default_room"}
      && var r := s.rooms["default_room"];
      && r.timer == 1500 && !r.isRunning && r.timerInterval == None && r.preset == "Focus"
    ensures Inv(Initial())
  {
  }

  lemma BroadcastInv(s: State, roomId: string)
    requires Inv(s)
    ensures Inv(BroadcastTimerUpdate(s, roomId))
  {
  }

  /** Clearing a room's interval leaves it with no handle and no live driver. */
  lemma ClearInv(s: State, roomId: string)
    requires Inv(s) && roomId in s.rooms
    ensures var c := ClearRoomInterval(s, roomId);
      && Inv(c)
      && c.rooms == s.rooms[roomId := s.rooms[roomId].(timerInterval := None)]
      && c.clients == s.clients && c.nextInterval == s.nextInterval && c.nextSocket == s.nextSocket && c.sent == s.sent
      && DriversOf(c, roomId) == {}
  {
    var c := ClearRoomInterval(s, roomId);
    forall t | t in c.intervals ensures IntervalOk(c, t) && c.intervals[t] != roomId {
      assert IntervalOk(s, t);
    }
  }

  /** Replacing a room that has no handle by another record without one keeps the invariant. */
  lemma SetIdleRoomInv(s: State, roomId: string, room: Room)
    requires Inv(s) && roomId in s.rooms && s.rooms[roomId].timerInterval == None
    requires room.id == roomId && room.timer >= 0 && room.timerInterval == None
    ensures Inv(s.(rooms := s.rooms[roomId := room]))
  {
    var s' := s.(rooms := s.rooms[roomId := room]);
    forall t | t in s'.intervals ensures IntervalOk(s', t) {
      assert IntervalOk(s, t);
    }
  }

  /** Setting the flag of a room with no driver, and installing its interval, keeps the invariant. */
  lemma SetRunningInv(c: State, roomId: string, shouldRun: bool)
    requires Inv(c) && roomId in c.rooms && DriversOf(c, roomId) == {} && c.rooms[roomId].timerInterval == None
    ensures Inv(SetRunning(c, roomId, shouldRun))
  {
    var room := c.rooms[roomId].(isRunning := shouldRun);
    var t := c.nextInterval;
    if shouldRun && room.timer > 0 {
      var i := SetRunning(c, roomId, shouldRun);
      forall u | u in c.intervals ensures u < t && c.intervals[u] != roomId {
        assert IntervalOk(c, u);
        assert u !in DriversOf(c, roomId);
      }
      forall u | u in i.intervals ensures IntervalOk(i, u) {
        if u != t { assert IntervalOk(c, u); }
      }
      forall id | id in i.rooms ensures RoomOk(i, id) {
        if id != roomId { assert RoomOk(c, id); }
      }
    } else {
      SetIdleRoomInv(c, roomId, room);
    }
  }

  lemma ToggleInv(s: State, roomId: string, shouldRun: bool)
    requires Inv(s)
    ensures Inv(ToggleRoomTimer(s, roomId, shouldRun))
  {
    if roomId in s.rooms {
      ClearInv(s, roomId);
      var c := ClearRoomInterval(s, roomId);
      SetRunningInv(c, roomId, shouldRun);
      BroadcastInv(SetRunning(c, roomId, shouldRun), roomId);
    }
  }

  lemma TickInv(s: State, t: IntervalId)
    requires Inv(s) && t in s.intervals
    ensures s.intervals[t] in s.rooms
    ensures Inv(Tick(s, t))
  {
    assert IntervalOk(s, t);
    var roomId := s.intervals[t];
    assert RoomOk(s, roomId);
    var room := s.rooms[roomId].(timer := s.rooms[roomId].timer - 1);
    var d := s.(rooms := s.rooms[roomId := room]);
    if room.timer <= 0 {
      var c := ClearRoomInterval(d, roomId);
      var f := c.(rooms := c.rooms[roomId := c.rooms[roomId].(isRunning := false)]);
      assert f.intervals == s.intervals - {t};
      assert f.rooms == s.rooms[roomId := room.(timerInterval := None, isRunning := false)];
      forall u | u in f.intervals ensures IntervalOk(f, u) {
        assert IntervalOk(s, u);
      }
      forall id | id in f.rooms ensures RoomOk(f, id) {
        assert RoomOk(s, id);
      }
      BroadcastInv(f, roomId);
    } else {
      forall u | u in d.intervals ensures IntervalOk(d, u) {
        assert IntervalOk(s, u);
      }
      forall id | id in d.rooms ensures RoomOk(d, id) {
        assert RoomOk(s, id);
      }
      BroadcastInv(d, roomId);
    }
  }

  lemma SetPresetInv(s: State, roomId: string, preset: string)
    requires Inv(s)
    ensures Inv(SetTimerPreset(s, roomId, preset))
  {
    if roomId in s.rooms {
      var c := ClearRoomInterval(s, roomId);
      ClearInv(s, roomId);
      var room := c.rooms[roomId];
      assert RoomOk(c, roomId);
      var room' := room.(isRunning := false, preset := preset, timer := SwitchedTimer(preset, room.timer));
      SetIdleRoomInv(c, roomId, room');
      BroadcastInv(c.(rooms := c.rooms[roomId := room']), roomId);
    }
  }

  lemma ResetInv(s: State, roomId: string)
    requires Inv(s)
    ensures Inv(ResetRoomTimer(s, roomId))
  {
    if roomId in s.rooms {
      var c := ClearRoomInterval(s, roomId);
      ClearInv(s, roomId);
      var room := c.rooms[roomId];
      assert RoomOk(c, roomId);
      var room' := room.(timer := SwitchedTimer(room.preset, room.timer), isRunning := false);
      SetIdleRoomInv(c, roomId, room');
      BroadcastInv(c.(rooms := c.rooms[roomId := room']), roomId);
    }
  }

  lemma JoinInv(s: State, socket: SocketId, roomId: string)
    requires Inv(s)
    ensures Inv(JoinRoom(s, socket, roomId))
  {
    var i := FirstIndex(s.clients, socket);
    if i >= 0 {
      var s' := JoinRoom(s, socket, roomId);
      forall t | t in s.intervals ensures roomId !in s.rooms ==> s.intervals[t] != roomId {
        assert IntervalOk(s, t);
      }
      forall t | t in s'.intervals ensures IntervalOk(s', t) {
        assert IntervalOk(s, t);
      }
      forall id | id in s'.rooms ensures RoomOk(s', id) {
        if id in s.rooms { assert RoomOk(s, id); }
      }
      forall k | 0 <= k < |s'.clients| ensures ClientOk(s', s'.clients[k]) {
        assert ClientOk(s, s.clients[k]);
      }
    }
  }

  lemma LeaveInv(s: State, socket: SocketId, roomId: string)
    requires Inv(s)
    ensures Inv(LeaveRoom(s, socket, roomId))
  {
    var s' := LeaveRoom(s, socket, roomId);
    forall k | 0 <= k < |s'.clients| ensures ClientOk(s', s'.clients[k]) {
      assert ClientOk(s, s.clients[k]);
    }
  }

  lemma DispatchInv(s: State, socket: SocketId, cmd: Command)
    requires Inv(s)
    ensures Inv(Dispatch(s, socket, cmd))
  {
    match cmd
    case Join(roomId) => JoinInv(s, socket, roomId);
    case Leave(roomId) => LeaveInv(s, socket, roomId);
    case StartTimer(roomId) => ToggleInv(s, roomId, true);
    case PauseTimer(roomId) => ToggleInv(s, roomId, false);
    case ResetTimer(roomId) => ResetInv(s, roomId);
    case SetPreset(roomId, preset) => SetPresetInv(s, roomId, preset);
    case Other(_) =>
  }

  lemma ConnectInv(s: State)
    requires Inv(s)
    ensures Inv(Connect(s))
  {
    var s' := Connect(s);
    forall k | 0 <= k < |s'.clients| ensures ClientOk(s', s'.clients[k]) {
      if k < |s.clients| { assert ClientOk(s, s.clients[k]); }
    }
  }

  lemma CloseInv(s: State, socket: SocketId)
    requires Inv(s)
    ensures Inv(Close(s, socket))
  {
    var i := FirstIndex(s.clients, socket);
    if i >= 0 {
      var s' := Close(s, socket);
      forall k | 0 <= k < |s'.clients| ensures ClientOk(s', s'.clients[k]) && (k < i ==> s'.clients[k] == s.clients[k]) && (k >= i ==> s'.clients[k] == s.clients[k + 1]) {
        if k < i { assert ClientOk(s, s.clients[k]); } else { assert ClientOk(s, s.clients[k + 1]); }
      }
    }
  }
}
