/** What the server's handlers do, stated over ServerState. */
module ServerProperties {
  import opened Options
  import opened ServerState
  import ServerInvariants

  // ---- outboxes ----

  lemma {:induction false} OutboxConcat(a: seq<Delivery>, b: seq<Delivery>, socket: SocketId)
    ensures Outbox(a + b, socket) == Outbox(a, socket) + Outbox(b, socket)
    decreases |b|
  {
    if b != [] {
      var b' := b[..|b| - 1];
      assert (a + b)[..|a + b| - 1] == a + b';
      OutboxConcat(a, b', socket);
    } else {
      assert a + b == a;
    }
  }

  lemma OutboxSingle(d: Delivery, socket: SocketId)
    ensures Outbox([d], socket) == if d.to == socket then [d.msg] else []
  {
    assert [d][..0] == [];
  }

  /**
   * With one entry per socket, a fan-out puts exactly one copy of the message
   * in the outbox of each socket in the room and nothing in any other.
   */
  lemma {:induction false} FanoutOutbox(cs: seq<Client>, roomId: string, m: ServerMsg, socket: SocketId)
    requires UniqueSockets(cs)
    ensures Outbox(Fanout(cs, roomId, m), socket) == if InRoom(cs, socket, roomId) then [m] else []
    decreases |cs|
  {
    if cs != [] {
      var p, last := cs[..|cs| - 1], cs[|cs| - 1];
      var tail := if last.roomId == roomId then [Delivery(last.socket, m)] else [];
      assert Fanout(cs, roomId, m) == Fanout(p, roomId, m) + tail;
      OutboxConcat(Fanout(p, roomId, m), tail, socket);
      assert Outbox(tail, socket) == if last.roomId == roomId && last.socket == socket then [m] else [] by {
        if tail != [] { OutboxSingle(tail[0], socket); }
      }
      assert UniqueSockets(p) by {
        forall i, j | 0 <= i < j < |p| ensures p[i].socket != p[j].socket {
          assert p[i] == cs[i] && p[j] == cs[j];
        }
      }
      FanoutOutbox(p, roomId, m, socket);
      InRoomSnoc(cs, socket, roomId);
    }
  }

  /** Membership of the last entry, and of the ones before it, decides `InRoom`; never both. */
  lemma InRoomSnoc(cs: seq<Client>, socket: SocketId, roomId: string)
    requires UniqueSockets(cs) && cs != []
    ensures var p, last := cs[..|cs| - 1], cs[|cs| - 1];
      && (InRoom(cs, socket, roomId) <==> InRoom(p, socket, roomId) || (last.socket == socket && last.roomId == roomId))
      && !(InRoom(p, socket, roomId) && last.socket == socket)
  {
    var p, last := cs[..|cs| - 1], cs[|cs| - 1];
    if InRoom(p, socket, roomId) {
      var k :| 0 <= k < |p| && p[k].socket == socket && p[k].roomId == roomId;
      assert cs[k] == p[k];
    }
    if InRoom(cs, socket, roomId) {
      var k :| 0 <= k < |cs| && cs[k].socket == socket && cs[k].roomId == roomId;
      if k < |p| {
        assert p[k] == cs[k];
      }
    }
  }

  /**
   * `broadcastTimerUpdate` sends one `updateTimer` with the room's current
   * timer, running flag and preset to every client in the room and to no one
   * else; for an unknown room it sends nothing.
   */
  lemma BroadcastReachesRoom(s: State, roomId: string)
    requires UniqueSockets(s.clients)
    ensures var s' := BroadcastTimerUpdate(s, roomId);
      && s'.clients == s.clients && s'.rooms == s.rooms && s'.intervals == s.intervals
      && forall socket :: Outbox(s'.sent, socket) ==
           if roomId in s.rooms && InRoom(s.clients, socket, roomId)
           then Outbox(s.sent, socket) + [UpdateTimer(s.rooms[roomId].timer, s.rooms[roomId].isRunning, s.rooms[roomId].preset)]
           else Outbox(s.sent, socket)
  {
    if roomId in s.rooms {
      var m := Snapshot(s.rooms[roomId]);
      forall socket ensures Outbox(s.sent + Fanout(s.clients, roomId, m), socket)
                            == Outbox(s.sent, socket) + (if InRoom(s.clients, socket, roomId) then [m] else []) {
        OutboxConcat(s.sent, Fanout(s.clients, roomId, m), socket);
        FanoutOutbox(s.clients, roomId, m, socket);
      }
    }
  }

  // ---- drivers ----

  /**
   * The live intervals of a room are exactly its stored handle: at most one
   * driver per room, and a driver only while the room runs with time left.
   */
  lemma SingleDriver(s: State, roomId: string)
    requires Inv(s)
    ensures |DriversOf(s, roomId)| <= 1
    ensures roomId in s.rooms ==>
      DriversOf(s, roomId) == if s.rooms[roomId].timerInterval.Some? then {s.rooms[roomId].timerInterval.value} else {}
    ensures DriversOf(s, roomId) != {} ==>
      roomId in s.rooms && s.rooms[roomId].isRunning && s.rooms[roomId].timer > 0
  {
    forall t | t in DriversOf(s, roomId) ensures roomId in s.rooms && s.rooms[roomId].timerInterval == Some(t) {
      assert IntervalOk(s, t);
    }
    if roomId in s.rooms {
      var r := s.rooms[roomId];
      assert RoomOk(s, roomId);
      if r.timerInterval.Some? {
        assert DriversOf(s, roomId) == {r.timerInterval.value};
      } else {
        assert DriversOf(s, roomId) == {};
      }
    } else {
      assert DriversOf(s, roomId) == {};
    }
  }

  /** A handler that edits only one room leaves every other room's drivers alone. */
  lemma OtherDriversKept(s: State, s': State, roomId: string)
    requires forall t :: t in s'.intervals && s'.intervals[t] != roomId ==> t in s.intervals && s.intervals[t] == s'.intervals[t]
    requires forall t :: t in s.intervals && s.intervals[t] != roomId ==> t in s'.intervals && s'.intervals[t] == s.intervals[t]
    ensures forall k :: k != roomId ==> DriversOf(s', k) == DriversOf(s, k)
  {
  }

  /** The interval table with a room's stored handle, if any, removed. */
  function WithoutHandle(intervals: map<IntervalId, string>, room: Room): map<IntervalId, string>
  {
    if room.timerInterval.Some? then intervals - {room.timerInterval.value} else intervals
  }

  /** The shape of `toggleRoomTimer`'s result, field by field. */
  lemma ToggleShape(s: State, roomId: string, shouldRun: bool)
    requires roomId in s.rooms
    ensures var s' := ToggleRoomTimer(s, roomId, shouldRun);
      var r := s.rooms[roomId];
      var install := shouldRun && r.timer > 0;
      var n := s.nextInterval;
      && s'.rooms == s.rooms[roomId := r.(isRunning := shouldRun, timerInterval := if install then Some(n) else None)]
      && s'.intervals == (if install then WithoutHandle(s.intervals, r)[n := roomId] else WithoutHandle(s.intervals, r))
      && s'.nextInterval == (if install then n + 1 else n)
      && s'.clients == s.clients
      && s'.sent == s.sent + Fanout(s.clients, roomId, Snapshot(s'.rooms[roomId]))
  {
    var r := s.rooms[roomId];
    var c := ClearRoomInterval(s, roomId);
    assert c.rooms == s.rooms[roomId := r.(timerInterval := None)];
    assert c.intervals == WithoutHandle(s.intervals, r);
    assert c.clients == s.clients && c.sent == s.sent && c.nextInterval == s.nextInterval;
    SetRunningShape(c, roomId, shouldRun);
    var d := SetRunning(c, roomId, shouldRun);
    assert ToggleRoomTimer(s, roomId, shouldRun) == BroadcastTimerUpdate(d, roomId);
  }

  /** The shape of setting the flag, and maybe installing an interval, in a room. */
  lemma SetRunningShape(c: State, roomId: string, shouldRun: bool)
    requires roomId in c.rooms
    ensures var d := SetRunning(c, roomId, shouldRun);
      var r := c.rooms[roomId];
      var install := shouldRun && r.timer > 0;
      var n := c.nextInterval;
      && d.rooms == c.rooms[roomId := r.(isRunning := shouldRun, timerInterval := if install then Some(n) else r.timerInterval)]
      && d.intervals == (if install then c.intervals[n := roomId] else c.intervals)
      && d.nextInterval == (if install then n + 1 else n)
      && d.clients == c.clients && d.sent == c.sent
  {
  }

  /**
   * `toggleRoomTimer`: the old interval is cleared before any new one is
   * installed; the running flag becomes `shouldRun` unconditionally; a new
   * driver exists only if `shouldRun` and time is left; timer and preset do
   * not move; other rooms and their drivers are untouched; the timer update
   * goes to the room.
   */
  lemma ToggleEffect(s: State, roomId: string, shouldRun: bool)
    requires Inv(s) && roomId in s.rooms
    ensures var s' := ToggleRoomTimer(s, roomId, shouldRun);
      var r, r' := s.rooms[roomId], s'.rooms[roomId];
      && Inv(s')
      && s'.rooms == s.rooms[roomId := r']
      && r'.timer == r.timer && r'.preset == r.preset && r'.isRunning == shouldRun
      && DriversOf(s', roomId) == (if shouldRun && r.timer > 0 then {s.nextInterval} else {})
      && (r.timerInterval.Some? ==> r.timerInterval.value !in s'.intervals)
      && (forall k :: k != roomId ==> DriversOf(s', k) == DriversOf(s, k))
      && s'.clients == s.clients
      && s'.sent == s.sent + Fanout(s.clients, roomId, Snapshot(r'))
  {
    ToggleShape(s, roomId, shouldRun);
    ServerInvariants.ToggleInv(s, roomId, shouldRun);
    ToggledDrivers(s, ToggleRoomTimer(s, roomId, shouldRun), roomId, shouldRun);
  }

  /** The drivers of any state with the shape `ToggleShape` gives. */
  lemma ToggledDrivers(s: State, s': State, roomId: string, shouldRun: bool)
    requires Inv(s) && Inv(s') && roomId in s.rooms
    requires var r := s.rooms[roomId];
      var install := shouldRun && r.timer > 0;
      var n := s.nextInterval;
      && s'.rooms == s.rooms[roomId := r.(isRunning := shouldRun, timerInterval := if install then Some(n) else None)]
      && s'.intervals == (if install then WithoutHandle(s.intervals, r)[n := roomId] else WithoutHandle(s.intervals, r))
    ensures var r := s.rooms[roomId];
      && DriversOf(s', roomId) == (if shouldRun && r.timer > 0 then {s.nextInterval} else {})
      && (r.timerInterval.Some? ==> r.timerInterval.value !in s'.intervals)
      && (forall k :: k != roomId ==> DriversOf(s', k) == DriversOf(s, k))
  {
    SingleDriver(s', roomId);
    assert RoomOk(s, roomId);
    forall t | t in s.intervals ensures t < s.nextInterval && (s.intervals[t] != roomId ==> s.rooms[roomId].timerInterval != Some(t)) {
      assert IntervalOk(s, t);
    }
    OtherDriversKept(s, s', roomId);
  }

  /** Starting a room whose timer is 0 marks it running although no driver exists. */
  lemma StartAtZeroHasNoDriver(s: State, roomId: string)
    requires Inv(s) && roomId in s.rooms && s.rooms[roomId].timer == 0
    ensures var s' := ToggleRoomTimer(s, roomId, true);
      s'.rooms[roomId].isRunning && s'.rooms[roomId].timer == 0 && DriversOf(s', roomId) == {}
  {
    ToggleEffect(s, roomId, true);
  }

  /** Two starts in a row leave exactly one driver, the second; the first is gone. */
  lemma StartTwiceSingleDriver(s: State, roomId: string)
    requires Inv(s) && roomId in s.rooms && s.rooms[roomId].timer > 0
    ensures var s2 := ToggleRoomTimer(ToggleRoomTimer(s, roomId, true), roomId, true);
      && DriversOf(s2, roomId) == {s.nextInterval + 1}
      && s.nextInterval !in s2.intervals
      && s2.rooms[roomId].isRunning && s2.rooms[roomId].timer == s.rooms[roomId].timer
  {
    var s1 := ToggleRoomTimer(s, roomId, true);
    ToggleEffect(s, roomId, true);
    ToggleEffect(s1, roomId, true);
    assert s1.nextInterval == s.nextInterval + 1;
  }

  /** Pausing and starting again loses no time and cancels the driver in between. */
  lemma PauseResumeKeepsTimer(s: State, roomId: string)
    requires Inv(s) && roomId in s.rooms
    ensures var p := ToggleRoomTimer(s, roomId, false);
      var q := ToggleRoomTimer(p, roomId, true);
      && !p.rooms[roomId].isRunning && DriversOf(p, roomId) == {}
      && p.rooms[roomId].timer == s.rooms[roomId].timer
      && q.rooms[roomId].timer == s.rooms[roomId].timer
      && q.rooms[roomId].preset == s.rooms[roomId].preset
  {
    ToggleEffect(s, roomId, false);
    ToggleEffect(ToggleRoomTimer(s, roomId, false), roomId, true);
  }

  /**
   * One firing of a live interval: its room was running with time left; the
   * timer drops by exactly one and never below zero; at zero the room stops
   * and its driver is gone, otherwise the same driver carries on.
   */
  lemma TickEffect(s: State, t: IntervalId)
    requires Inv(s) && t in s.intervals
    ensures var roomId := s.intervals[t];
      && roomId in s.rooms
      && var s' := Tick(s, t);
      var r, r' := s.rooms[roomId], s'.rooms[roomId];
      && Inv(s')
      && r.isRunning && r.timer > 0
      && s'.rooms == s.rooms[roomId := r']
      && r'.timer == r.timer - 1 && r'.timer >= 0 && r'.preset == r.preset
      && (r'.timer == 0 ==> !r'.isRunning && DriversOf(s', roomId) == {})
      && (r'.timer > 0 ==> r'.isRunning && DriversOf(s', roomId) == {t})
      && (forall k :: k != roomId ==> DriversOf(s', k) == DriversOf(s, k))
      && s'.clients == s.clients
      && s'.sent == s.sent + Fanout(s.clients, roomId, Snapshot(r'))
  {
    assert IntervalOk(s, t);
    var roomId := s.intervals[t];
    assert RoomOk(s, roomId);
    var s' := Tick(s, t);
    ServerInvariants.TickInv(s, t);
    SingleDriver(s', roomId);
    forall u | u in s.intervals && s.intervals[u] != roomId ensures u != t {
    }
    OtherDriversKept(s, s', roomId);
  }

  /**
   * `setTimerPreset`: stopped, no driver, the new preset stored, and the
   * timer rewound to 1500, 300 or 900 seconds for the three preset names; a
   * name the switch does not know leaves the timer where it was.
   */
  lemma SetPresetEffect(s: State, roomId: string, preset: string)
    requires Inv(s) && roomId in s.rooms
    ensures var s' := SetTimerPreset(s, roomId, preset);
      var r, r' := s.rooms[roomId], s'.rooms[roomId];
      && Inv(s')
      && s'.rooms == s.rooms[roomId := r']
      && !r'.isRunning && DriversOf(s', roomId) == {} && r'.preset == preset
      && r'.timer == (if preset == "Focus" then 1500 else if preset == "Short Break" then 300
                      else if preset == "Long Break" then 900 else r.timer)
      && (forall k :: k != roomId ==> DriversOf(s', k) == DriversOf(s, k))
      && s'.clients == s.clients
      && s'.sent == s.sent + Fanout(s.clients, roomId, Snapshot(r'))
  {
    SetPresetShape(s, roomId, preset);
    ServerInvariants.SetPresetInv(s, roomId, preset);
    var r := s.rooms[roomId];
    StoppedDrivers(s, SetTimerPreset(s, roomId, preset), roomId,
      r.(timerInterval := None, isRunning := false, preset := preset, timer := SwitchedTimer(preset, r.timer)));
  }

  lemma SetPresetShape(s: State, roomId: string, preset: string)
    requires roomId in s.rooms
    ensures var s' := SetTimerPreset(s, roomId, preset);
      var r := s.rooms[roomId];
      && s'.rooms == s.rooms[roomId := r.(timerInterval := None, isRunning := false, preset := preset, timer := SwitchedTimer(preset, r.timer))]
      && s'.intervals == WithoutHandle(s.intervals, r)
      && s'.clients == s.clients
      && s'.sent == s.sent + Fanout(s.clients, roomId, Snapshot(s'.rooms[roomId]))
  {
    var r := s.rooms[roomId];
    var c := ClearRoomInterval(s, roomId);
    assert c.rooms == s.rooms[roomId := r.(timerInterval := None)];
    assert c.intervals == WithoutHandle(s.intervals, r);
  }

  /** The drivers of a state in which one room was stopped and its handle cleared. */
  lemma StoppedDrivers(s: State, s': State, roomId: string, r': Room)
    requires Inv(s) && Inv(s') && roomId in s.rooms && r'.timerInterval == None
    requires s'.rooms == s.rooms[roomId := r'] && s'.intervals == WithoutHandle(s.intervals, s.rooms[roomId])
    ensures DriversOf(s', roomId) == {}
    ensures forall k :: k != roomId ==> DriversOf(s', k) == DriversOf(s, k)
  {
    var r := s.rooms[roomId];
    SingleDriver(s', roomId);
    assert RoomOk(s, roomId);
    forall t | t in s.intervals && s.intervals[t] != roomId ensures r.timerInterval != Some(t) {
      assert IntervalOk(s, t);
    }
    OtherDriversKept(s, s', roomId);
  }

  lemma ResetShape(s: State, roomId: string)
    requires roomId in s.rooms
    ensures var s' := ResetRoomTimer(s, roomId);
      var r := s.rooms[roomId];
      && s'.rooms == s.rooms[roomId := r.(timerInterval := None, isRunning := false, timer := SwitchedTimer(r.preset, r.timer))]
      && s'.intervals == WithoutHandle(s.intervals, r)
      && s'.clients == s.clients
      && s'.sent == s.sent + Fanout(s.clients, roomId, Snapshot(s'.rooms[roomId]))
  {
    var r := s.rooms[roomId];
    var c := ClearRoomInterval(s, roomId);
    assert c.rooms == s.rooms[roomId := r.(timerInterval := None)];
    assert c.intervals == WithoutHandle(s.intervals, r);
  }

  /** The `resetTimer` case: like a preset switch to the room's own preset. */
  lemma ResetEffect(s: State, roomId: string)
    requires Inv(s) && roomId in s.rooms
    ensures var s' := ResetRoomTimer(s, roomId);
      var r, r' := s.rooms[roomId], s'.rooms[roomId];
      && Inv(s')
      && s'.rooms == s.rooms[roomId := r']
      && !r'.isRunning && DriversOf(s', roomId) == {} && r'.preset == r.preset
      && r'.timer == (if r.preset == "Focus" then 1500 else if r.preset == "Short Break" then 300
                      else if r.preset == "Long Break" then 900 else r.timer)
      && (forall k :: k != roomId ==> DriversOf(s', k) == DriversOf(s, k))
      && s'.clients == s.clients
      && s'.sent == s.sent + Fanout(s.clients, roomId, Snapshot(r'))
  {
    var r := s.rooms[roomId];
    ResetShape(s, roomId);
    ServerInvariants.ResetInv(s, roomId);
    StoppedDrivers(s, ResetRoomTimer(s, roomId), roomId,
      r.(timerInterval := None, isRunning := false, timer := SwitchedTimer(r.preset, r.timer)));
  }

  /** Timer commands and broadcasts naming a room that does not exist change nothing and send nothing. */
  lemma UnknownRoomIgnored(s: State, socket: SocketId, cmd: Command)
    requires cmd.StartTimer? || cmd.PauseTimer? || cmd.ResetTimer? || cmd.SetPreset?
    requires cmd.roomId !in s.rooms
    ensures Dispatch(s, socket, cmd) == s
    ensures BroadcastTimerUpdate(s, cmd.roomId) == s
  {
  }

  // ---- membership ----

  /**
   * `join` from a socket with a client entry moves only that entry into the
   * room, creates the room with 1500 s, stopped, Focus and no driver if it
   * is new (an existing room is untouched), and replies to the sender alone
   * with the room's timer, running flag and preset. From a socket with no
   * entry it does nothing.
   */
  lemma JoinEffect(s: State, socket: SocketId, roomId: string)
    requires Inv(s)
    ensures var s' := JoinRoom(s, socket, roomId);
      var i := FirstIndex(s.clients, socket);
      && Inv(s')
      && (i < 0 ==> s' == s)
      && (i >= 0 ==>
          && roomId in s'.rooms
          && var r := s'.rooms[roomId];
          && (roomId in s.rooms ==> s'.rooms == s.rooms)
          && (roomId !in s.rooms ==>
                && s'.rooms == s.rooms[roomId := r]
                && r.timer == 1500 && !r.isRunning && r.timerInterval == None && r.preset == "Focus"
                && DriversOf(s', roomId) == {})
          && |s'.clients| == |s.clients|
          && s'.clients[i] == s.clients[i].(roomId := roomId)
          && (forall k :: 0 <= k < |s.clients| && k != i ==> s'.clients[k] == s.clients[k])
          && s'.intervals == s.intervals
          && Outbox(s'.sent, socket) == Outbox(s.sent, socket) + [JoinedRoom(roomId, r.timer, r.isRunning, r.preset)]
          && (forall other :: other != socket ==> Outbox(s'.sent, other) == Outbox(s.sent, other)))
  {
    ServerInvariants.JoinInv(s, socket, roomId);
    var s' := JoinRoom(s, socket, roomId);
    var i := FirstIndex(s.clients, socket);
    if i >= 0 {
      var d := s'.sent[|s'.sent| - 1];
      forall other ensures Outbox(s'.sent, other) == Outbox(s.sent, other) + (if d.to == other then [d.msg] else []) {
        OutboxConcat(s.sent, [d], other);
        OutboxSingle(d, other);
      }
      forall t | t in s.intervals ensures s.intervals[t] in s.rooms {
        assert IntervalOk(s, t);
      }
    }
  }

  /**
   * `leave` empties the room of the sender's entry only, and always replies
   * to the sender with the room id it named, even without an entry.
   */
  lemma LeaveEffect(s: State, socket: SocketId, roomId: string)
    requires Inv(s)
    ensures var s' := LeaveRoom(s, socket, roomId);
      var i := FirstIndex(s.clients, socket);
      && Inv(s')
      && s'.rooms == s.rooms && s'.intervals == s.intervals
      && |s'.clients| == |s.clients|
      && (i >= 0 ==> s'.clients[i] == s.clients[i].(roomId := ""))
      && (forall k :: 0 <= k < |s.clients| && k != i ==> s'.clients[k] == s.clients[k])
      && Outbox(s'.sent, socket) == Outbox(s.sent, socket) + [Left(roomId)]
      && (forall other :: other != socket ==> Outbox(s'.sent, other) == Outbox(s.sent, other))
  {
    ServerInvariants.LeaveInv(s, socket, roomId);
    var s' := LeaveRoom(s, socket, roomId);
    var d := s'.sent[|s'.sent| - 1];
    forall other ensures Outbox(s'.sent, other) == Outbox(s.sent, other) + (if d.to == other then [d.msg] else []) {
      OutboxConcat(s.sent, [d], other);
      OutboxSingle(d, other);
    }
  }

  /** A new connection is an entry with no user, no room and no admin flag, on a fresh socket. */
  lemma ConnectEffect(s: State)
    requires Inv(s)
    ensures var s' := Connect(s);
      && Inv(s')
      && s'.clients == s.clients + [Client(s.nextSocket, "", "", false)]
      && (forall k :: 0 <= k < |s.clients| ==> s.clients[k].socket != s.nextSocket)
      && s'.rooms == s.rooms && s'.intervals == s.intervals && s'.sent == s.sent
  {
    ServerInvariants.ConnectInv(s);
    forall k | 0 <= k < |s.clients| ensures s.clients[k].socket < s.nextSocket {
      assert ClientOk(s, s.clients[k]);
    }
  }

  /**
   * `close` removes the first entry on the socket and nothing else: no
   * entry on that socket remains, every other entry keeps its order, and
   * rooms and intervals run on.
   */
  lemma CloseEffect(s: State, socket: SocketId)
    requires Inv(s)
    ensures var s' := Close(s, socket);
      var i := FirstIndex(s.clients, socket);
      && Inv(s')
      && (i >= 0 ==> s'.clients == s.clients[..i] + s.clients[i + 1..])
      && (i < 0 ==> s'.clients == s.clients)
      && (forall k :: 0 <= k < |s'.clients| ==> s'.clients[k].socket != socket)
      && s'.rooms == s.rooms && s'.intervals == s.intervals && s'.sent == s.sent
  {
    ServerInvariants.CloseInv(s, socket);
    RemovedSocketGone(s.clients, socket);
  }

  lemma RemovedSocketGone(cs: seq<Client>, socket: SocketId)
    requires UniqueSockets(cs)
    ensures var i := FirstIndex(cs, socket);
      var rest := if i >= 0 then cs[..i] + cs[i + 1..] else cs;
      forall k :: 0 <= k < |rest| ==> rest[k].socket != socket
  {
    var i := FirstIndex(cs, socket);
    if i >= 0 {
      var rest := cs[..i] + cs[i + 1..];
      forall k | 0 <= k < |rest| ensures rest[k].socket != socket {
        if k < i { assert rest[k] == cs[k]; }
        else { assert rest[k] == cs[k + 1]; }
      }
    }
  }

  /** No handler ever deletes a room. */
  lemma RoomsNeverDeleted(s: State, socket: SocketId, cmd: Command)
    requires Inv(s)
    ensures s.rooms.Keys <= Dispatch(s, socket, cmd).rooms.Keys
    ensures s.rooms.Keys <= Close(s, socket).rooms.Keys
    ensures forall t :: t in s.intervals ==> s.rooms.Keys <= Tick(s, t).rooms.Keys
  {
    forall t | t in s.intervals ensures s.intervals[t] in s.rooms {
      assert IntervalOk(s, t);
    }
  }

  // ---- a session ----

  /** `n` consecutive firings of interval `t` while time is left. */
  ghost function Ticks(s: State, t: IntervalId, n: nat): (r: State)
    requires Inv(s) && t in s.intervals && s.rooms[s.intervals[t]].timer > n
    ensures Inv(r) && t in r.intervals && r.intervals[t] == s.intervals[t]
    ensures var id := s.intervals[t];
      && id in r.rooms
      && r.rooms[id].timer == s.rooms[id].timer - n
      && r.rooms[id].isRunning && r.rooms[id].preset == s.rooms[id].preset
      && r.clients == s.clients && r.nextInterval == s.nextInterval
    decreases n
  {
    if n == 0 then s
    else
      TickEffect(s, t);
      var s1 := Tick(s, t);
      SingleDriver(s1, s.intervals[t]);
      assert t in DriversOf(s1, s.intervals[t]);
      Ticks(s1, t, n - 1)
  }

  /** The session's first two steps: a connection, then its join of `abc`. */
  lemma FreshJoin()
    ensures var s1 := Dispatch(Connect(Initial()), 0, Join("abc"));
      && Inv(s1)
      && "abc" in s1.rooms && s1.rooms["abc"] == NewRoom("abc")
      && s1.nextInterval == 0
      && Outbox(s1.sent, 0) == [JoinedRoom("abc", 1500, false, "Focus")]
  {
    ServerInvariants.InitialInv();
    var s0 := Connect(Initial());
    ConnectEffect(Initial());
    assert FirstIndex(s0.clients, 0) == 0;
    JoinEffect(s0, 0, "abc");
    assert Outbox(s0.sent, 0) == [];
  }

  /** Starting a just-created room installs interval 0 for it. */
  lemma StartFresh(s1: State, roomId: string)
    requires Inv(s1) && roomId in s1.rooms && s1.rooms[roomId] == NewRoom(roomId) && s1.nextInterval == 0
    ensures var s2 := Dispatch(s1, 0, StartTimer(roomId));
      && Inv(s2) && 0 in s2.intervals && s2.intervals[0] == roomId
      && s2.rooms[roomId].timer == 1500 && s2.rooms[roomId].isRunning
  {
    ToggleEffect(s1, roomId, true);
    assert 0 in DriversOf(Dispatch(s1, 0, StartTimer(roomId)), roomId);
  }

  /** Ten firings of a Focus room's interval, from 1500 s. */
  lemma TenTicks(s2: State, roomId: string)
    requires Inv(s2) && 0 in s2.intervals && s2.intervals[0] == roomId && s2.rooms[roomId].timer == 1500
    ensures var s3 := Ticks(s2, 0, 10);
      Inv(s3) && roomId in s3.rooms && s3.rooms[roomId].timer == 1490 && s3.rooms[roomId].isRunning
  {
  }

  lemma PauseStep(s3: State, roomId: string)
    requires Inv(s3) && roomId in s3.rooms
    ensures var s4 := Dispatch(s3, 0, PauseTimer(roomId));
      Inv(s4) && roomId in s4.rooms && s4.rooms[roomId].timer == s3.rooms[roomId].timer && !s4.rooms[roomId].isRunning
  {
    ToggleEffect(s3, roomId, false);
  }

  lemma ShortBreakStep(s4: State, roomId: string)
    requires Inv(s4) && roomId in s4.rooms
    ensures var s5 := Dispatch(s4, 0, SetPreset(roomId, "Short Break"));
      roomId in s5.rooms && s5.rooms[roomId].timer == 300 && !s5.rooms[roomId].isRunning && s5.rooms[roomId].preset == "Short Break"
  {
    SetPresetEffect(s4, roomId, "Short Break");
  }

  /**
   * A fresh room `abc`: the first join replies 1500 s, stopped, Focus; after
   * a start and ten firings the room shows 1490 s and running; a pause keeps
   * 1490 s and stops it; choosing Short Break gives 300 s, stopped.
   */
  lemma FreshRoomSession()
    ensures var s1 := Dispatch(Connect(Initial()), 0, Join("abc"));
      var s2 := Dispatch(s1, 0, StartTimer("abc"));
      && Outbox(s1.sent, 0) == [JoinedRoom("abc", 1500, false, "Focus")]
      && Inv(s2) && 0 in s2.intervals && s2.intervals[0] == "abc" && "abc" in s2.rooms && s2.rooms["abc"].timer == 1500
      && var s3 := Ticks(s2, 0, 10);
      var s4 := Dispatch(s3, 0, PauseTimer("abc"));
      var s5 := Dispatch(s4, 0, SetPreset("abc", "Short Break"));
      && "abc" in s3.rooms && s3.rooms["abc"].timer == 1490 && s3.rooms["abc"].isRunning
      && "abc" in s4.rooms && s4.rooms["abc"].timer == 1490 && !s4.rooms["abc"].isRunning
      && "abc" in s5.rooms && s5.rooms["abc"].timer == 300 && !s5.rooms["abc"].isRunning && s5.rooms["abc"].preset == "Short Break"
  {
    FreshJoin();
    var s1 := Dispatch(Connect(Initial()), 0, Join("abc"));
    StartFresh(s1, "abc");
    var s2 := Dispatch(s1, 0, StartTimer("abc"));
    TenTicks(s2, "abc");
    var s3 := Ticks(s2, 0, 10);
    PauseStep(s3, "abc");
    ShortBreakStep(Dispatch(s3, 0, PauseTimer("abc")), "abc");
  }
}
