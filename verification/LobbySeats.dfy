/** The seat ledger: what a room's current_players counts, in every interleaving. */
module LobbySeats {
  import opened Basics
  import opened LobbyState
  import opened Lobby

  function Joiners(players: Players, r: Rid): set<Pid> {
    set p | p in players && players[p].joinedRoom == Some(r)
  }

  function Holders(handlers: map<Pid, Handler>, r: Rid): set<Pid> {
    set p | p in handlers && Holds(handlers[p].pc, r)
  }

  function Owing(handlers: map<Pid, Handler>, r: Rid): set<Pid> {
    set p | p in handlers && Owes(handlers[p].pc, r)
  }

  function One(b: bool): nat { if b then 1 else 0 }

  function CleanerOwes(c: Cleaner, r: Rid): nat {
    One(c.Clearing? && c.joined == Some(r))
  }

  /** Seats of room r besides the host's: joiners shown in the player map, reservations
      in flight, departures not yet subtracted, and seats lost for good. */
  function Seats(s: Server, r: Rid): nat {
    |Joiners(s.players, r)| + |Holders(s.handlers, r)| + |Owing(s.handlers, r)| + CleanerOwes(s.cleaner, r) + Lost(s, r)
  }

  ghost predicate Ledger(s: Server) {
    forall r :: r in s.rooms ==>
      && s.rooms[r].currentPlayers == 1 + Seats(s, r)
      && s.rooms[r].currentPlayers <= s.rooms[r].maxPlayers <= 12
  }

  /** Room ids are only ever known after the room was created. */
  predicate KnownPc(pc: Pc, used: set<Rid>) {
    match pc
    case CreateCheckCap(_, _, max) => 2 <= max <= 12
    case CreateInsert(_, _, max) => 2 <= max <= 12
    case JoinReadPlayers(r, _, _) => r in used
    case JoinReserve(r) => r in used
    case JoinUpnp(r) => r in used
    case JoinBind(r) => r in used
    case JoinCommit(r) => r in used
    case JoinRelease(r) => r in used
    case LeaveClear(_, joined) => joined.Some? ==> joined.value in used
    case _ => true
  }

  ghost predicate Known(s: Server) {
    && (forall p :: p in s.players && s.players[p].joinedRoom.Some? ==> s.players[p].joinedRoom.value in s.usedRooms)
    && (forall p :: p in s.handlers ==> KnownPc(s.handlers[p].pc, s.usedRooms))
    && (s.cleaner.Clearing? && s.cleaner.joined.Some? ==> s.cleaner.joined.value in s.usedRooms)
    && s.rooms.Keys <= s.usedRooms && s.lost.Keys <= s.usedRooms
  }

  // ------------------------------------------------------------ counting

  /** What player p and its handler contribute to room r. */
  function PlayerClaim(players: Players, p: Pid, r: Rid): nat {
    One(p in players && players[p].joinedRoom == Some(r))
  }

  function HandlerClaim(pc: Pc, r: Rid): nat {
    One(Holds(pc, r)) + One(Owes(pc, r))
  }

  lemma JoinersSplit(a: Players, p: Pid, r: Rid)
    ensures |Joiners(a, r)| == |Joiners(a - {p}, r)| + PlayerClaim(a, p, r)
  {
    if PlayerClaim(a, p, r) == 1 {
      assert Joiners(a, r) == Joiners(a - {p}, r) + {p};
    } else {
      assert Joiners(a, r) == Joiners(a - {p}, r);
    }
  }

  lemma HoldersSplit(a: map<Pid, Handler>, p: Pid, r: Rid)
    requires p in a
    ensures |Holders(a, r)| == |Holders(a - {p}, r)| + One(Holds(a[p].pc, r))
  {
    if Holds(a[p].pc, r) {
      assert Holders(a, r) == Holders(a - {p}, r) + {p};
    } else {
      assert Holders(a, r) == Holders(a - {p}, r);
    }
  }

  lemma OwingSplit(a: map<Pid, Handler>, p: Pid, r: Rid)
    requires p in a
    ensures |Owing(a, r)| == |Owing(a - {p}, r)| + One(Owes(a[p].pc, r))
  {
    if Owes(a[p].pc, r) {
      assert Owing(a, r) == Owing(a - {p}, r) + {p};
    } else {
      assert Owing(a, r) == Owing(a - {p}, r);
    }
  }

  lemma JoinersChange(a: Players, b: Players, p: Pid, r: Rid)
    requires a - {p} == b - {p}
    ensures |Joiners(b, r)| + PlayerClaim(a, p, r) == |Joiners(a, r)| + PlayerClaim(b, p, r)
  {
    JoinersSplit(a, p, r);
    JoinersSplit(b, p, r);
  }

  lemma HandlersChange(a: map<Pid, Handler>, p: Pid, h: Handler, r: Rid)
    requires p in a
    ensures |Holders(a[p := h], r)| + |Owing(a[p := h], r)| + HandlerClaim(a[p].pc, r) ==
            |Holders(a, r)| + |Owing(a, r)| + HandlerClaim(h.pc, r)
  {
    var b := a[p := h];
    assert b - {p} == a - {p};
    HoldersSplit(a, p, r);
    HoldersSplit(b, p, r);
    OwingSplit(a, p, r);
    OwingSplit(b, p, r);
  }

  /** A step of one handler moves seats only between that handler's accounts. */
  lemma SeatsChange(s: Server, s': Server, p: Pid, r: Rid)
    requires p in s.handlers && p in s'.handlers && s'.handlers == s.handlers[p := s'.handlers[p]]
    requires s.players - {p} == s'.players - {p} && s'.cleaner == s.cleaner
    ensures Seats(s', r) + PlayerClaim(s.players, p, r) + HandlerClaim(s.handlers[p].pc, r) + Lost(s, r) ==
            Seats(s, r) + PlayerClaim(s'.players, p, r) + HandlerClaim(s'.handlers[p].pc, r) + Lost(s', r)
  {
    JoinersChange(s.players, s'.players, p, r);
    HandlersChange(s.handlers, p, s'.handlers[p], r);
  }

  /** An id nobody knows has no seats. */
  lemma FreshRoom(s: Server, r: Rid)
    requires Known(s) && r !in s.usedRooms
    ensures Seats(s, r) == 0
  {
    assert Joiners(s.players, r) == {};
    assert Holders(s.handlers, r) == {} by {
      forall p | p in s.handlers ensures !Holds(s.handlers[p].pc, r) && !Owes(s.handlers[p].pc, r) {
        assert KnownPc(s.handlers[p].pc, s.usedRooms);
      }
    }
    assert Owing(s.handlers, r) == {} by {
      forall p | p in s.handlers ensures !Owes(s.handlers[p].pc, r) {
        assert KnownPc(s.handlers[p].pc, s.usedRooms);
      }
    }
  }

  /** A pending decrement is one of the seats it will free. */
  lemma OwedSeat(s: Server, p: Pid, r: Rid)
    requires p in s.handlers && (Owes(s.handlers[p].pc, r) || Holds(s.handlers[p].pc, r))
    ensures Seats(s, r) >= 1
  {
    if Owes(s.handlers[p].pc, r) {
      assert p in Owing(s.handlers, r);
    } else {
      assert p in Holders(s.handlers, r);
    }
  }

  // ------------------------------------------------------------ primitive updates

  ghost predicate Inv(s: Server) {
    Known(s) && Ledger(s)
  }

  function Put(s: Server, p: Pid, h: Handler): Server {
    s.(handlers := s.handlers[p := h])
  }

  /** A handler moves on without touching any seat. */
  lemma MovePc(s: Server, p: Pid, h: Handler)
    requires Inv(s) && p in s.handlers && KnownPc(h.pc, s.usedRooms)
    requires forall r :: HandlerClaim(h.pc, r) == HandlerClaim(s.handlers[p].pc, r)
    ensures Inv(Put(s, p, h))
  {
    forall r | r in s.rooms ensures Seats(Put(s, p, h), r) == Seats(s, r) {
      HandlersChange(s.handlers, p, h, r);
    }
  }

  /** Player entries change, but nobody's joined room does. */
  lemma MovePlayers(s: Server, players: Players)
    requires Inv(s) && forall p :: p in players ==> p in s.players && players[p].joinedRoom == s.players[p].joinedRoom
    requires s.players.Keys <= players.Keys
    ensures Inv(s.(players := players))
  {
    forall r | r in s.rooms ensures Seats(s.(players := players), r) == Seats(s, r) {
      assert Joiners(players, r) == Joiners(s.players, r);
    }
  }

  lemma DropRoom(s: Server, room: Rid)
    requires Inv(s)
    ensures Inv(s.(rooms := s.rooms - {room}))
  {
    forall r | r in s.rooms - {room} ensures Seats(s.(rooms := s.rooms - {room}), r) == Seats(s, r) {
    }
  }

  /** A handler gains or loses one claim on `room` together with the room's count. */
  lemma TakeSeat(s: Server, p: Pid, room: Rid)
    requires Inv(s) && p in s.handlers && s.handlers[p].pc == JoinReserve(room) && SeatFree(s.rooms, room)
    ensures Inv(At(s, p, JoinUpnp(room)).(rooms := WithSeatTaken(s.rooms, room)))
  {
    assert KnownPc(s.handlers[p].pc, s.usedRooms);
    var s' := At(s, p, JoinUpnp(room)).(rooms := WithSeatTaken(s.rooms, room));
    forall r | r in s.rooms ensures Seats(s', r) == Seats(s, r) + One(r == room) {
      HandlersChange(s.handlers, p, s'.handlers[p], r);
    }
  }

  lemma OneClaim(pc: Pc, room: Rid, r: Rid)
    requires Owes(pc, room) || Holds(pc, room)
    ensures HandlerClaim(pc, r) == One(r == room)
  {
  }

  /** Freeing an owed seat subtracts exactly one from that room and nothing elsewhere. */
  lemma FreedCounts(s: Server, room: Rid)
    requires Inv(s) && Seats(s, room) >= 1
    ensures var rooms := WithSeatFreed(s.rooms, room);
            && rooms.Keys == s.rooms.Keys
            && forall r :: r in rooms ==> rooms[r].maxPlayers == s.rooms[r].maxPlayers &&
                                          rooms[r].currentPlayers + One(r == room) == s.rooms[r].currentPlayers
  {
  }

  /** The pending decrement is carried out. */
  lemma ReleaseSeat(s: Server, p: Pid, room: Rid, h: Handler)
    requires Inv(s) && p in s.handlers && Owes(s.handlers[p].pc, room) && (h.pc == Broadcasting || h.pc == Gone)
    ensures Inv(Put(s, p, h).(rooms := WithSeatFreed(s.rooms, room)))
  {
    OwedSeat(s, p, room);
    var rooms := WithSeatFreed(s.rooms, room);
    forall r | r in rooms ensures Seats(Put(s, p, h).(rooms := rooms), r) + One(r == room) == Seats(s, r) {
      HandlersChange(s.handlers, p, h, r);
      OneClaim(s.handlers[p].pc, room, r);
    }
    FreedCounts(s, room);
  }

  /** A claim that is cut off moves to the account of lost seats. */
  lemma LoseClaim(s: Server, p: Pid, room: Rid, h: Handler)
    requires Inv(s) && p in s.handlers && SeatOf(s.handlers[p].pc) == Some(room)
    requires h.pc == Leaving || h.pc == Broadcasting
    ensures Inv(LoseSeat(Put(s, p, h), room))
  {
    assert KnownPc(s.handlers[p].pc, s.usedRooms);
    var s' := LoseSeat(Put(s, p, h), room);
    forall r | r in s.rooms ensures Seats(s', r) == Seats(s, r) {
      HandlersChange(s.handlers, p, h, r);
    }
  }

  /** The reservation becomes the player's joined room; the previous one becomes owed. */
  lemma CommitSeat(s: Server, p: Pid, room: Rid, h: Handler)
    requires Inv(s) && p in s.handlers && s.handlers[p].pc == JoinCommit(room) && p in s.players
    requires match s.players[p].joinedRoom
             case Some(previous) => h.pc == JoinRelease(previous)
             case None => h.pc == Broadcasting
    ensures Inv(Put(s, p, h).(players := WithJoined(s.players, p, room)))
  {
    assert KnownPc(s.handlers[p].pc, s.usedRooms);
    var s' := Put(s, p, h).(players := WithJoined(s.players, p, room));
    assert s.players - {p} == s'.players - {p};
    forall r | r in s.rooms ensures Seats(s', r) == Seats(s, r) {
      SeatsChange(s, s', p, r);
    }
  }

  /** A web viewer's entry is removed; its joined room, if any, becomes owed. */
  lemma TakeOut(s: Server, p: Pid, h: Handler)
    requires Inv(s) && p in s.handlers && s.handlers[p].pc == Leaving && p in s.players
    requires h.pc == LeaveClear(s.players[p].hostingRoom, s.players[p].joinedRoom)
    ensures Inv(Put(s, p, h).(players := s.players - {p}))
  {
    var s' := Put(s, p, h).(players := s.players - {p});
    assert s.players - {p} == s'.players - {p};
    forall r | r in s.rooms ensures Seats(s', r) == Seats(s, r) {
      SeatsChange(s, s', p, r);
    }
  }

  lemma AddPlayer(s: Server, p: Pid, player: Player)
    requires Inv(s) && p !in s.players && player.joinedRoom == None
    ensures Inv(s.(players := s.players[p := player]))
  {
    var s' := s.(players := s.players[p := player]);
    forall r | r in s.rooms ensures Seats(s', r) == Seats(s, r) {
      assert Joiners(s'.players, r) == Joiners(s.players, r);
    }
  }

  lemma NewHandlerClaims(handlers: map<Pid, Handler>, p: Pid, h: Handler, r: Rid)
    requires p !in handlers && h.pc == Idle
    ensures Holders(handlers[p := h], r) == Holders(handlers, r) && Owing(handlers[p := h], r) == Owing(handlers, r)
  {
  }

  lemma AddHandler(s: Server, p: Pid, h: Handler)
    requires Inv(s) && p !in s.handlers && h.pc == Idle
    ensures Inv(Put(s, p, h))
  {
    forall r | r in s.rooms ensures Seats(Put(s, p, h), r) == Seats(s, r) {
      NewHandlerClaims(s.handlers, p, h, r);
    }
  }

  // ------------------------------------------------------------ every step keeps the ledger

  lemma RequestInv(s: Server, st: Step)
    requires Inv(s) && Enabled(s, st) && (st.Register? || st.CreateRoom? || st.JoinRoom?)
    ensures Inv(Apply(s, st))
  {
    if Apply(s, st) != s {
      MovePc(s, st.p, Apply(s, st).handlers[st.p]);
    }
  }

  lemma CloseInv(s: Server, p: Pid)
    requires Inv(s) && Enabled(s, CloseRoom(p))
    ensures Inv(Apply(s, CloseRoom(p)))
  {
    var s' := Apply(s, CloseRoom(p));
    if s' != s {
      MovePc(s, p, s'.handlers[p]);
      MovePlayers(Put(s, p, s'.handlers[p]), s'.players);
    }
  }

  lemma RegisterInsertInv(s: Server, p: Pid, uuid: Rid)
    requires Inv(s) && Enabled(s, Continue(p, uuid)) && s.handlers[p].pc.RegisterInsert? && p !in s.players
    ensures Inv(Apply(s, Continue(p, uuid)))
  {
    var s' := Apply(s, Continue(p, uuid));
    MovePc(s, p, s'.handlers[p]);
    AddPlayer(Put(s, p, s'.handlers[p]), p, s'.players[p]);
  }

  lemma CreateInsertInv(s: Server, p: Pid, uuid: Rid)
    requires Inv(s) && Enabled(s, Continue(p, uuid)) && s.handlers[p].pc.CreateInsert?
    ensures Inv(Apply(s, Continue(p, uuid)))
  {
    var s1 := Put(s, p, Apply(s, Continue(p, uuid)).handlers[p]);
    assert KnownPc(s.handlers[p].pc, s.usedRooms);
    MovePc(s, p, s1.handlers[p]);
    FreshRoom(s1, uuid);
    NewRoom(s1, uuid, Apply(s, Continue(p, uuid)).rooms[uuid]);
  }

  lemma NewRoom(s: Server, uuid: Rid, room: Room)
    requires Inv(s) && uuid !in s.usedRooms && room.currentPlayers == 1 && 2 <= room.maxPlayers <= 12
    requires Seats(s, uuid) == 0
    ensures Inv(s.(rooms := s.rooms[uuid := room], usedRooms := s.usedRooms + {uuid}))
  {
    var s' := s.(rooms := s.rooms[uuid := room], usedRooms := s.usedRooms + {uuid});
    forall p | p in s.handlers ensures KnownPc(s.handlers[p].pc, s'.usedRooms) {
      assert KnownPc(s.handlers[p].pc, s.usedRooms);
    }
    forall r | r in s'.rooms ensures Seats(s', r) == Seats(s, r) {
    }
  }

  lemma PlainContinueInv(s: Server, p: Pid, uuid: Rid)
    requires Inv(s) && Enabled(s, Continue(p, uuid))
    requires var pc := s.handlers[p].pc; pc.CreateCheckCap? || pc.JoinReadPlayers? || pc.Broadcasting?
    ensures Inv(Apply(s, Continue(p, uuid)))
  {
    assert KnownPc(s.handlers[p].pc, s.usedRooms);
    MovePc(s, p, Apply(s, Continue(p, uuid)).handlers[p]);
  }

  lemma TokenContinueInv(s: Server, p: Pid, uuid: Rid)
    requires Inv(s) && Enabled(s, Continue(p, uuid)) && (s.handlers[p].pc.JoinUpnp? || s.handlers[p].pc.JoinBind?)
    ensures Inv(Apply(s, Continue(p, uuid)))
  {
    assert KnownPc(s.handlers[p].pc, s.usedRooms);
    MovePc(s, p, Apply(s, Continue(p, uuid)).handlers[p]);
  }

  lemma CreateLinkInv(s: Server, p: Pid, uuid: Rid)
    requires Inv(s) && Enabled(s, Continue(p, uuid)) && s.handlers[p].pc.CreateLink?
    ensures Inv(Apply(s, Continue(p, uuid)))
  {
    var s' := Apply(s, Continue(p, uuid));
    MovePc(s, p, s'.handlers[p]);
    MovePlayers(Put(s, p, s'.handlers[p]), s'.players);
  }

  lemma CloseRemoveInv(s: Server, p: Pid, uuid: Rid)
    requires Inv(s) && Enabled(s, Continue(p, uuid)) && s.handlers[p].pc.CloseRemove?
    ensures Inv(Apply(s, Continue(p, uuid)))
  {
    var s' := Apply(s, Continue(p, uuid));
    MovePc(s, p, s'.handlers[p]);
    DropRoom(Put(s, p, s'.handlers[p]), s.handlers[p].pc.room);
  }

  lemma JoinSeatInv(s: Server, p: Pid, uuid: Rid)
    requires Inv(s) && Enabled(s, Continue(p, uuid))
    requires var pc := s.handlers[p].pc; pc.JoinReserve? || pc.JoinCommit? || pc.JoinRelease?
    ensures Inv(Apply(s, Continue(p, uuid)))
  {
    var pc, h := s.handlers[p].pc, Apply(s, Continue(p, uuid)).handlers[p];
    if pc.JoinReserve? {
      if SeatFree(s.rooms, pc.room) { TakeSeat(s, p, pc.room); } else { MovePc(s, p, h); }
    } else if pc.JoinRelease? {
      ReleaseSeat(s, p, pc.previous, h);
    } else if p in s.players {
      CommitSeat(s, p, pc.room, h);
    } else {
      LoseClaim(s, p, pc.room, h);
    }
  }

  lemma CancelInv(s: Server, p: Pid)
    requires Inv(s) && Enabled(s, Cancel(p))
    ensures Inv(Apply(s, Cancel(p)))
  {
    var seat, h := SeatOf(s.handlers[p].pc), Apply(s, Cancel(p)).handlers[p];
    if seat.Some? {
      LoseClaim(s, p, seat.value, h);
    } else {
      MovePc(s, p, h);
    }
  }

  lemma LeaveInv(s: Server, p: Pid)
    requires Inv(s) && Enabled(s, Leave(p)) && s.handlers[p].pc.Leaving?
    ensures Inv(Apply(s, Leave(p)))
  {
    var s' := Apply(s, Leave(p));
    if s'.handlers[p].pc.LeaveClear? {
      TakeOut(s, p, s'.handlers[p]);
    } else {
      MovePc(s, p, s'.handlers[p]);
      MovePlayers(Put(s, p, s'.handlers[p]), s'.players);
    }
  }

  lemma LeaveClearInv(s: Server, p: Pid)
    requires Inv(s) && Enabled(s, Leave(p)) && s.handlers[p].pc.LeaveClear?
    ensures Inv(Apply(s, Leave(p)))
  {
    var hosting := s.handlers[p].pc.hosting;
    var s1 := if hosting.Some? then s.(rooms := s.rooms - {hosting.value}) else s;
    if hosting.Some? { DropRoom(s, hosting.value); }
    var joined, h := s.handlers[p].pc.joined, Apply(s, Leave(p)).handlers[p];
    if joined.Some? {
      ReleaseSeat(s1, p, joined.value, h);
    } else {
      MovePc(s1, p, h);
    }
  }

  lemma SweepInv(s: Server)
    requires Inv(s) && s.cleaner.Sweeping?
    ensures Inv(ApplySweep(s))
  {
    var s' := ApplySweep(s);
    forall r | r in s'.rooms ensures Seats(s', r) == Seats(s, r) {
      if s.cleaner.todo != [] {
        JoinersSplit(s.players, s.cleaner.todo[0], r);
      }
    }
  }

  lemma ClearInv(s: Server)
    requires Inv(s) && s.cleaner.Clearing?
    ensures Inv(Apply(s, Clear))
  {
    var hosting := s.cleaner.hosting;
    var s1 := if hosting.Some? then s.(rooms := s.rooms - {hosting.value}) else s;
    if hosting.Some? { DropRoom(s, hosting.value); }
    SettleClear(s1);
  }

  lemma SettleClear(s: Server)
    requires Inv(s) && s.cleaner.Clearing?
    ensures Inv(s.(rooms := if s.cleaner.joined.Some? then WithSeatFreed(s.rooms, s.cleaner.joined.value) else s.rooms,
                   cleaner := Sweeping(s.cleaner.todo)))
  {
    var joined := s.cleaner.joined;
    var s' := s.(rooms := if joined.Some? then WithSeatFreed(s.rooms, joined.value) else s.rooms,
                 cleaner := Sweeping(s.cleaner.todo));
    forall r | r in s.rooms ensures Seats(s', r) + One(joined == Some(r)) == Seats(s, r) {
    }
  }

  lemma ContinueInv(s: Server, p: Pid, uuid: Rid)
    requires Inv(s) && Enabled(s, Continue(p, uuid))
    requires s.handlers[p].pc.RegisterInsert? ==> p !in s.players
    ensures Inv(Apply(s, Continue(p, uuid)))
  {
    match s.handlers[p].pc {
      case RegisterInsert(_, _, _) => RegisterInsertInv(s, p, uuid);
      case CreateInsert(_, _, _) => CreateInsertInv(s, p, uuid);
      case CreateLink(_) => CreateLinkInv(s, p, uuid);
      case CloseRemove(_) => CloseRemoveInv(s, p, uuid);
      case JoinReserve(_) => JoinSeatInv(s, p, uuid);
      case JoinCommit(_) => JoinSeatInv(s, p, uuid);
      case JoinRelease(_) => JoinSeatInv(s, p, uuid);
      case JoinUpnp(_) => TokenContinueInv(s, p, uuid);
      case JoinBind(_) => TokenContinueInv(s, p, uuid);
      case CreateCheckCap(_, _, _) => PlainContinueInv(s, p, uuid);
      case JoinReadPlayers(_, _, _) => PlainContinueInv(s, p, uuid);
      case Broadcasting => PlainContinueInv(s, p, uuid);
    }
  }

  lemma StepInv(s: Server, st: Step)
    requires Inv(s) && Enabled(s, st)
    requires st.Continue? && s.handlers[st.p].pc.RegisterInsert? ==> st.p !in s.players
    ensures Inv(Apply(s, st))
  {
    match st {
      case Connect(p, ip) => AddHandler(s, p, Handler(ip, false, false, Idle, None));
      case Register(_, _, _) => RequestInv(s, st);
      case Heartbeat(_) => MovePlayers(s, Apply(s, st).players);
      case CreateRoom(_, _) => RequestInv(s, st);
      case CloseRoom(p) => CloseInv(s, p);
      case JoinRoom(_, _) => RequestInv(s, st);
      case Continue(p, uuid) => ContinueInv(s, p, uuid);
      case Cancel(p) => CancelInv(s, p);
      case Leave(p) => if s.handlers[p].pc.Leaving? { LeaveInv(s, p); } else { LeaveClearInv(s, p); }
      case Scan(_) => RestCleaner(s, Apply(s, st).cleaner);
      case Sweep => SweepInv(s);
      case Clear => ClearInv(s);
      case Tick(_) => ClockInv(s, Apply(s, st).clock);
    }
  }

  lemma RestCleaner(s: Server, c: Cleaner)
    requires Inv(s) && s.cleaner.Resting? && c.Sweeping?
    ensures Inv(s.(cleaner := c))
  {
    forall r | r in s.rooms ensures Seats(s.(cleaner := c), r) == Seats(s, r) {
    }
  }

  lemma ClockInv(s: Server, now: nat)
    requires Inv(s)
    ensures Inv(s.(clock := now))
  {
    forall r | r in s.rooms ensures Seats(s.(clock := now), r) == Seats(s, r) {
    }
  }
}
