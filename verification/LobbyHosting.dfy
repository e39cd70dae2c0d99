/** Who hosts which room, in every interleaving and after every cancellation. */
module LobbyHosting {
  import opened Basics
  import opened LobbyState
  import opened Lobby

  /** A handler between the hosting check and the insertion of its room. */
  predicate Creating(pc: Pc) {
    pc.CreateCheckCap? || pc.CreateInsert?
  }

  /** The room a handler has inserted but not linked, or unlinked but not removed. */
  function Unlinked(pc: Pc): Option<Rid> {
    match pc
    case CreateLink(r) => Some(r)
    case CloseRemove(r) => Some(r)
    case _ => None
  }

  /** Entries belong to registered handlers, and a registration inserts at most once. */
  ghost predicate Registered(s: Server) {
    && (forall p :: p in s.players ==> p in s.handlers && s.handlers[p].registered)
    && (forall p :: p in s.handlers && s.handlers[p].pc.RegisterInsert? ==> !s.handlers[p].registered)
    && (forall p :: p in s.handlers && (Creating(s.handlers[p].pc) || Unlinked(s.handlers[p].pc).Some?) ==>
          s.handlers[p].registered)
    && (forall r :: r in s.rooms ==> s.rooms[r].host in s.handlers && s.handlers[s.rooms[r].host].registered)
  }

  predicate HostsIn(rooms: Rooms, p: Pid, r: Rid) {
    r in rooms && rooms[r].host == p
  }

  /** hosting_room = Some(r) means that room r exists and p is its host. */
  ghost predicate HostingExact(s: Server) {
    forall p :: p in s.players && s.players[p].hostingRoom.Some? ==> HostsIn(s.rooms, p, s.players[p].hostingRoom.value)
  }

  /** No two rooms share a host. */
  ghost predicate OneRoomEach(s: Server) {
    forall r, q :: r in s.rooms && q in s.rooms && s.rooms[r].host == s.rooms[q].host ==> r == q
  }

  /** What handler p's position says about a room that p hosts. */
  predicate RoomFits(s: Server, p: Pid, r: Rid)
    requires p in s.handlers
  {
    var pc := s.handlers[p].pc;
    if Creating(pc) then false
    else if Unlinked(pc).Some? then Unlinked(pc) == Some(r)
    else Alive(pc) && p in s.players ==> s.players[p].hostingRoom == Some(r)
  }

  ghost predicate RoomsFit(s: Server) {
    forall r :: r in s.rooms && s.rooms[r].host in s.handlers ==> RoomFits(s, s.rooms[r].host, r)
  }

  predicate HandlerFits(s: Server, p: Pid)
    requires p in s.handlers
  {
    var pc := s.handlers[p].pc;
    && (Unlinked(pc).Some? ==>
          HostsIn(s.rooms, p, Unlinked(pc).value) && (p in s.players ==> s.players[p].hostingRoom == None))
    && (pc.LeaveClear? && pc.hosting.Some? ==>
          p !in s.players && pc.hosting.value in s.usedRooms &&
          (pc.hosting.value in s.rooms ==> s.rooms[pc.hosting.value].host == p))
  }

  ghost predicate HandlersFit(s: Server) {
    forall p :: p in s.handlers ==> HandlerFits(s, p)
  }

  predicate CleanerFits(s: Server) {
    var c := s.cleaner;
    c.Clearing? && c.hosting.Some? ==>
      && c.hosting.value in s.usedRooms
      && c.who !in s.players && c.who in s.handlers && s.handlers[c.who].registered
      && !Creating(s.handlers[c.who].pc) && Unlinked(s.handlers[c.who].pc).None?
      && (c.hosting.value in s.rooms ==> s.rooms[c.hosting.value].host == c.who)
  }

  ghost predicate Inv(s: Server) {
    && s.rooms.Keys <= s.usedRooms
    && Registered(s) && HostingExact(s) && OneRoomEach(s) && RoomsFit(s) && HandlersFit(s) && CleanerFits(s)
  }

  // ------------------------------------------------------------ preservation

  function Put(s: Server, p: Pid, h: Handler): Server {
    s.(handlers := s.handlers[p := h])
  }

  /** Positions that say nothing about hosting. */
  predicate Neutral(pc: Pc) {
    !Creating(pc) && Unlinked(pc).None? && !pc.RegisterInsert? && Alive(pc)
  }

  predicate Ended(pc: Pc) {
    pc == Leaving || pc == Gone
  }

  /** From a neutral or creating position to a neutral one, or out of the loop altogether. */
  lemma MovePc(s: Server, p: Pid, h: Handler)
    requires Inv(s) && p in s.handlers && h.registered == s.handlers[p].registered
    requires (Neutral(h.pc) && (Neutral(s.handlers[p].pc) || Creating(s.handlers[p].pc))) || Ended(h.pc)
    ensures Inv(Put(s, p, h))
  {
  }

  lemma AddHandler(s: Server, p: Pid, h: Handler)
    requires Inv(s) && p !in s.handlers && h.pc == Idle && !h.registered
    ensures Inv(Put(s, p, h))
  {
  }

  lemma StartRegister(s: Server, p: Pid, h: Handler)
    requires Inv(s) && p in s.handlers && h.pc.RegisterInsert? && !h.registered && !s.handlers[p].registered
    ensures Inv(Put(s, p, h))
  {
  }

  lemma StartCreate(s: Server, p: Pid, h: Handler)
    requires Inv(s) && p in s.handlers && Creating(h.pc) && h.registered && s.handlers[p].registered
    requires Creating(s.handlers[p].pc) ||
             (Neutral(s.handlers[p].pc) && p in s.players && s.players[p].hostingRoom == None)
    ensures Inv(Put(s, p, h))
  {
  }

  /** Entries change, but nobody's hosting room does. */
  lemma MovePlayers(s: Server, players: Players)
    requires Inv(s) && players.Keys == s.players.Keys
    requires forall p :: p in players ==> players[p].hostingRoom == s.players[p].hostingRoom
    ensures Inv(s.(players := players))
  {
  }

  /** Seat counts change, but no room comes, goes or changes host. */
  lemma MoveRooms(s: Server, rooms: Rooms)
    requires Inv(s) && rooms.Keys == s.rooms.Keys && forall r :: r in rooms ==> rooms[r].host == s.rooms[r].host
    ensures Inv(s.(rooms := rooms))
  {
  }

  lemma InsertPlayer(s: Server, p: Pid, uuid: Rid)
    requires Inv(s) && Enabled(s, Continue(p, uuid)) && s.handlers[p].pc.RegisterInsert?
    ensures Inv(Apply(s, Continue(p, uuid)))
  {
  }

  lemma NoRoomYet(s: Server, p: Pid)
    requires RoomsFit(s) && p in s.handlers && Creating(s.handlers[p].pc)
    ensures forall r :: r in s.rooms ==> s.rooms[r].host != p
  {
  }

  lemma AddRoom(s: Server, p: Pid, uuid: Rid, room: Room, h: Handler)
    requires Inv(s) && p in s.handlers && s.handlers[p].pc.CreateInsert? && h == s.handlers[p].(pc := CreateLink(uuid))
    requires uuid !in s.usedRooms && room.host == p
    ensures Inv(Put(s, p, h).(rooms := s.rooms[uuid := room], usedRooms := s.usedRooms + {uuid}))
  {
    AddRoomHandlers(s, p, uuid, room, h);
    NoRoomYet(s, p);
  }

  lemma AddRoomHandlers(s: Server, p: Pid, uuid: Rid, room: Room, h: Handler)
    requires Inv(s) && p in s.handlers && s.handlers[p].pc.CreateInsert? && h == s.handlers[p].(pc := CreateLink(uuid))
    requires uuid !in s.usedRooms && room.host == p
    ensures HandlersFit(Put(s, p, h).(rooms := s.rooms[uuid := room], usedRooms := s.usedRooms + {uuid}))
  {
    var s' := Put(s, p, h).(rooms := s.rooms[uuid := room], usedRooms := s.usedRooms + {uuid});
    NoRoomYet(s, p);
    forall q | q in s.handlers ensures HandlerFits(s', q) {
      assert HandlerFits(s, q);
    }
  }

  lemma InsertRoom(s: Server, p: Pid, uuid: Rid)
    requires Inv(s) && Enabled(s, Continue(p, uuid)) && s.handlers[p].pc.CreateInsert?
    ensures Inv(Apply(s, Continue(p, uuid)))
  {
    var s' := Apply(s, Continue(p, uuid));
    AddRoom(s, p, uuid, s'.rooms[uuid], s'.handlers[p]);
  }

  lemma LinkRoom(s: Server, p: Pid, uuid: Rid)
    requires Inv(s) && Enabled(s, Continue(p, uuid)) && s.handlers[p].pc.CreateLink?
    ensures Inv(Apply(s, Continue(p, uuid)))
  {
    assert HandlerFits(s, p);
  }

  lemma UnlinkRoom(s: Server, p: Pid)
    requires Inv(s) && Enabled(s, CloseRoom(p))
    ensures Inv(Apply(s, CloseRoom(p)))
  {
  }

  lemma RemoveClosed(s: Server, p: Pid, uuid: Rid)
    requires Inv(s) && Enabled(s, Continue(p, uuid)) && s.handlers[p].pc.CloseRemove?
    ensures Inv(Apply(s, Continue(p, uuid)))
  {
    assert HandlerFits(s, p);
  }

  /** An entry is taken out by its own handler (web viewer) or by the cleanup task. */
  lemma TakeOutByHandler(s: Server, p: Pid)
    requires Inv(s) && Enabled(s, Leave(p)) && s.handlers[p].pc.Leaving? && p in s.players
    requires s.handlers[p].registered && s.handlers[p].webViewer
    ensures Inv(Apply(s, Leave(p)))
  {
  }

  /** A room nobody links to any more goes away. */
  lemma DropRoom(s: Server, who: Pid, room: Rid)
    requires Inv(s) && who !in s.players && who in s.handlers && Unlinked(s.handlers[who].pc).None?
    requires room in s.rooms ==> s.rooms[room].host == who
    ensures Inv(s.(rooms := s.rooms - {room}))
  {
  }

  lemma ClearRooms(s: Server, who: Pid, hosting: Option<Rid>, joined: Option<Rid>)
    requires Inv(s) && who !in s.players && who in s.handlers && Unlinked(s.handlers[who].pc).None?
    requires hosting.Some? && hosting.value in s.rooms ==> s.rooms[hosting.value].host == who
    ensures Inv(s.(rooms := AfterRemoval(s.rooms, hosting, joined)))
  {
    var s1 := if hosting.Some? then s.(rooms := s.rooms - {hosting.value}) else s;
    if hosting.Some? {
      DropRoom(s, who, hosting.value);
    }
    MoveRooms(s1, AfterRemoval(s.rooms, hosting, joined));
  }

  lemma ClearByHandler(s: Server, p: Pid)
    requires Inv(s) && Enabled(s, Leave(p)) && s.handlers[p].pc.LeaveClear?
    ensures Inv(Apply(s, Leave(p)))
  {
    var pc, s' := s.handlers[p].pc, Apply(s, Leave(p));
    assert HandlerFits(s, p);
    MovePc(s, p, s'.handlers[p]);
    if pc.hosting.Some? {
      ClearRooms(Put(s, p, s'.handlers[p]), p, pc.hosting, pc.joined);
    } else {
      MoveRooms(Put(s, p, s'.handlers[p]), s'.rooms);
    }
  }

  lemma TakeOutByCleaner(s: Server)
    requires Inv(s) && s.cleaner.Sweeping?
    ensures Inv(ApplySweep(s))
  {
    if s.cleaner.todo != [] && s.cleaner.todo[0] in s.players {
      var p := s.cleaner.todo[0];
      assert HandlerFits(s, p);
      if s.players[p].hostingRoom.Some? {
        assert RoomFits(s, p, s.players[p].hostingRoom.value);
      }
    }
  }

  lemma ClearByCleaner(s: Server)
    requires Inv(s) && s.cleaner.Clearing?
    ensures Inv(Apply(s, Clear))
  {
    var c := s.cleaner;
    var s1 := s.(cleaner := Sweeping(c.todo));
    AccountInv(s, Sweeping(c.todo), s.clock, s.lost);
    if c.hosting.Some? {
      ClearRooms(s1, c.who, c.hosting, c.joined);
    } else {
      MoveRooms(s1, Apply(s, Clear).rooms);
    }
  }

  lemma RequestInv(s: Server, st: Step)
    requires Inv(s) && Enabled(s, st) && (st.Register? || st.CreateRoom? || st.JoinRoom?)
    ensures Inv(Apply(s, st))
  {
    var h := Apply(s, st).handlers[st.p];
    if h == s.handlers[st.p] {
      assert Apply(s, st) == s;
    } else if st.Register? {
      StartRegister(s, st.p, h);
    } else if st.CreateRoom? {
      StartCreate(s, st.p, h);
    } else {
      MovePc(s, st.p, h);
    }
  }

  lemma MoveAndCount(s: Server, p: Pid, h: Handler, rooms: Rooms)
    requires Inv(s) && p in s.handlers && h.registered == s.handlers[p].registered
    requires Neutral(h.pc) && Neutral(s.handlers[p].pc)
    requires rooms.Keys == s.rooms.Keys && forall r :: r in rooms ==> rooms[r].host == s.rooms[r].host
    ensures Inv(Put(s, p, h).(rooms := rooms))
  {
    MovePc(s, p, h);
    MoveRooms(Put(s, p, h), rooms);
  }

  lemma JoinReserveInv(s: Server, p: Pid, uuid: Rid)
    requires Inv(s) && Enabled(s, Continue(p, uuid)) && s.handlers[p].pc.JoinReserve?
    ensures Inv(Apply(s, Continue(p, uuid)))
  {
    var h, room := s.handlers[p], s.handlers[p].pc.room;
    if SeatFree(s.rooms, room) {
      var h' := h.(pc := JoinUpnp(room));
      MoveAndCount(s, p, h', WithSeatTaken(s.rooms, room));
      assert Apply(s, Continue(p, uuid)) == Put(s, p, h').(rooms := WithSeatTaken(s.rooms, room));
    } else {
      MovePc(s, p, h.(pc := Idle));
      assert Apply(s, Continue(p, uuid)) == Put(s, p, h.(pc := Idle));
    }
  }

  lemma JoinReleaseInv(s: Server, p: Pid, uuid: Rid)
    requires Inv(s) && Enabled(s, Continue(p, uuid)) && s.handlers[p].pc.JoinRelease?
    ensures Inv(Apply(s, Continue(p, uuid)))
  {
    var s' := Apply(s, Continue(p, uuid));
    MoveAndCount(s, p, s'.handlers[p], s'.rooms);
  }

  lemma MoveAndJoin(s: Server, p: Pid, h: Handler, players: Players, lost: map<Rid, nat>)
    requires Inv(s) && p in s.handlers && h.registered == s.handlers[p].registered
    requires Neutral(h.pc) && Neutral(s.handlers[p].pc)
    requires players.Keys == s.players.Keys
    requires forall q :: q in players ==> players[q].hostingRoom == s.players[q].hostingRoom
    ensures Inv(Put(s, p, h).(players := players, lost := lost))
  {
    MovePc(s, p, h);
    MovePlayers(Put(s, p, h), players);
    AccountInv(Put(s, p, h).(players := players), s.cleaner, s.clock, lost);
  }

  /** Recording a join changes one handler, the books and joined rooms only. */
  ghost predicate CommitShaped(s: Server, s': Server, p: Pid) {
    && p in s.handlers && p in s'.handlers
    && s' == Put(s, p, s'.handlers[p]).(players := s'.players, lost := s'.lost)
    && Neutral(s'.handlers[p].pc) && s'.handlers[p].registered == s.handlers[p].registered
    && s'.players.Keys == s.players.Keys
    && forall q :: q in s'.players ==> s'.players[q].hostingRoom == s.players[q].hostingRoom
  }

  lemma CommitOfGone(s: Server, p: Pid, uuid: Rid)
    requires Enabled(s, Continue(p, uuid)) && s.handlers[p].pc.JoinCommit? && p !in s.players
    ensures CommitShaped(s, Apply(s, Continue(p, uuid)), p)
  {
  }

  lemma CommitOfPresent(s: Server, p: Pid, uuid: Rid)
    requires Enabled(s, Continue(p, uuid)) && s.handlers[p].pc.JoinCommit? && p in s.players
    ensures CommitShaped(s, Apply(s, Continue(p, uuid)), p)
  {
  }

  lemma JoinCommitInv(s: Server, p: Pid, uuid: Rid)
    requires Inv(s) && Enabled(s, Continue(p, uuid)) && s.handlers[p].pc.JoinCommit?
    ensures Inv(Apply(s, Continue(p, uuid)))
  {
    if p in s.players { CommitOfPresent(s, p, uuid); } else { CommitOfGone(s, p, uuid); }
    var s' := Apply(s, Continue(p, uuid));
    MoveAndJoin(s, p, s'.handlers[p], s'.players, s'.lost);
  }

  lemma CheckCapInv(s: Server, p: Pid, uuid: Rid)
    requires Inv(s) && Enabled(s, Continue(p, uuid)) && s.handlers[p].pc.CreateCheckCap?
    ensures Inv(Apply(s, Continue(p, uuid)))
  {
    var h := Apply(s, Continue(p, uuid)).handlers[p];
    if Creating(h.pc) { StartCreate(s, p, h); } else { MovePc(s, p, h); }
  }

  lemma PlainContinueInv(s: Server, p: Pid, uuid: Rid)
    requires Inv(s) && Enabled(s, Continue(p, uuid))
    requires var pc := s.handlers[p].pc; pc.JoinReadPlayers? || pc.JoinUpnp? || pc.JoinBind? || pc.Broadcasting?
    ensures Inv(Apply(s, Continue(p, uuid)))
  {
    MovePc(s, p, Apply(s, Continue(p, uuid)).handlers[p]);
  }

  lemma ContinueInv(s: Server, p: Pid, uuid: Rid)
    requires Inv(s) && Enabled(s, Continue(p, uuid))
    ensures Inv(Apply(s, Continue(p, uuid)))
  {
    match s.handlers[p].pc {
      case RegisterInsert(_, _, _) => InsertPlayer(s, p, uuid);
      case CreateInsert(_, _, _) => InsertRoom(s, p, uuid);
      case CreateLink(_) => LinkRoom(s, p, uuid);
      case CloseRemove(_) => RemoveClosed(s, p, uuid);
      case JoinReserve(_) => JoinReserveInv(s, p, uuid);
      case JoinCommit(_) => JoinCommitInv(s, p, uuid);
      case JoinRelease(_) => JoinReleaseInv(s, p, uuid);
      case CreateCheckCap(_, _, _) => CheckCapInv(s, p, uuid);
      case JoinReadPlayers(_, _, _) => PlainContinueInv(s, p, uuid);
      case JoinUpnp(_) => PlainContinueInv(s, p, uuid);
      case JoinBind(_) => PlainContinueInv(s, p, uuid);
      case Broadcasting => PlainContinueInv(s, p, uuid);
    }
  }

  lemma LeaveInv(s: Server, p: Pid)
    requires Inv(s) && Enabled(s, Leave(p))
    ensures Inv(Apply(s, Leave(p)))
  {
    var h, s' := s.handlers[p], Apply(s, Leave(p));
    if h.pc.LeaveClear? {
      ClearByHandler(s, p);
    } else if s'.handlers[p].pc.LeaveClear? {
      TakeOutByHandler(s, p);
    } else {
      MovePc(s, p, s'.handlers[p]);
      MovePlayers(Put(s, p, s'.handlers[p]), s'.players);
    }
  }

  lemma CancelInv(s: Server, p: Pid)
    requires Inv(s) && Enabled(s, Cancel(p))
    ensures Inv(Apply(s, Cancel(p)))
  {
    var s' := Apply(s, Cancel(p));
    MovePc(s, p, s'.handlers[p]);
    AccountInv(Put(s, p, s'.handlers[p]), s.cleaner, s.clock, s'.lost);
  }

  lemma StepInv(s: Server, st: Step)
    requires Inv(s) && Enabled(s, st)
    ensures Inv(Apply(s, st))
  {
    match st {
      case Connect(p, ip) => AddHandler(s, p, Handler(ip, false, false, Idle, None));
      case Register(_, _, _) => RequestInv(s, st);
      case Heartbeat(_) => MovePlayers(s, Apply(s, st).players);
      case CreateRoom(_, _) => RequestInv(s, st);
      case CloseRoom(p) => UnlinkRoom(s, p);
      case JoinRoom(_, _) => RequestInv(s, st);
      case Continue(p, uuid) => ContinueInv(s, p, uuid);
      case Cancel(p) => CancelInv(s, p);
      case Leave(p) => LeaveInv(s, p);
      case Scan(expired) => AccountInv(s, Sweeping(expired), s.clock, s.lost);
      case Sweep => TakeOutByCleaner(s);
      case Clear => ClearByCleaner(s);
      case Tick(d) => AccountInv(s, s.cleaner, s.clock + d, s.lost);
    }
  }

  lemma AccountInv(s: Server, c: Cleaner, now: nat, lost: map<Rid, nat>)
    requires Inv(s) && (c == s.cleaner || c.Sweeping?)
    ensures Inv(s.(cleaner := c, clock := now, lost := lost))
  {
  }
}
