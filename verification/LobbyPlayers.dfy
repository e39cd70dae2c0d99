/** Who plays in which room: only players of the room's version, and no web viewers. */
module LobbyPlayers {
  import opened Basics
  import opened LobbyState
  import opened Lobby
  import Seats = LobbySeats
  import Hosting = LobbyHosting
  import Runs = LobbyRuns

  /** The room a join has been checked for, from its player check to its last region. */
  function Checked(pc: Pc): Option<Rid> {
    match pc
    case JoinReserve(r) => Some(r)
    case JoinUpnp(r) => Some(r)
    case JoinBind(r) => Some(r)
    case JoinCommit(r) => Some(r)
    case _ => None
  }

  predicate SameVersion(s: Server, p: Pid, r: Rid) {
    p in s.players && r in s.rooms ==> s.players[p].version == s.rooms[r].version
  }

  /** The version a join has read is its room's, and a room about to be created takes its
      host's version and nickname. */
  predicate HandlerAgrees(s: Server, p: Pid)
    requires p in s.handlers
  {
    var pc := s.handlers[p].pc;
    && (Checked(pc).Some? ==> SameVersion(s, p, Checked(pc).value))
    && (pc.JoinReadPlayers? && pc.room in s.rooms ==>
          s.rooms[pc.room].version == pc.roomVersion && s.rooms[pc.room].host == pc.host)
    && (pc.CreateCheckCap? && p in s.players ==>
          s.players[p].nickname == pc.nickname && s.players[p].version == pc.version)
    && (pc.CreateInsert? && p in s.players ==>
          s.players[p].nickname == pc.nickname && s.players[p].version == pc.version)
  }

  predicate EntryAgrees(s: Server, p: Pid)
    requires p in s.players
  {
    s.players[p].joinedRoom.Some? ==> SameVersion(s, p, s.players[p].joinedRoom.value)
  }

  predicate RoomAgrees(s: Server, r: Rid)
    requires r in s.rooms
  {
    var host := s.rooms[r].host;
    host in s.players ==>
      s.players[host].version == s.rooms[r].version && s.players[host].nickname == s.rooms[r].hostNickname
  }

  ghost predicate Agree(s: Server) {
    && (forall p :: p in s.handlers ==> HandlerAgrees(s, p))
    && (forall p :: p in s.players ==> EntryAgrees(s, p))
    && (forall r :: r in s.rooms ==> RoomAgrees(s, r))
  }

  // ------------------------------------------------------------ what a step changes

  /** Entries that stay keep nickname and version; rooms that stay keep version, host and the
      host's nickname. */
  ghost predicate Stable(s: Server, s': Server) {
    && (forall p :: p in s.players && p in s'.players ==>
          s'.players[p].version == s.players[p].version && s'.players[p].nickname == s.players[p].nickname)
    && (forall r :: r in s.rooms && r in s'.rooms ==>
          s'.rooms[r].version == s.rooms[r].version && s'.rooms[r].host == s.rooms[r].host &&
          s'.rooms[r].hostNickname == s.rooms[r].hostNickname)
  }

  /** Nobody comes in, no room comes in, and nobody joins. */
  ghost predicate Shrinks(s: Server, s': Server) {
    && s'.players.Keys <= s.players.Keys && s'.rooms.Keys <= s.rooms.Keys
    && forall p :: p in s'.players ==> s'.players[p].joinedRoom == s.players[p].joinedRoom
  }

  /** Then all agreements last but those of handlers that moved. */
  lemma StaysAgreed(s: Server, s': Server, p: Pid)
    requires Agree(s) && Stable(s, s') && Shrinks(s, s')
    requires p in s'.handlers && s'.handlers - {p} == s.handlers - {p} && HandlerAgrees(s', p)
    ensures Agree(s')
  {
    forall q | q in s'.handlers ensures HandlerAgrees(s', q) {
      if q != p {
        assert q in s'.handlers - {p} && s'.handlers[q] == s.handlers[q];
        assert HandlerAgrees(s, q);
      }
    }
    forall q | q in s'.players ensures EntryAgrees(s', q) {
      assert EntryAgrees(s, q);
    }
    forall r | r in s'.rooms ensures RoomAgrees(s', r) {
      assert RoomAgrees(s, r);
    }
  }

  lemma StaysAgreedAll(s: Server, s': Server)
    requires Agree(s) && Stable(s, s') && Shrinks(s, s') && s'.handlers == s.handlers
    ensures Agree(s')
  {
    forall q | q in s'.handlers ensures HandlerAgrees(s', q) {
      assert HandlerAgrees(s, q);
    }
    forall q | q in s'.players ensures EntryAgrees(s', q) {
      assert EntryAgrees(s, q);
    }
    forall r | r in s'.rooms ensures RoomAgrees(s', r) {
      assert RoomAgrees(s, r);
    }
  }

  // ------------------------------------------------------------ steps

  lemma ConnectAgrees(s: Server, p: Pid, ip: nat)
    requires Agree(s) && Enabled(s, Connect(p, ip))
    ensures Agree(Apply(s, Connect(p, ip)))
  {
    StaysAgreed(s, Apply(s, Connect(p, ip)), p);
  }

  lemma RegisterAgrees(s: Server, p: Pid, nickname: string, version: Version)
    requires Agree(s) && Enabled(s, Register(p, nickname, version))
    ensures Agree(Apply(s, Register(p, nickname, version)))
  {
    assert HandlerAgrees(s, p);
    StaysAgreed(s, Apply(s, Register(p, nickname, version)), p);
  }

  lemma CreateAgrees(s: Server, p: Pid, max: nat)
    requires Agree(s) && Enabled(s, CreateRoom(p, max))
    ensures Agree(Apply(s, CreateRoom(p, max)))
  {
    assert HandlerAgrees(s, p);
    StaysAgreed(s, Apply(s, CreateRoom(p, max)), p);
  }

  lemma JoinAgrees(s: Server, p: Pid, room: Rid)
    requires Agree(s) && Enabled(s, JoinRoom(p, room))
    ensures Agree(Apply(s, JoinRoom(p, room)))
  {
    assert HandlerAgrees(s, p);
    StaysAgreed(s, Apply(s, JoinRoom(p, room)), p);
  }

  lemma CancelAgrees(s: Server, p: Pid)
    requires Agree(s) && Enabled(s, Cancel(p))
    ensures Agree(Apply(s, Cancel(p)))
  {
    assert HandlerAgrees(s, p);
    StaysAgreed(s, Apply(s, Cancel(p)), p);
  }

  lemma CloseAgrees(s: Server, p: Pid)
    requires Agree(s) && Enabled(s, CloseRoom(p))
    ensures Agree(Apply(s, CloseRoom(p)))
  {
    assert HandlerAgrees(s, p);
    StaysAgreed(s, Apply(s, CloseRoom(p)), p);
  }

  lemma LeaveShrinks(s: Server, p: Pid)
    requires Enabled(s, Leave(p))
    ensures Stable(s, Apply(s, Leave(p))) && Shrinks(s, Apply(s, Leave(p)))
  {
  }

  lemma LeaveAgrees(s: Server, p: Pid)
    requires Agree(s) && Enabled(s, Leave(p))
    ensures Agree(Apply(s, Leave(p)))
  {
    LeaveShrinks(s, p);
    StaysAgreed(s, Apply(s, Leave(p)), p);
  }

  lemma CleanupAgrees(s: Server, st: Step)
    requires Agree(s) && Enabled(s, st) && (st.Heartbeat? || st.Scan? || st.Sweep? || st.Clear? || st.Tick?)
    ensures Agree(Apply(s, st))
  {
    if st.Sweep? {
      SweepAgrees(s);
    } else {
      StaysAgreedAll(s, Apply(s, st));
    }
  }

  lemma SweepAgrees(s: Server)
    requires Agree(s) && s.cleaner.Sweeping?
    ensures Agree(ApplySweep(s))
  {
    StaysAgreedAll(s, ApplySweep(s));
  }

  lemma CapCheckAgrees(s: Server, p: Pid, uuid: Rid)
    requires Agree(s) && Enabled(s, Continue(p, uuid)) && s.handlers[p].pc.CreateCheckCap?
    ensures Agree(Apply(s, Continue(p, uuid)))
  {
    assert HandlerAgrees(s, p);
    StaysAgreed(s, Apply(s, Continue(p, uuid)), p);
  }

  lemma LinkAgrees(s: Server, p: Pid, uuid: Rid)
    requires Agree(s) && Enabled(s, Continue(p, uuid)) && s.handlers[p].pc.CreateLink?
    ensures Agree(Apply(s, Continue(p, uuid)))
  {
    assert HandlerAgrees(s, p);
    StaysAgreed(s, Apply(s, Continue(p, uuid)), p);
  }

  lemma RemoveAgrees(s: Server, p: Pid, uuid: Rid)
    requires Agree(s) && Enabled(s, Continue(p, uuid)) && s.handlers[p].pc.CloseRemove?
    ensures Agree(Apply(s, Continue(p, uuid)))
  {
    assert HandlerAgrees(s, p);
    StaysAgreed(s, Apply(s, Continue(p, uuid)), p);
  }

  lemma ReleaseAgrees(s: Server, p: Pid, uuid: Rid)
    requires Agree(s) && Enabled(s, Continue(p, uuid)) && s.handlers[p].pc.JoinRelease?
    ensures Agree(Apply(s, Continue(p, uuid)))
  {
    assert HandlerAgrees(s, p);
    StaysAgreed(s, Apply(s, Continue(p, uuid)), p);
  }

  lemma BroadcastAgrees(s: Server, p: Pid, uuid: Rid)
    requires Agree(s) && Enabled(s, Continue(p, uuid)) && s.handlers[p].pc.Broadcasting?
    ensures Agree(Apply(s, Continue(p, uuid)))
  {
    assert HandlerAgrees(s, p);
    StaysAgreed(s, Apply(s, Continue(p, uuid)), p);
  }

  /** The player check compares the versions; from then on they agree. */
  lemma CheckAgrees(s: Server, p: Pid, uuid: Rid)
    requires Agree(s) && Enabled(s, Continue(p, uuid)) && s.handlers[p].pc.JoinReadPlayers?
    ensures Agree(Apply(s, Continue(p, uuid)))
  {
    assert HandlerAgrees(s, p);
    StaysAgreed(s, Apply(s, Continue(p, uuid)), p);
  }

  lemma SeatAgrees(s: Server, p: Pid, uuid: Rid)
    requires Agree(s) && Enabled(s, Continue(p, uuid)) && s.handlers[p].pc.JoinReserve?
    ensures Agree(Apply(s, Continue(p, uuid)))
  {
    assert HandlerAgrees(s, p);
    StaysAgreed(s, Apply(s, Continue(p, uuid)), p);
  }

  lemma UpnpAgrees(s: Server, p: Pid, uuid: Rid)
    requires Agree(s) && Enabled(s, Continue(p, uuid)) && s.handlers[p].pc.JoinUpnp?
    ensures Agree(Apply(s, Continue(p, uuid)))
  {
    assert HandlerAgrees(s, p);
    StaysAgreed(s, Apply(s, Continue(p, uuid)), p);
  }

  lemma BindAgrees(s: Server, p: Pid, uuid: Rid)
    requires Agree(s) && Enabled(s, Continue(p, uuid)) && s.handlers[p].pc.JoinBind?
    ensures Agree(Apply(s, Continue(p, uuid)))
  {
    assert HandlerAgrees(s, p);
    StaysAgreed(s, Apply(s, Continue(p, uuid)), p);
  }

  lemma CommitAgrees(s: Server, p: Pid, uuid: Rid)
    requires Agree(s) && Enabled(s, Continue(p, uuid)) && s.handlers[p].pc.JoinCommit?
    ensures Agree(Apply(s, Continue(p, uuid)))
  {
    var s' := Apply(s, Continue(p, uuid));
    assert HandlerAgrees(s, p);
    forall q | q in s'.handlers ensures HandlerAgrees(s', q) {
      if q != p {
        assert HandlerAgrees(s, q);
      }
    }
    forall q | q in s'.players ensures EntryAgrees(s', q) {
      assert EntryAgrees(s, q);
    }
    forall r | r in s'.rooms ensures RoomAgrees(s', r) {
      assert RoomAgrees(s, r);
    }
  }

  /** A new player: nothing refers to it yet. */
  lemma EnterAgrees(s: Server, p: Pid, uuid: Rid)
    requires Agree(s) && Hosting.Inv(s) && Enabled(s, Continue(p, uuid)) && s.handlers[p].pc.RegisterInsert?
    ensures Agree(Apply(s, Continue(p, uuid)))
  {
    var s' := Apply(s, Continue(p, uuid));
    forall q | q in s'.handlers ensures HandlerAgrees(s', q) {
      if q != p {
        assert HandlerAgrees(s, q);
      }
    }
    forall q | q in s'.players ensures EntryAgrees(s', q) {
      if q != p {
        assert EntryAgrees(s, q);
      }
    }
    forall r | r in s'.rooms ensures RoomAgrees(s', r) {
      assert RoomAgrees(s, r);
    }
  }

  /** A new room: nobody can have joined it or be joining it. */
  lemma InsertAgrees(s: Server, p: Pid, uuid: Rid)
    requires Agree(s) && Seats.Known(s) && Enabled(s, Continue(p, uuid)) && s.handlers[p].pc.CreateInsert?
    ensures Agree(Apply(s, Continue(p, uuid)))
  {
    var s' := Apply(s, Continue(p, uuid));
    assert HandlerAgrees(s, p);
    forall q | q in s'.handlers ensures HandlerAgrees(s', q) {
      if q != p {
        assert HandlerAgrees(s, q);
        assert Seats.KnownPc(s.handlers[q].pc, s.usedRooms);
      }
    }
    forall q | q in s'.players ensures EntryAgrees(s', q) {
      assert EntryAgrees(s, q);
    }
    forall r | r in s'.rooms ensures RoomAgrees(s', r) {
      if r != uuid {
        assert RoomAgrees(s, r);
      }
    }
  }

  lemma ContinueAgrees(s: Server, p: Pid, uuid: Rid)
    requires Agree(s) && Seats.Known(s) && Hosting.Inv(s) && Enabled(s, Continue(p, uuid))
    ensures Agree(Apply(s, Continue(p, uuid)))
  {
    match s.handlers[p].pc {
      case RegisterInsert(_, _, _) => EnterAgrees(s, p, uuid);
      case CreateInsert(_, _, _) => InsertAgrees(s, p, uuid);
      case JoinReadPlayers(_, _, _) => CheckAgrees(s, p, uuid);
      case JoinReserve(_) => SeatAgrees(s, p, uuid);
      case JoinUpnp(_) => UpnpAgrees(s, p, uuid);
      case JoinBind(_) => BindAgrees(s, p, uuid);
      case JoinCommit(_) => CommitAgrees(s, p, uuid);
      case CreateCheckCap(_, _, _) => CapCheckAgrees(s, p, uuid);
      case CreateLink(_) => LinkAgrees(s, p, uuid);
      case CloseRemove(_) => RemoveAgrees(s, p, uuid);
      case JoinRelease(_) => ReleaseAgrees(s, p, uuid);
      case Broadcasting => BroadcastAgrees(s, p, uuid);
    }
  }

  lemma StepAgrees(s: Server, st: Step)
    requires Agree(s) && Seats.Known(s) && Hosting.Inv(s) && Enabled(s, st)
    ensures Agree(Apply(s, st))
  {
    match st {
      case Continue(p, uuid) => ContinueAgrees(s, p, uuid);
      case CloseRoom(p) => CloseAgrees(s, p);
      case Leave(p) => LeaveAgrees(s, p);
      case Connect(p, ip) => ConnectAgrees(s, p, ip);
      case Register(p, nickname, version) => RegisterAgrees(s, p, nickname, version);
      case CreateRoom(p, max) => CreateAgrees(s, p, max);
      case JoinRoom(p, room) => JoinAgrees(s, p, room);
      case Cancel(p) => CancelAgrees(s, p);
      case Heartbeat(_) => CleanupAgrees(s, st);
      case Scan(_) => CleanupAgrees(s, st);
      case Sweep => CleanupAgrees(s, st);
      case Clear => CleanupAgrees(s, st);
      case Tick(_) => CleanupAgrees(s, st);
    }
  }

  lemma {:induction false} AgreeRun(run: seq<Step>)
    requires Legal(run)
    ensures Agree(After(run))
  {
    if run != [] {
      AgreeRun(Before(run));
      Runs.RunInv(Before(run));
      StepAgrees(After(Before(run)), Last(run));
    }
  }

  /** Versions never mix: whoever has joined a room, or has passed the check for it or holds
      a seat of it, plays the room's version, which is its host's. */
  lemma VersionsNeverMix(run: seq<Step>, p: Pid, r: Rid)
    requires Legal(run) && p in After(run).players && r in After(run).rooms
    ensures var s := After(run);
      && (s.players[p].joinedRoom == Some(r) ==> s.players[p].version == s.rooms[r].version)
      && (p in s.handlers && Checked(s.handlers[p].pc) == Some(r) ==> s.players[p].version == s.rooms[r].version)
      && (s.rooms[r].host == p ==>
            s.players[p].version == s.rooms[r].version && s.players[p].nickname == s.rooms[r].hostNickname)
  {
    AgreeRun(run);
    var s := After(run);
    assert EntryAgrees(s, p) && RoomAgrees(s, r);
    if p in s.handlers {
      assert HandlerAgrees(s, p);
    }
  }

  // ------------------------------------------------------------ web viewers

  /** Positions a web viewer's handler can be at. */
  predicate Watching(pc: Pc) {
    pc.Idle? || pc.RegisterInsert? || pc.Broadcasting? || pc.Leaving? || pc.Gone? || pc == LeaveClear(None, None)
  }

  predicate ViewerFits(s: Server, p: Pid)
    requires p in s.handlers
  {
    var h := s.handlers[p];
    && (h.webViewer ==> Watching(h.pc))
    && (h.pc.RegisterInsert? ==> (h.webViewer <==> IsWebViewer(h.pc.nickname)))
    && (p in s.players ==> (h.webViewer <==> IsWebViewer(s.players[p].nickname)))
    && (p in s.players && h.webViewer ==> s.players[p].hostingRoom == None && s.players[p].joinedRoom == None)
  }

  predicate RoomFits(s: Server, r: Rid)
    requires r in s.rooms
  {
    s.rooms[r].host in s.handlers && !s.handlers[s.rooms[r].host].webViewer
  }

  ghost predicate Viewers(s: Server) {
    && (forall p :: p in s.handlers ==> ViewerFits(s, p))
    && (forall r :: r in s.rooms ==> RoomFits(s, r))
  }

  /** A step of handler p that keeps its kind; other handlers, entries and hosts stay. */
  ghost predicate Ordinary(s: Server, s': Server, p: Pid) {
    && p in s.handlers && p in s'.handlers && s'.handlers == s.handlers[p := s'.handlers[p]]
    && s'.handlers[p].webViewer == s.handlers[p].webViewer
    && s'.players - {p} == s.players - {p}
    && s'.rooms.Keys <= s.rooms.Keys
    && forall r :: r in s'.rooms ==> s'.rooms[r].host == s.rooms[r].host
  }

  lemma StaysWatched(s: Server, s': Server, p: Pid)
    requires Viewers(s) && Ordinary(s, s', p) && ViewerFits(s', p)
    ensures Viewers(s')
  {
    forall q | q in s'.handlers ensures ViewerFits(s', q) {
      if q != p {
        assert ViewerFits(s, q);
        assert q in s'.players - {p} <==> q in s'.players;
        assert q in s.players - {p} <==> q in s.players;
        assert q in s'.players ==> (s'.players - {p})[q] == s'.players[q] && (s.players - {p})[q] == s.players[q];
      }
    }
    forall r | r in s'.rooms ensures RoomFits(s', r) {
      assert RoomFits(s, r);
    }
  }

  /** Steps that leave handlers and entries alone. */
  lemma StaysWatchedAll(s: Server, s': Server)
    requires Viewers(s) && s'.handlers == s.handlers && s'.players == s.players && s'.rooms.Keys <= s.rooms.Keys
    requires forall r :: r in s'.rooms ==> s'.rooms[r].host == s.rooms[r].host
    ensures Viewers(s')
  {
    forall q | q in s'.handlers ensures ViewerFits(s', q) {
      assert ViewerFits(s, q);
    }
    forall r | r in s'.rooms ensures RoomFits(s', r) {
      assert RoomFits(s, r);
    }
  }

  lemma ConnectWatched(s: Server, p: Pid, ip: nat)
    requires Viewers(s) && Hosting.Inv(s) && Enabled(s, Connect(p, ip))
    ensures Viewers(Apply(s, Connect(p, ip)))
  {
    var s' := Apply(s, Connect(p, ip));
    forall q | q in s'.handlers ensures ViewerFits(s', q) {
      if q != p {
        assert ViewerFits(s, q);
      }
    }
    forall r | r in s'.rooms ensures RoomFits(s', r) {
      assert RoomFits(s, r);
    }
  }

  /** Only an unregistered handler becomes a viewer's, and it hosts nothing. */
  lemma RegisterWatched(s: Server, p: Pid, nickname: string, version: Version)
    requires Viewers(s) && Hosting.Inv(s) && Enabled(s, Register(p, nickname, version))
    ensures Viewers(Apply(s, Register(p, nickname, version)))
  {
    var s' := Apply(s, Register(p, nickname, version));
    forall q | q in s'.handlers ensures ViewerFits(s', q) {
      assert ViewerFits(s, q);
    }
    forall r | r in s'.rooms ensures RoomFits(s', r) {
      assert RoomFits(s, r);
    }
  }

  lemma InsertWatched(s: Server, p: Pid, uuid: Rid)
    requires Viewers(s) && Enabled(s, Continue(p, uuid)) && s.handlers[p].pc.CreateInsert?
    ensures Viewers(Apply(s, Continue(p, uuid)))
  {
    var s' := Apply(s, Continue(p, uuid));
    assert ViewerFits(s, p);
    forall q | q in s'.handlers ensures ViewerFits(s', q) {
      assert ViewerFits(s, q);
    }
    forall r | r in s'.rooms ensures RoomFits(s', r) {
      if r != uuid {
        assert RoomFits(s, r);
      }
    }
  }

  lemma EnterWatched(s: Server, p: Pid, uuid: Rid)
    requires Viewers(s) && Enabled(s, Continue(p, uuid)) && s.handlers[p].pc.RegisterInsert?
    ensures Viewers(Apply(s, Continue(p, uuid)))
  {
    assert ViewerFits(s, p);
    StaysWatched(s, Apply(s, Continue(p, uuid)), p);
  }

  /** A handler that is at none of the positions of a viewer is no viewer's, and stays so. */
  lemma PlayerWatched(s: Server, p: Pid, uuid: Rid)
    requires Viewers(s) && Enabled(s, Continue(p, uuid))
    requires !Watching(s.handlers[p].pc) && !s.handlers[p].pc.CreateInsert?
    ensures Viewers(Apply(s, Continue(p, uuid)))
  {
    assert ViewerFits(s, p);
    Runs.ContinueHandlers(s, p, uuid);
    ContinueKeeps(s, p, uuid);
    StaysWatched(s, Apply(s, Continue(p, uuid)), p);
  }

  lemma ContinueKeeps(s: Server, p: Pid, uuid: Rid)
    requires Enabled(s, Continue(p, uuid)) && !Watching(s.handlers[p].pc) && !s.handlers[p].pc.CreateInsert?
    ensures var s' := Apply(s, Continue(p, uuid));
      && s'.handlers[p].webViewer == s.handlers[p].webViewer && s'.players - {p} == s.players - {p}
      && (p in s'.players <==> p in s.players)
      && (p in s.players ==> s'.players[p].nickname == s.players[p].nickname)
      && s'.rooms.Keys <= s.rooms.Keys
      && forall r :: r in s'.rooms ==> s'.rooms[r].host == s.rooms[r].host
  {
    if s.handlers[p].pc.JoinCommit? || s.handlers[p].pc.CreateLink? {
      ContinueKeepsEntry(s, p, uuid);
    } else {
      ContinueKeepsRooms(s, p, uuid);
    }
  }

  lemma ContinueKeepsEntry(s: Server, p: Pid, uuid: Rid)
    requires Enabled(s, Continue(p, uuid)) && (s.handlers[p].pc.JoinCommit? || s.handlers[p].pc.CreateLink?)
    ensures var s' := Apply(s, Continue(p, uuid));
      && s'.handlers[p].webViewer == s.handlers[p].webViewer && s'.players - {p} == s.players - {p}
      && (p in s'.players <==> p in s.players)
      && (p in s.players ==> s'.players[p].nickname == s.players[p].nickname)
      && s'.rooms == s.rooms
  {
  }

  lemma ContinueKeepsRooms(s: Server, p: Pid, uuid: Rid)
    requires Enabled(s, Continue(p, uuid)) && !Watching(s.handlers[p].pc)
    requires !s.handlers[p].pc.CreateInsert? && !s.handlers[p].pc.JoinCommit? && !s.handlers[p].pc.CreateLink?
    ensures var s' := Apply(s, Continue(p, uuid));
      && s'.handlers[p].webViewer == s.handlers[p].webViewer && s'.players == s.players
      && s'.rooms.Keys <= s.rooms.Keys
      && forall r :: r in s'.rooms ==> s'.rooms[r].host == s.rooms[r].host
  {
    var pc := s.handlers[p].pc;
    if !pc.CloseRemove? && !pc.JoinReserve? && !pc.JoinRelease? {
      ContinueKeepsMaps(s, p, uuid);
    }
  }

  lemma ContinueKeepsMaps(s: Server, p: Pid, uuid: Rid)
    requires Enabled(s, Continue(p, uuid))
    requires var pc := s.handlers[p].pc;
             pc.CreateCheckCap? || pc.JoinReadPlayers? || pc.JoinUpnp? || pc.JoinBind? || pc.Broadcasting?
    ensures var s' := Apply(s, Continue(p, uuid));
      s'.handlers[p].webViewer == s.handlers[p].webViewer && s'.players == s.players && s'.rooms == s.rooms
  {
  }

  lemma BroadcastWatched(s: Server, p: Pid, uuid: Rid)
    requires Viewers(s) && Enabled(s, Continue(p, uuid)) && s.handlers[p].pc.Broadcasting?
    ensures Viewers(Apply(s, Continue(p, uuid)))
  {
    assert ViewerFits(s, p);
    StaysWatched(s, Apply(s, Continue(p, uuid)), p);
  }

  /** A viewer that asks to create, close or join is ignored. */
  lemma RequestWatched(s: Server, st: Step)
    requires Viewers(s) && Enabled(s, st) && (st.CreateRoom? || st.CloseRoom? || st.JoinRoom?)
    ensures Viewers(Apply(s, st))
  {
    assert ViewerFits(s, st.p);
    StaysWatched(s, Apply(s, st), st.p);
  }

  lemma CancelWatched(s: Server, p: Pid)
    requires Viewers(s) && Enabled(s, Cancel(p))
    ensures Viewers(Apply(s, Cancel(p)))
  {
    assert ViewerFits(s, p);
    StaysWatched(s, Apply(s, Cancel(p)), p);
  }

  lemma LeaveWatched(s: Server, p: Pid)
    requires Viewers(s) && Enabled(s, Leave(p))
    ensures Viewers(Apply(s, Leave(p)))
  {
    assert ViewerFits(s, p);
    StaysWatched(s, Apply(s, Leave(p)), p);
  }

  lemma HeartbeatWatched(s: Server, p: Pid)
    requires Viewers(s) && Enabled(s, Heartbeat(p))
    ensures Viewers(Apply(s, Heartbeat(p)))
  {
    assert ViewerFits(s, p);
    StaysWatched(s, Apply(s, Heartbeat(p)), p);
  }

  lemma SweepWatched(s: Server)
    requires Viewers(s) && Hosting.Inv(s) && s.cleaner.Sweeping?
    ensures Viewers(ApplySweep(s))
  {
    if s.cleaner.todo != [] && s.cleaner.todo[0] in s.players {
      var p := s.cleaner.todo[0];
      assert ViewerFits(s, p);
      StaysWatched(s, ApplySweep(s), p);
    } else {
      StaysWatchedAll(s, ApplySweep(s));
    }
  }

  lemma StepWatched(s: Server, st: Step)
    requires Viewers(s) && Hosting.Inv(s) && Enabled(s, st)
    ensures Viewers(Apply(s, st))
  {
    match st {
      case Continue(p, uuid) =>
        var pc := s.handlers[p].pc;
        if pc.RegisterInsert? { EnterWatched(s, p, uuid); }
        else if pc.CreateInsert? { InsertWatched(s, p, uuid); }
        else if pc.Broadcasting? { BroadcastWatched(s, p, uuid); }
        else { PlayerWatched(s, p, uuid); }
      case Connect(p, ip) => ConnectWatched(s, p, ip);
      case Register(p, nickname, version) => RegisterWatched(s, p, nickname, version);
      case CreateRoom(_, _) => RequestWatched(s, st);
      case CloseRoom(_) => RequestWatched(s, st);
      case JoinRoom(_, _) => RequestWatched(s, st);
      case Cancel(p) => CancelWatched(s, p);
      case Leave(p) => LeaveWatched(s, p);
      case Heartbeat(p) => HeartbeatWatched(s, p);
      case Sweep => SweepWatched(s);
      case Scan(_) => StaysWatchedAll(s, Apply(s, st));
      case Clear => StaysWatchedAll(s, Apply(s, st));
      case Tick(_) => StaysWatchedAll(s, Apply(s, st));
    }
  }

  lemma {:induction false} ViewersRun(run: seq<Step>)
    requires Legal(run)
    ensures Viewers(After(run))
  {
    if run != [] {
      ViewersRun(Before(run));
      Runs.RunInv(Before(run));
      StepWatched(After(Before(run)), Last(run));
    }
  }

  /** Web viewers only watch: none ever hosts or joins a room. */
  lemma ViewersNeverPlay(run: seq<Step>, p: Pid)
    requires Legal(run) && p in After(run).players && "__web-viewer-" <= After(run).players[p].nickname
    ensures After(run).players[p].hostingRoom == None && After(run).players[p].joinedRoom == None
    ensures forall r :: r in After(run).rooms ==> After(run).rooms[r].host != p
  {
    ViewersRun(run);
    Runs.RunInv(run);
    var s := After(run);
    assert ViewerFits(s, p);
    forall r | r in s.rooms ensures s.rooms[r].host != p {
      assert RoomFits(s, r);
    }
  }
}
