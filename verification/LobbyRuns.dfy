/** The lobby's guarantees over every run: interleavings of any number of handlers, with
    cancellations anywhere and the cleanup task running throughout. */
module LobbyRuns {
  import opened Basics
  import opened LobbyState
  import opened Lobby
  import Seats = LobbySeats
  import Hosting = LobbyHosting

  lemma InitInv()
    ensures Seats.Inv(INIT) && Hosting.Inv(INIT)
  {
  }

  lemma {:induction false} RunInv(run: seq<Step>)
    requires Legal(run)
    ensures Seats.Inv(After(run)) && Hosting.Inv(After(run))
  {
    if run == [] {
      InitInv();
    } else {
      RunInv(Before(run));
      Hosting.StepInv(After(Before(run)), Last(run));
      Seats.StepInv(After(Before(run)), Last(run));
    }
  }

  // ------------------------------------------------------------ cut-off joins

  /** A step cuts a join off: its handler is cancelled while it holds or owes a seat, or
      its player was removed before the seat could be recorded. */
  predicate CutsOff(s: Server, st: Step) {
    || (st.Cancel? && st.p in s.handlers && SeatOf(s.handlers[st.p].pc).Some?)
    || (st.Continue? && st.p in s.handlers && s.handlers[st.p].pc.JoinCommit? && st.p !in s.players)
  }

  /** The seat that is lost is one of room r. */
  predicate CutsSeat(s: Server, st: Step, r: Rid) {
    || (st.Cancel? && st.p in s.handlers && SeatOf(s.handlers[st.p].pc) == Some(r))
    || (st.Continue? && st.p in s.handlers && s.handlers[st.p].pc == JoinCommit(r) && st.p !in s.players)
  }

  ghost predicate EverCutSeat(run: seq<Step>, r: Rid)
    requires Legal(run)
    decreases |run|
  {
    run != [] && (EverCutSeat(Before(run), r) || CutsSeat(After(Before(run)), Last(run), r))
  }

  /** How many joins of room r the run cut off. */
  ghost function Cuts(run: seq<Step>, r: Rid): nat
    requires Legal(run)
    decreases |run|
  {
    if run == [] then 0
    else Cuts(Before(run), r) + Seats.One(CutsSeat(After(Before(run)), Last(run), r))
  }

  /** Each cut loses one seat of its room, and nothing else loses any. */
  lemma StepLoses(s: Server, st: Step, r: Rid)
    requires Enabled(s, st)
    ensures Lost(Apply(s, st), r) == Lost(s, r) + Seats.One(CutsSeat(s, st, r))
  {
    if !CutsOff(s, st) {
      LossOnlyByCutOff(s, st);
    } else if st.Continue? {
      GoneCommitLoses(s, st.p, st.uuid, r);
    }
  }

  lemma GoneCommitLoses(s: Server, p: Pid, uuid: Rid, r: Rid)
    requires Enabled(s, Continue(p, uuid)) && s.handlers[p].pc.JoinCommit? && p !in s.players
    ensures Lost(ApplyContinue(s, p, uuid), r) == Lost(s, r) + Seats.One(s.handlers[p].pc.room == r)
  {
  }

  lemma {:induction false} LostAreCuts(run: seq<Step>, r: Rid)
    requires Legal(run)
    ensures Lost(After(run), r) == Cuts(run, r)
    ensures EverCutSeat(run, r) <==> Cuts(run, r) > 0
  {
    if run != [] {
      LostAreCuts(Before(run), r);
      StepLoses(After(Before(run)), Last(run), r);
    }
  }

  lemma LossOnlyByCutOff(s: Server, st: Step)
    requires Enabled(s, st) && !CutsOff(s, st)
    ensures Apply(s, st).lost == s.lost
  {
    if st.Continue? {
      if s.handlers[st.p].pc.JoinCommit? {
        CommitLosesNothing(s, st.p, st.uuid);
      } else {
        OthersLoseNothing(s, st.p, st.uuid);
      }
    } else {
      RequestsLoseNothing(s, st);
    }
  }

  lemma RequestsLoseNothing(s: Server, st: Step)
    requires Enabled(s, st) && !st.Continue? && !CutsOff(s, st)
    ensures Apply(s, st).lost == s.lost
  {
    if st.Cancel? || st.Leave? || st.Sweep? {
      DeparturesLoseNothing(s, st);
    } else if st.Register? || st.CreateRoom? || st.CloseRoom? || st.JoinRoom? {
      MessagesLoseNothing(s, st);
    }
  }

  lemma DeparturesLoseNothing(s: Server, st: Step)
    requires Enabled(s, st) && (st.Cancel? || st.Leave? || st.Sweep?) && !CutsOff(s, st)
    ensures Apply(s, st).lost == s.lost
  {
  }

  lemma MessagesLoseNothing(s: Server, st: Step)
    requires Enabled(s, st) && (st.Register? || st.CreateRoom? || st.CloseRoom? || st.JoinRoom?)
    ensures Apply(s, st).lost == s.lost
  {
  }

  lemma CommitLosesNothing(s: Server, p: Pid, uuid: Rid)
    requires Enabled(s, Continue(p, uuid)) && s.handlers[p].pc.JoinCommit? && p in s.players
    ensures ApplyContinue(s, p, uuid).lost == s.lost
  {
  }

  lemma OthersLoseNothing(s: Server, p: Pid, uuid: Rid)
    requires Enabled(s, Continue(p, uuid)) && !s.handlers[p].pc.JoinCommit?
    ensures ApplyContinue(s, p, uuid).lost == s.lost
  {
    var pc := s.handlers[p].pc;
    if pc.JoinReserve? || pc.JoinRelease? || pc.JoinReadPlayers? || pc.JoinUpnp? || pc.JoinBind? {
      JoinLosesNothing(s, p, uuid);
    } else {
      LobbyLosesNothing(s, p, uuid);
    }
  }

  lemma JoinLosesNothing(s: Server, p: Pid, uuid: Rid)
    requires Enabled(s, Continue(p, uuid))
    requires var pc := s.handlers[p].pc;
             pc.JoinReserve? || pc.JoinRelease? || pc.JoinReadPlayers? || pc.JoinUpnp? || pc.JoinBind?
    ensures ApplyContinue(s, p, uuid).lost == s.lost
  {
  }

  lemma LobbyLosesNothing(s: Server, p: Pid, uuid: Rid)
    requires Enabled(s, Continue(p, uuid))
    requires var pc := s.handlers[p].pc;
             pc.RegisterInsert? || pc.CreateCheckCap? || pc.CreateInsert? || pc.CreateLink? || pc.CloseRemove? ||
             pc.Broadcasting?
    ensures ApplyContinue(s, p, uuid).lost == s.lost
  {
  }

  // ------------------------------------------------------------ the seat ledger

  /** Seat ledger: current_players is the host, the joiners shown in the player map, the
      reservations and departures in flight, and one seat for each join the run cut off. */
  lemma SeatLedger(run: seq<Step>, r: Rid)
    requires Legal(run) && r in After(run).rooms
    ensures var s := After(run);
            && s.rooms[r].currentPlayers ==
                 1 + |Seats.Joiners(s.players, r)| + |Seats.Holders(s.handlers, r)| + |Seats.Owing(s.handlers, r)|
                 + Seats.CleanerOwes(s.cleaner, r) + Cuts(run, r)
            && 1 <= s.rooms[r].currentPlayers <= s.rooms[r].maxPlayers <= 12
  {
    RunInv(run);
    LostAreCuts(run, r);
  }

  /** No saturating_add or saturating_sub ever saturates. */
  lemma NeverSaturates(run: seq<Step>, p: Pid)
    requires Legal(run) && p in After(run).handlers
    ensures var s, pc := After(run), After(run).handlers[p].pc;
            && (pc.JoinReserve? && SeatFree(s.rooms, pc.room) ==> s.rooms[pc.room].currentPlayers + 1 <= 12)
            && (forall r :: r in s.rooms && Owes(pc, r) ==> s.rooms[r].currentPlayers >= 2)
            && (forall r :: r in s.rooms && s.cleaner.Clearing? && s.cleaner.joined == Some(r) ==>
                  s.rooms[r].currentPlayers >= 2)
  {
    RunInv(run);
    var s := After(run);
    forall r | r in s.rooms && Owes(s.handlers[p].pc, r) ensures s.rooms[r].currentPlayers >= 2 {
      Seats.OwedSeat(s, p, r);
    }
  }

  /** Nothing in flight concerns room r. */
  ghost predicate Quiescent(s: Server, r: Rid) {
    && (forall p :: p in s.handlers ==> !Holds(s.handlers[p].pc, r) && !Owes(s.handlers[p].pc, r))
    && !(s.cleaner.Clearing? && s.cleaner.joined == Some(r))
  }

  /** A quiescent room counts its host, its joiners and the joins of it that were cut off;
      so it counts exactly host and joiners if and only if no join of it ever was. */
  lemma QuiescentCount(run: seq<Step>, r: Rid)
    requires Legal(run) && r in After(run).rooms && Quiescent(After(run), r)
    ensures var s := After(run); s.rooms[r].currentPlayers == 1 + |Seats.Joiners(s.players, r)| + Cuts(run, r)
    ensures var s := After(run);
            s.rooms[r].currentPlayers == 1 + |Seats.Joiners(s.players, r)| <==> !EverCutSeat(run, r)
  {
    SeatLedger(run, r);
    LostAreCuts(run, r);
    var s := After(run);
    assert Seats.Holders(s.handlers, r) == {} && Seats.Owing(s.handlers, r) == {};
  }

  ghost predicate NeverCutOff(run: seq<Step>)
    requires Legal(run)
    decreases |run|
  {
    run == [] || (NeverCutOff(Before(run)) && !CutsOff(After(Before(run)), Last(run)))
  }

  lemma {:induction false} NothingCut(run: seq<Step>, r: Rid)
    requires Legal(run) && NeverCutOff(run)
    ensures !EverCutSeat(run, r)
  {
    if run != [] {
      NothingCut(Before(run), r);
    }
  }

  /** With no mid-join removal or cancellation at all, every quiescent room counts 1 + its
      joiners. */
  lemma ExactCount(run: seq<Step>, r: Rid)
    requires Legal(run) && NeverCutOff(run) && r in After(run).rooms && Quiescent(After(run), r)
    ensures After(run).rooms[r].currentPlayers == 1 + |Seats.Joiners(After(run).players, r)|
  {
    NothingCut(run, r);
    QuiescentCount(run, r);
  }

  /** hosting_room names an existing room of that host, and no two rooms share a host. */
  lemma HostingRelation(run: seq<Step>)
    requires Legal(run)
    ensures var s := After(run);
            && (forall p :: p in s.players && s.players[p].hostingRoom.Some? ==>
                  Hosting.HostsIn(s.rooms, p, s.players[p].hostingRoom.value))
            && (forall r, q :: r in s.rooms && q in s.rooms && s.rooms[r].host == s.rooms[q].host ==> r == q)
  {
    RunInv(run);
  }

  // ------------------------------------------------------------ what one lock region changes

  lemma JoinHandlers(s: Server, p: Pid, uuid: Rid)
    requires Enabled(s, Continue(p, uuid))
    requires var pc := s.handlers[p].pc;
             pc.JoinReserve? || pc.JoinCommit? || pc.JoinRelease? || pc.JoinReadPlayers? || pc.JoinUpnp? || pc.JoinBind?
    ensures var s' := Apply(s, Continue(p, uuid));
            && p in s'.handlers && s'.handlers == s.handlers[p := s'.handlers[p]] && s'.cleaner == s.cleaner
            && s'.handlers[p].registered == s.handlers[p].registered
            && !s'.handlers[p].pc.CreateInsert? && !s'.handlers[p].pc.RegisterInsert?
  {
    if s.handlers[p].pc.JoinCommit? {
      CommitHandlers(s, p, uuid);
    }
  }

  lemma CommitHandlers(s: Server, p: Pid, uuid: Rid)
    requires Enabled(s, Continue(p, uuid)) && s.handlers[p].pc.JoinCommit?
    ensures var s' := ApplyContinue(s, p, uuid);
            && p in s'.handlers && s'.handlers == s.handlers[p := s'.handlers[p]] && s'.cleaner == s.cleaner
            && s'.handlers[p].registered == s.handlers[p].registered
            && (s'.handlers[p].pc.JoinRelease? || s'.handlers[p].pc.Broadcasting?)
  {
  }

  lemma OtherHandlers(s: Server, p: Pid, uuid: Rid)
    requires Enabled(s, Continue(p, uuid))
    requires var pc := s.handlers[p].pc;
             pc.RegisterInsert? || pc.CreateCheckCap? || pc.CreateInsert? || pc.CreateLink? || pc.CloseRemove? ||
             pc.Broadcasting?
    ensures var s' := Apply(s, Continue(p, uuid));
            && p in s'.handlers && s'.handlers == s.handlers[p := s'.handlers[p]] && s'.cleaner == s.cleaner
            && (s.handlers[p].pc.RegisterInsert? || s'.handlers[p].registered == s.handlers[p].registered)
            && (s'.handlers[p].pc.CreateInsert? ==> s.handlers[p].pc.CreateCheckCap?)
            && !s'.handlers[p].pc.RegisterInsert?
  {
  }

  /** Only the handler itself moves, and it reaches an insertion only from its check. */
  lemma ContinueHandlers(s: Server, p: Pid, uuid: Rid)
    requires Enabled(s, Continue(p, uuid))
    ensures var s' := Apply(s, Continue(p, uuid));
            && p in s'.handlers && s'.handlers == s.handlers[p := s'.handlers[p]] && s'.cleaner == s.cleaner
            && (s.handlers[p].pc.RegisterInsert? || s'.handlers[p].registered == s.handlers[p].registered)
            && (s'.handlers[p].pc.CreateInsert? ==> s.handlers[p].pc.CreateCheckCap?)
            && !s'.handlers[p].pc.RegisterInsert?
  {
    var pc := s.handlers[p].pc;
    if pc.JoinReserve? || pc.JoinCommit? || pc.JoinRelease? || pc.JoinReadPlayers? || pc.JoinUpnp? || pc.JoinBind? {
      JoinHandlers(s, p, uuid);
    } else {
      OtherHandlers(s, p, uuid);
    }
  }

  lemma ContinuePlayers(s: Server, p: Pid, uuid: Rid)
    requires Enabled(s, Continue(p, uuid))
    ensures var s' := Apply(s, Continue(p, uuid));
            && (forall q :: q != p ==> (q in s'.players <==> q in s.players))
            && (forall q :: q != p && q in s.players ==> s'.players[q] == s.players[q])
            && (!s.handlers[p].pc.RegisterInsert? ==> (p in s'.players <==> p in s.players))
            && (!s.handlers[p].pc.RegisterInsert? && p in s.players ==>
                  s'.players[p].disconnectedAt == s.players[p].disconnectedAt)
  {
  }

  lemma ContinueRooms(s: Server, p: Pid, uuid: Rid)
    requires Enabled(s, Continue(p, uuid))
    ensures var s', pc := Apply(s, Continue(p, uuid)), s.handlers[p].pc;
            && (forall r :: r in s.rooms && r != uuid && pc != CloseRemove(r) ==>
                  r in s'.rooms && s'.rooms[r].host == s.rooms[r].host)
            && (forall r :: r in s'.rooms ==> r in s.rooms || pc.CreateInsert?)
  {
  }

  // ------------------------------------------------------------ departed hosts

  /** p registered once and is now disconnected or removed. */
  predicate Departed(s: Server, p: Pid) {
    p in s.handlers && s.handlers[p].registered && !Online(s.players, p)
  }

  lemma DepartedStep(s: Server, st: Step, p: Pid)
    requires Hosting.Inv(s) && Enabled(s, st) && Departed(s, p)
    ensures Departed(Apply(s, st), p)
  {
    if st.Continue? {
      DepartedContinue(s, st.p, st.uuid, p);
    } else if st.Connect? || st.Register? || st.CreateRoom? || st.JoinRoom? || st.Cancel? {
      DepartedPositions(s, st, p);
    } else {
      DepartedEntries(s, st, p);
    }
  }

  lemma DepartedContinue(s: Server, q: Pid, uuid: Rid, p: Pid)
    requires Hosting.Inv(s) && Enabled(s, Continue(q, uuid)) && Departed(s, p)
    ensures Departed(Apply(s, Continue(q, uuid)), p)
  {
    ContinueHandlers(s, q, uuid);
    ContinuePlayers(s, q, uuid);
  }

  /** Steps that only move one handler. */
  lemma DepartedPositions(s: Server, st: Step, p: Pid)
    requires Enabled(s, st) && Departed(s, p)
    requires st.Connect? || st.Register? || st.CreateRoom? || st.JoinRoom? || st.Cancel?
    ensures Departed(Apply(s, st), p)
  {
  }

  /** Steps that change or remove entries of the player map. */
  lemma DepartedEntries(s: Server, st: Step, p: Pid)
    requires Enabled(s, st) && Departed(s, p)
    requires st.Heartbeat? || st.CloseRoom? || st.Leave? || st.Scan? || st.Sweep? || st.Clear? || st.Tick?
    ensures Departed(Apply(s, st), p)
  {
  }

  /** At some moment of the run p was disconnected or removed. */
  ghost predicate EverDeparted(run: seq<Step>, p: Pid)
    requires Legal(run)
    decreases |run|
  {
    Departed(After(run), p) || (run != [] && EverDeparted(Before(run), p))
  }

  lemma {:induction false} DepartedForGood(run: seq<Step>, p: Pid)
    requires Legal(run) && EverDeparted(run, p)
    ensures Departed(After(run), p)
  {
    if !Departed(After(run), p) {
      DepartedForGood(Before(run), p);
      RunInv(Before(run));
      DepartedStep(After(Before(run)), Last(run), p);
    }
  }

  /** Departed hosts stay gone: once p was disconnected or removed, its rooms are in no
      later snapshot, and no join of one of its rooms gets past its player check. */
  lemma DepartedHostsStayGone(run: seq<Step>, p: Pid, r: Rid, joiner: Pid, uuid: Rid)
    requires Legal(run) && EverDeparted(run, p)
    ensures Hosting.HostsIn(After(run).rooms, p, r) ==> r !in VisibleRooms(After(run).players, After(run).rooms)
    ensures Enabled(After(run), Continue(joiner, uuid)) && After(run).handlers[joiner].pc.JoinReadPlayers? &&
              After(run).handlers[joiner].pc.host == p ==>
              Apply(After(run), Continue(joiner, uuid)).handlers[joiner].pc == Idle
  {
    DepartedForGood(run, p);
  }

  // ------------------------------------------------------------ soft caps

  function Pool(s: Server): set<Pid> {
    set p | p in s.handlers && Alive(s.handlers[p].pc)
  }

  function AtInsertRoom(s: Server): set<Pid> {
    set p | p in s.handlers && s.handlers[p].pc.CreateInsert?
  }

  function AtInsertPlayer(s: Server): set<Pid> {
    set p | p in s.handlers && s.handlers[p].pc.RegisterInsert?
  }

  ghost predicate PoolWithin(run: seq<Step>, n: nat)
    requires Legal(run)
    decreases |run|
  {
    |Pool(After(run))| <= n && (run == [] || PoolWithin(Before(run), n))
  }

  lemma Fewer<T>(a: set<T>, b: set<T>)
    requires a <= b
    ensures |a| <= |b|
  {
    if a != b {
      var x :| x in b && x !in a;
      Fewer(a, b - {x});
    }
  }

  /** Rooms present plus rooms about to be inserted. */
  ghost predicate RoomCap(s: Server, n: nat) {
    |s.rooms| + |AtInsertRoom(s)| <= MAX_TOTAL_ROOMS - 1 + n
  }

  ghost predicate PlayerCap(s: Server, n: nat) {
    |s.players| + |AtInsertPlayer(s)| <= MAX_TOTAL_PLAYERS - 1 + n
  }

  /** Handlers at a given kind of insertion, when only p's position changes. */
  lemma PcSets(s: Server, s': Server, p: Pid)
    requires p in s.handlers && p in s'.handlers && s'.handlers == s.handlers[p := s'.handlers[p]]
    ensures AtInsertRoom(s') == if s'.handlers[p].pc.CreateInsert? then AtInsertRoom(s) + {p} else AtInsertRoom(s) - {p}
    ensures AtInsertPlayer(s') ==
              if s'.handlers[p].pc.RegisterInsert? then AtInsertPlayer(s) + {p} else AtInsertPlayer(s) - {p}
  {
  }

  lemma CapContinue(s: Server, p: Pid, uuid: Rid, n: nat)
    requires Hosting.Inv(s) && Enabled(s, Continue(p, uuid)) && |Pool(Apply(s, Continue(p, uuid)))| <= n
    ensures RoomCap(s, n) ==> RoomCap(Apply(s, Continue(p, uuid)), n)
  {
    var s' := Apply(s, Continue(p, uuid));
    ContinueHandlers(s, p, uuid);
    ContinueRooms(s, p, uuid);
    PcSets(s, s', p);
    if s'.handlers[p].pc.CreateInsert? {
      Fewer(AtInsertRoom(s'), Pool(s'));
      CheckedCap(s, p, uuid);
    } else if s.handlers[p].pc.CreateInsert? {
      assert p in AtInsertRoom(s);
      assert s'.rooms.Keys <= s.rooms.Keys + {uuid};
      Fewer(s'.rooms.Keys, s.rooms.Keys + {uuid});
    } else {
      Fewer(s'.rooms.Keys, s.rooms.Keys);
      Fewer(AtInsertRoom(s'), AtInsertRoom(s));
    }
  }

  lemma CheckedCap(s: Server, p: Pid, uuid: Rid)
    requires Enabled(s, Continue(p, uuid)) && s.handlers[p].pc.CreateCheckCap?
    requires Apply(s, Continue(p, uuid)).handlers[p].pc.CreateInsert?
    ensures Apply(s, Continue(p, uuid)).rooms == s.rooms && |s.rooms| < MAX_TOTAL_ROOMS
  {
  }

  lemma PlayerCapContinue(s: Server, p: Pid, uuid: Rid, n: nat)
    requires Hosting.Inv(s) && Enabled(s, Continue(p, uuid)) && PlayerCap(s, n)
    ensures PlayerCap(Apply(s, Continue(p, uuid)), n)
  {
    var s' := Apply(s, Continue(p, uuid));
    ContinueHandlers(s, p, uuid);
    ContinuePlayers(s, p, uuid);
    PcSets(s, s', p);
    if s.handlers[p].pc.RegisterInsert? {
      assert p in AtInsertPlayer(s);
      Fewer(s'.players.Keys, s.players.Keys + {p});
    } else {
      Fewer(s'.players.Keys, s.players.Keys);
      Fewer(AtInsertPlayer(s'), AtInsertPlayer(s));
    }
  }

  /** Every other step leaves the insertion positions and the key sets no larger, except a
      registration that has just passed its own check. */
  lemma OtherKeys(s: Server, st: Step)
    requires Enabled(s, st) && !st.Continue?
    ensures Apply(s, st).rooms.Keys <= s.rooms.Keys && Apply(s, st).players.Keys <= s.players.Keys
  {
    if st.Leave? || st.Sweep? || st.Clear? {
      RemovalKeys(s, st);
    } else {
      RequestKeys(s, st);
    }
  }

  lemma RemovalKeys(s: Server, st: Step)
    requires Enabled(s, st) && (st.Leave? || st.Sweep? || st.Clear?)
    ensures Apply(s, st).rooms.Keys <= s.rooms.Keys && Apply(s, st).players.Keys <= s.players.Keys
  {
    if st.Leave? {
      LeaveKeys(s, st.p);
    }
  }

  lemma LeaveKeys(s: Server, p: Pid)
    requires Enabled(s, Leave(p))
    ensures ApplyLeave(s, p).rooms.Keys <= s.rooms.Keys && ApplyLeave(s, p).players.Keys <= s.players.Keys
  {
  }

  lemma RequestKeys(s: Server, st: Step)
    requires Enabled(s, st) && !st.Continue? && !st.Leave? && !st.Sweep? && !st.Clear?
    ensures Apply(s, st).rooms.Keys == s.rooms.Keys && Apply(s, st).players.Keys == s.players.Keys
  {
  }

  lemma OtherRoomPcs(s: Server, st: Step)
    requires Enabled(s, st) && !st.Continue?
    ensures AtInsertRoom(Apply(s, st)) <= AtInsertRoom(s)
  {
    forall p | p in AtInsertRoom(Apply(s, st)) ensures p in AtInsertRoom(s) {
      RoomPcKept(s, st, p);
    }
  }

  lemma RoomPcKept(s: Server, st: Step, p: Pid)
    requires Enabled(s, st) && !st.Continue? && p in AtInsertRoom(Apply(s, st))
    ensures p in s.handlers && s.handlers[p].pc.CreateInsert?
  {
    if st.Register? || st.CreateRoom? || st.CloseRoom? || st.JoinRoom? {
      RequestPcKept(s, st, p);
    } else if st.Connect? || st.Cancel? || st.Leave? {
      EdgePcKept(s, st, p);
    }
  }

  lemma RequestPcKept(s: Server, st: Step, p: Pid)
    requires Enabled(s, st) && (st.Register? || st.CreateRoom? || st.CloseRoom? || st.JoinRoom?)
    requires p in AtInsertRoom(Apply(s, st))
    ensures p in s.handlers && s.handlers[p].pc.CreateInsert?
  {
  }

  lemma EdgePcKept(s: Server, st: Step, p: Pid)
    requires Enabled(s, st) && (st.Connect? || st.Cancel? || st.Leave?)
    requires p in AtInsertRoom(Apply(s, st))
    ensures p in s.handlers && s.handlers[p].pc.CreateInsert?
  {
  }

  lemma OtherPlayerPcs(s: Server, st: Step)
    requires Enabled(s, st) && !st.Continue?
    ensures AtInsertPlayer(Apply(s, st)) <= AtInsertPlayer(s) || (st.Register? && |s.players| < MAX_TOTAL_PLAYERS)
  {
  }

  lemma CapsStep(s: Server, st: Step, n: nat)
    requires Hosting.Inv(s) && Enabled(s, st) && RoomCap(s, n) && PlayerCap(s, n) && |Pool(Apply(s, st))| <= n
    ensures RoomCap(Apply(s, st), n) && PlayerCap(Apply(s, st), n)
  {
    if st.Continue? {
      CapContinue(s, st.p, st.uuid, n);
      PlayerCapContinue(s, st.p, st.uuid, n);
    } else {
      var s' := Apply(s, st);
      OtherKeys(s, st);
      OtherRoomPcs(s, st);
      OtherPlayerPcs(s, st);
      Fewer(s'.rooms.Keys, s.rooms.Keys);
      Fewer(s'.players.Keys, s.players.Keys);
      Fewer(AtInsertRoom(s'), AtInsertRoom(s));
      if AtInsertPlayer(s') <= AtInsertPlayer(s) {
        Fewer(AtInsertPlayer(s'), AtInsertPlayer(s));
      } else {
        Fewer(AtInsertPlayer(s'), Pool(s'));
      }
    }
  }

  lemma {:induction false} CapsRun(run: seq<Step>, n: nat)
    requires Legal(run) && PoolWithin(run, n) && n > 0
    ensures RoomCap(After(run), n) && PlayerCap(After(run), n)
  {
    if run != [] {
      CapsRun(Before(run), n);
      RunInv(Before(run));
      CapsStep(After(Before(run)), Last(run), n);
    }
  }

  /** Check and insertion are separate lock regions, so the caps are soft: with at most n
      handlers at any time, they are overrun by at most n - 1. */
  lemma SoftCaps(run: seq<Step>, n: nat)
    requires Legal(run) && PoolWithin(run, n) && n > 0
    ensures |After(run).rooms| <= 199 + n && |After(run).players| <= 499 + n
  {
    CapsRun(run, n);
  }
}
