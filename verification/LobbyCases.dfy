/** Runs of the lobby that show what its guarantees leave open: a join that loses a seat, and
    soft caps overrun by exactly as much as the handlers allow. */
module LobbyCases {
  import opened Basics
  import opened LobbyState
  import opened Lobby
  import Runs = LobbyRuns
  import Seats = LobbySeats
  import Orphans = LobbyOrphans

  function Put(s: Server, p: Pid, h: Handler): Server {
    s.(handlers := s.handlers[p := h])
  }

  function Client(registered: bool, pc: Pc): Handler {
    Handler(0, registered, false, pc, None)
  }

  function Entry(goneAt: Option<nat>): Player {
    Player("", V127, 0, 0, None, None, goneAt)
  }

  // ------------------------------------------------------------ one handler's steps

  /** The run ends in s, with at most n live handlers all along and those of `pool` at the end. */
  ghost predicate Leads(run: seq<Step>, n: nat, pool: set<Pid>, s: Server) {
    Legal(run) && Runs.PoolWithin(run, n) && After(run) == s && Runs.Pool(s) <= pool && |pool| <= n
  }

  /** One more step, in which only handler p of the pool moves. */
  lemma Move(run: seq<Step>, n: nat, pool: set<Pid>, s: Server, st: Step, p: Pid) returns (run': seq<Step>)
    requires Leads(run, n, pool, s) && Enabled(s, st) && p in pool
    requires p in Apply(s, st).handlers && Apply(s, st).handlers == s.handlers[p := Apply(s, st).handlers[p]]
    ensures Leads(run', n, pool, Apply(s, st))
  {
    run' := run + [st];
    assert Before(run') == run;
    Runs.Fewer(Runs.Pool(Apply(s, st)), pool);
  }

  /** A new connection passes the registration check. */
  function Begun(s: Server, p: Pid): Server {
    Put(s, p, Client(false, RegisterInsert("", V127, 0)))
  }

  lemma Begin(run: seq<Step>, n: nat, pool: set<Pid>, s: Server, p: Pid) returns (run': seq<Step>)
    requires Leads(run, n, pool, s) && p in pool
    requires p !in s.handlers && |s.players| < MAX_TOTAL_PLAYERS && s.clock == 0
    ensures Leads(run', n, pool, Begun(s, p))
  {
    var s1 := Put(s, p, Client(false, Idle));
    assert Apply(s, Connect(p, 0)) == s1;
    run' := Move(run, n, pool, s, Connect(p, 0), p);
    assert Apply(s1, Register(p, "", V127)) == Begun(s, p);
    run' := Move(run', n, pool, s1, Register(p, "", V127), p);
  }

  /** It is inserted, whatever happened since the check. */
  function Entered(s: Server, p: Pid): Server {
    Put(s, p, Client(true, Idle)).(players := s.players[p := Entry(None)])
  }

  lemma Enter(run: seq<Step>, n: nat, pool: set<Pid>, s: Server, p: Pid, uuid: Rid) returns (run': seq<Step>)
    requires Leads(run, n, pool, s) && p in pool && uuid !in s.usedRooms
    requires p in s.handlers && s.handlers[p] == Client(false, RegisterInsert("", V127, 0))
    ensures Leads(run', n, pool, Entered(s, p))
  {
    var s1 := Put(s, p, Client(true, Broadcasting)).(players := s.players[p := Entry(None)]);
    assert Apply(s, Continue(p, uuid)) == s1;
    run' := Move(run, n, pool, s, Continue(p, uuid), p);
    assert Apply(s1, Continue(p, uuid)) == Entered(s, p);
    run' := Move(run', n, pool, s1, Continue(p, uuid), p);
  }

  /** It passes the room check. */
  function Checked(s: Server, p: Pid): Server {
    Put(s, p, Client(true, CreateInsert("", V127, 2)))
  }

  lemma Check(run: seq<Step>, n: nat, pool: set<Pid>, s: Server, p: Pid, uuid: Rid) returns (run': seq<Step>)
    requires Leads(run, n, pool, s) && p in pool && uuid !in s.usedRooms
    requires p in s.handlers && s.handlers[p] == Client(true, Idle)
    requires p in s.players && s.players[p] == Entry(None) && |s.rooms| < MAX_TOTAL_ROOMS
    ensures Leads(run', n, pool, Checked(s, p))
  {
    var s1 := Put(s, p, Client(true, CreateCheckCap("", V127, 2)));
    assert Apply(s, CreateRoom(p, 2)) == s1;
    run' := Move(run, n, pool, s, CreateRoom(p, 2), p);
    assert Apply(s1, Continue(p, uuid)) == Checked(s, p);
    run' := Move(run', n, pool, s1, Continue(p, uuid), p);
  }

  /** And inserts its room, however many there are by now. */
  function Inserted(s: Server, p: Pid, uuid: Rid): Server {
    Put(s, p, Client(true, CreateLink(uuid))).(
      rooms := s.rooms[uuid := Room(p, "", 2, 1, V127)], usedRooms := s.usedRooms + {uuid})
  }

  lemma Insert(run: seq<Step>, n: nat, pool: set<Pid>, s: Server, p: Pid, uuid: Rid) returns (run': seq<Step>)
    requires Leads(run, n, pool, s) && p in pool && uuid !in s.usedRooms
    requires p in s.handlers && s.handlers[p] == Client(true, CreateInsert("", V127, 2))
    ensures Leads(run', n, pool, Inserted(s, p, uuid))
  {
    assert Apply(s, Continue(p, uuid)) == Inserted(s, p, uuid);
    run' := Move(run, n, pool, s, Continue(p, uuid), p);
  }

  /** A registered connection that holds no seat ends; its entry stays for the grace period. */
  function Departed(s: Server, p: Pid): Server {
    Put(s, p, Client(true, Gone)).(players := s.players[p := Entry(Some(0))])
  }

  lemma Depart(run: seq<Step>, n: nat, pool: set<Pid>, s: Server, p: Pid) returns (run': seq<Step>)
    requires Leads(run, n, pool, s) && p in pool && s.clock == 0
    requires p in s.handlers && s.handlers[p] == Client(true, s.handlers[p].pc)
    requires s.handlers[p].pc.Idle? || s.handlers[p].pc.CreateLink?
    requires p in s.players && s.players[p] == Entry(None)
    ensures Leads(run', n, pool, Departed(s, p))
  {
    var s1 := Put(s, p, Client(true, Leaving));
    assert Apply(s, Cancel(p)) == s1;
    run' := Move(run, n, pool, s, Cancel(p), p);
    assert Apply(s1, Leave(p)) == Departed(s, p);
    run' := Move(run', n, pool, s1, Leave(p), p);
  }

  // ------------------------------------------------------------ a lost seat

  /** The host about to link room 7, and a guest. */
  function Table(guest: Handler, entry: Option<Player>, seats: nat): Server {
    var host := Player("host", V127, 0, 0, None, None, None);
    INIT.(players := if entry.Some? then map[0 := host, 1 := entry.value] else map[0 := host],
          handlers := map[0 := Handler(0, true, false, CreateLink(7), None), 1 := guest],
          rooms := map[7 := Room(0, "host", 2, seats, V127)], usedRooms := {7})
  }

  lemma GuestBegins() returns (run: seq<Step>)
    ensures Legal(run) && After(run) == Table(Client(false, RegisterInsert("", V127, 0)), None, 1)
  {
    run := Orphans.InsertedRun();
    run := Orphans.Extend(run, Connect(1, 0));
    run := Orphans.Extend(run, Register(1, "", V127));
  }

  lemma GuestEnters() returns (run: seq<Step>)
    ensures Legal(run) && After(run) == Table(Client(true, Idle), Some(Entry(None)), 1)
  {
    run := GuestBegins();
    run := Orphans.Extend(run, Continue(1, 0));
    run := Orphans.Extend(run, Continue(1, 0));
  }

  lemma GuestChecks() returns (run: seq<Step>)
    ensures Legal(run) && After(run) == Table(Client(true, JoinReserve(7)), Some(Entry(None)), 1)
  {
    run := GuestEnters();
    run := Orphans.Extend(run, JoinRoom(1, 7));
    run := Orphans.Extend(run, Continue(1, 0));
  }

  lemma SeatReserved() returns (run: seq<Step>)
    ensures Legal(run) && After(run) == Table(Client(true, JoinUpnp(7)), Some(Entry(None)), 2)
  {
    run := GuestChecks();
    run := Orphans.Extend(run, Continue(1, 0));
  }

  /** The plain count can fail: a joiner's connection ends with a seat in hand, and the room
      stays full for good with nobody in it but its host. */
  lemma SeatCanBeLost() returns (run: seq<Step>)
    ensures Legal(run) && 7 in After(run).rooms && Runs.Quiescent(After(run), 7)
    ensures After(run).rooms[7].currentPlayers == 2 == After(run).rooms[7].maxPlayers
    ensures Seats.Joiners(After(run).players, 7) == {}
  {
    run := SeatReserved();
    run := Orphans.Extend(run, Cancel(1));
  }

  // ------------------------------------------------------------ soft caps that are overrun

  predicate Between(i: nat, lo: nat, hi: nat) { lo <= i < hi }

  function Ids(lo: nat, hi: nat): set<nat> {
    set i: nat | lo <= i < hi && Between(i, lo, hi)
  }

  lemma {:induction false} IdsCount(lo: nat, hi: nat)
    requires lo <= hi
    ensures |Ids(lo, hi)| == hi - lo
    decreases hi
  {
    if lo < hi {
      IdsCount(lo, hi - 1);
      assert Ids(lo, hi) == Ids(lo, hi - 1) + {hi - 1};
    } else {
      assert Ids(lo, hi) == {};
    }
  }

  /** k players have come and gone, the first m of them leaving a room behind. */
  ghost predicate Deserted(s: Server, k: nat, m: nat) {
    && s.clock == 0
    && s.handlers.Keys == Ids(0, k) && s.players.Keys == Ids(0, k)
    && s.rooms.Keys == Ids(0, m) && s.usedRooms == Ids(0, m)
    && forall p :: p in s.handlers ==> s.handlers[p].pc.Gone?
  }

  lemma DesertedSize(s: Server, k: nat, m: nat)
    requires Deserted(s, k, m)
    ensures k !in s.handlers && m !in s.usedRooms && |s.players| == k && |s.rooms| == m && s.clock == 0
  {
    KeyCount(s.players, k);
    KeyCount(s.rooms, m);
    assert !Between(k, 0, k) && !Between(m, 0, m);
  }

  lemma NextId(k: nat)
    ensures Ids(0, k + 1) == Ids(0, k) + {k}
  {
    assert forall i: nat :: Between(i, 0, k + 1) <==> Between(i, 0, k) || i == k;
  }

  /** What one more visitor leaves behind. */
  lemma DesertedVisit(s: Server, k: nat, m: nat)
    requires Deserted(s, k, m)
    ensures Deserted(Departed(s, k), k + 1, m)
  {
    NextId(k);
  }

  lemma DesertedRoom(s: Server, k: nat, m: nat)
    requires Deserted(s, k, m)
    ensures Deserted(Left(s, k, m), k + 1, m + 1)
  {
    NextId(k);
    NextId(m);
  }

  lemma KeyCount<T>(m: map<nat, T>, k: nat)
    requires m.Keys == Ids(0, k)
    ensures |m| == k
  {
    IdsCount(0, k);
    assert |m| == |m.Keys|;
  }

  lemma Arrive(run: seq<Step>, n: nat, s: Server, k: nat, uuid: Rid) returns (run': seq<Step>)
    requires Leads(run, n, {k}, s) && uuid !in s.usedRooms
    requires k !in s.handlers && |s.players| < MAX_TOTAL_PLAYERS && s.clock == 0
    ensures Leads(run', n, {k}, Entered(s, k))
  {
    run' := Begin(run, n, {k}, s, k);
    run' := Enter(run', n, {k}, Begun(s, k), k, uuid);
    assert Entered(Begun(s, k), k) == Entered(s, k);
  }

  lemma Visit(run: seq<Step>, n: nat, s: Server, k: nat, uuid: Rid) returns (run': seq<Step>)
    requires Leads(run, n, {k}, s) && uuid !in s.usedRooms
    requires k !in s.handlers && |s.players| < MAX_TOTAL_PLAYERS && s.clock == 0
    ensures Leads(run', n, {k}, Departed(s, k))
  {
    run' := Arrive(run, n, s, k, uuid);
    run' := Depart(run', n, {k}, Entered(s, k), k);
    DepartedInTheEnd(s, k);
  }

  lemma DepartedInTheEnd(s: Server, k: Pid)
    ensures Departed(Entered(s, k), k) == Departed(s, k)
  {
  }

  /** The same, leaving a room behind. */
  function Left(s: Server, k: Pid, uuid: Rid): Server {
    Departed(s, k).(rooms := s.rooms[uuid := Room(k, "", 2, 1, V127)], usedRooms := s.usedRooms + {uuid})
  }

  lemma Create(run: seq<Step>, n: nat, s: Server, k: nat, uuid: Rid) returns (run': seq<Step>)
    requires Leads(run, n, {k}, s) && uuid !in s.usedRooms && |s.rooms| < MAX_TOTAL_ROOMS
    requires k in s.handlers && s.handlers[k] == Client(true, Idle) && k in s.players && s.players[k] == Entry(None)
    ensures Leads(run', n, {k}, Inserted(s, k, uuid))
  {
    run' := Check(run, n, {k}, s, k, uuid);
    run' := Insert(run', n, {k}, Checked(s, k), k, uuid);
    InsertedInTheEnd(s, k, uuid);
  }

  lemma InsertedInTheEnd(s: Server, k: Pid, uuid: Rid)
    ensures Inserted(Checked(s, k), k, uuid) == Inserted(s, k, uuid)
  {
  }

  lemma VisitWithRoom(run: seq<Step>, n: nat, s: Server, k: nat, uuid: Rid) returns (run': seq<Step>)
    requires Leads(run, n, {k}, s) && uuid !in s.usedRooms && |s.rooms| < MAX_TOTAL_ROOMS
    requires k !in s.handlers && |s.players| < MAX_TOTAL_PLAYERS && s.clock == 0
    ensures Leads(run', n, {k}, Left(s, k, uuid))
  {
    run' := Arrive(run, n, s, k, uuid);
    run' := Create(run', n, Entered(s, k), k, uuid);
    LeftInTheEnd(s, k, uuid);
    run' := Depart(run', n, {k}, Inserted(Entered(s, k), k, uuid), k);
  }

  lemma LeftInTheEnd(s: Server, k: Pid, uuid: Rid)
    ensures Departed(Inserted(Entered(s, k), k, uuid), k) == Left(s, k, uuid)
  {
  }

  /** When nobody is live, any small pool will do. */
  lemma AnyPool(run: seq<Step>, n: nat, pool: set<Pid>, s: Server, k: nat, m: nat, next: set<Pid>)
    requires Leads(run, n, pool, s) && Deserted(s, k, m) && |next| <= n
    ensures Leads(run, n, next, s)
  {
    assert Runs.Pool(s) == {};
  }

  lemma ComeAndGo(run: seq<Step>, n: nat, s: Server, k: nat, m: nat) returns (run': seq<Step>, s': Server)
    requires Leads(run, n, {}, s) && n > 0 && Deserted(s, k, m) && k < MAX_TOTAL_PLAYERS
    ensures Leads(run', n, {}, s') && Deserted(s', k + 1, m)
  {
    s' := Departed(s, k);
    DesertedSize(s, k, m);
    AnyPool(run, n, {}, s, k, m, {k});
    run' := Visit(run, n, s, k, m);
    DesertedVisit(s, k, m);
    AnyPool(run', n, {k}, s', k + 1, m, {});
  }

  lemma ComeAndLeaveRoom(run: seq<Step>, n: nat, s: Server, k: nat, m: nat) returns (run': seq<Step>, s': Server)
    requires Leads(run, n, {}, s) && n > 0 && Deserted(s, k, m) && k < MAX_TOTAL_PLAYERS && m < MAX_TOTAL_ROOMS
    ensures Leads(run', n, {}, s') && Deserted(s', k + 1, m + 1)
  {
    s' := Left(s, k, m);
    DesertedSize(s, k, m);
    AnyPool(run, n, {}, s, k, m, {k});
    run' := VisitWithRoom(run, n, s, k, m);
    DesertedRoom(s, k, m);
    AnyPool(run', n, {k}, s', k + 1, m + 1, {});
  }

  lemma NobodyYet(n: nat)
    ensures Leads([], n, {}, INIT) && Deserted(INIT, 0, 0)
  {
    assert Runs.Pool(INIT) == {} && Ids(0, 0) == {};
  }

  lemma {:induction false} DesertedRooms(n: nat, k: nat) returns (run: seq<Step>, s: Server)
    requires n > 0 && k < MAX_TOTAL_ROOMS
    ensures Leads(run, n, {}, s) && Deserted(s, k, k)
  {
    if k == 0 {
      run, s := [], INIT;
      NobodyYet(n);
    } else {
      run, s := DesertedRooms(n, k - 1);
      run, s := ComeAndLeaveRoom(run, n, s, k - 1, k - 1);
    }
  }

  lemma {:induction false} DesertedRun(n: nat, k: nat) returns (run: seq<Step>, s: Server)
    requires n > 0 && MAX_TOTAL_ROOMS - 1 <= k < MAX_TOTAL_PLAYERS
    ensures Leads(run, n, {}, s) && Deserted(s, k, MAX_TOTAL_ROOMS - 1)
    decreases k
  {
    if k == MAX_TOTAL_ROOMS - 1 {
      run, s := DesertedRooms(n, k);
    } else {
      run, s := DesertedRun(n, k - 1);
      run, s := ComeAndGo(run, n, s, k - 1, MAX_TOTAL_ROOMS - 1);
    }
  }

  /** There are m rooms: of the connections from number 499 on, those below 300 + m have
      inserted one, those below `entered` have passed the room check, and those below `begun`
      the player check. */
  ghost predicate Crowd(s: Server, m: nat, entered: nat, begun: nat) {
    && 499 <= 300 + m <= entered <= begun && s.clock == 0
    && s.handlers.Keys == Ids(0, begun) && s.players.Keys == Ids(0, entered)
    && s.rooms.Keys == s.usedRooms == Ids(0, m)
    && forall p :: p in s.handlers ==> InPlace(s.handlers[p], p, m, entered)
  }

  predicate InPlace(h: Handler, p: Pid, m: nat, entered: nat) {
    if p < 499 then h.pc.Gone?
    else if p < 300 + m then h.pc.CreateLink?
    else if p < entered then h == Client(true, CreateInsert("", V127, 2))
    else h == Client(false, RegisterInsert("", V127, 0))
  }

  /** The pool of the last n connections. */
  lemma CrowdPool(run: seq<Step>, n: nat, s: Server)
    requires Leads(run, n, {}, s)
    ensures Leads(run, n, Ids(499, 499 + n), s)
  {
    IdsCount(499, 499 + n);
  }

  lemma CrowdBegins(s: Server, p: Pid)
    requires Crowd(s, 199, 499, p)
    ensures Crowd(Begun(s, p), 199, 499, p + 1)
    ensures p !in s.handlers && |s.players| == 499 && s.clock == 0
  {
    CrowdSize(s, 199, 499, p);
    NextId(p);
    assert !Between(p, 0, p);
  }

  lemma CrowdEnters(s: Server, p: Pid, begun: nat)
    requires Crowd(s, 199, p, begun) && p < begun
    ensures Crowd(Checked(Entered(s, p), p), 199, p + 1, begun)
    ensures p in s.handlers && s.handlers[p] == Client(false, RegisterInsert("", V127, 0))
    ensures |s.rooms| == 199 && 199 !in s.usedRooms
  {
    CrowdSize(s, 199, p, begun);
    NextId(p);
    assert InPlace(s.handlers[p], p, 199, p);
    assert !Between(199, 0, 199);
    assert Between(p, 0, begun);
  }

  lemma InsertReady(s: Server, m: nat, entered: nat, begun: nat)
    requires Crowd(s, m, entered, begun) && 300 + m < entered
    ensures 300 + m in s.handlers && s.handlers[300 + m] == Client(true, CreateInsert("", V127, 2)) && m !in s.usedRooms
  {
    assert Between(300 + m, 0, begun) && !Between(m, 0, m);
    assert InPlace(s.handlers[300 + m], 300 + m, m, entered);
  }

  lemma CrowdInserts(s: Server, m: nat, entered: nat, begun: nat)
    requires Crowd(s, m, entered, begun) && 300 + m < entered
    ensures Crowd(Inserted(s, 300 + m, m), m + 1, entered, begun)
  {
    NextId(m);
    assert Between(300 + m, 0, begun);
  }

  lemma CrowdSize(s: Server, m: nat, entered: nat, begun: nat)
    requires Crowd(s, m, entered, begun)
    ensures |s.players| == entered && |s.rooms| == m
  {
    KeyCount(s.players, entered);
    KeyCount(s.rooms, m);
  }

  lemma DesertedCrowd(s: Server)
    requires Deserted(s, 499, 199)
    ensures Crowd(s, 199, 499, 499)
  {
  }

  lemma EnterAndCheck(run: seq<Step>, n: nat, pool: set<Pid>, s: Server, p: Pid, uuid: Rid) returns (run': seq<Step>)
    requires Leads(run, n, pool, s) && p in pool && uuid !in s.usedRooms && |s.rooms| < MAX_TOTAL_ROOMS
    requires p in s.handlers && s.handlers[p] == Client(false, RegisterInsert("", V127, 0))
    ensures Leads(run', n, pool, Checked(Entered(s, p), p))
  {
    run' := Enter(run, n, pool, s, p, uuid);
    run' := Check(run', n, pool, Entered(s, p), p, uuid);
  }

  /** The state in which the crowd has come so far, reached within the pool. */
  ghost predicate Reached(run: seq<Step>, n: nat, pool: set<Pid>, s: Server, m: nat, entered: nat, begun: nat) {
    Leads(run, n, pool, s) && Crowd(s, m, entered, begun)
  }

  lemma BeginNext(run: seq<Step>, n: nat, pool: set<Pid>, s: Server, p: Pid) returns (run': seq<Step>, s': Server)
    requires Reached(run, n, pool, s, 199, 499, p) && p < 499 + n && p in pool
    ensures Reached(run', n, pool, s', 199, 499, p + 1)
  {
    CrowdBegins(s, p);
    run' := Begin(run, n, pool, s, p);
    s' := Begun(s, p);
  }

  lemma EnterNext(run: seq<Step>, n: nat, pool: set<Pid>, s: Server, p: Pid) returns (run': seq<Step>, s': Server)
    requires Reached(run, n, pool, s, 199, p, 499 + n) && p < 499 + n && p in pool
    ensures Reached(run', n, pool, s', 199, p + 1, 499 + n)
  {
    CrowdEnters(s, p, 499 + n);
    run' := EnterAndCheck(run, n, pool, s, p, 199);
    s' := Checked(Entered(s, p), p);
  }

  lemma InsertNext(run: seq<Step>, n: nat, pool: set<Pid>, s: Server, m: nat) returns (run': seq<Step>, s': Server)
    requires Reached(run, n, pool, s, m, 499 + n, 499 + n) && m < 199 + n && 300 + m in pool
    ensures Reached(run', n, pool, s', m + 1, 499 + n, 499 + n)
  {
    InsertReady(s, m, 499 + n, 499 + n);
    run' := Insert(run, n, pool, s, 300 + m, m);
    s' := Inserted(s, 300 + m, m);
    CrowdInserts(s, m, 499 + n, 499 + n);
  }

  lemma NobodyBegun(n: nat) returns (run: seq<Step>, s: Server)
    requires n > 0
    ensures Reached(run, n, Ids(499, 499 + n), s, 199, 499, 499)
  {
    run, s := DesertedRun(n, 499);
    DesertedCrowd(s);
    CrowdPool(run, n, s);
  }

  /** All check the player cap before any is inserted, */
  lemma {:induction false} AllBegin(n: nat, j: nat) returns (run: seq<Step>, s: Server)
    requires n > 0 && j <= n
    ensures Reached(run, n, Ids(499, 499 + n), s, 199, 499, 499 + j)
  {
    if j == 0 {
      run, s := NobodyBegun(n);
    } else {
      run, s := AllBegin(n, j - 1);
      assert Between(498 + j, 499, 499 + n);
      run, s := BeginNext(run, n, Ids(499, 499 + n), s, 498 + j);
    }
  }

  /** then all are inserted and check the room cap before any inserts a room, */
  lemma {:induction false} AllEnter(n: nat, j: nat) returns (run: seq<Step>, s: Server)
    requires n > 0 && j <= n
    ensures Reached(run, n, Ids(499, 499 + n), s, 199, 499 + j, 499 + n)
  {
    if j == 0 {
      run, s := AllBegin(n, n);
    } else {
      run, s := AllEnter(n, j - 1);
      assert Between(498 + j, 499, 499 + n);
      run, s := EnterNext(run, n, Ids(499, 499 + n), s, 498 + j);
    }
  }

  /** then all insert one. */
  lemma {:induction false} AllInsert(n: nat, j: nat) returns (run: seq<Step>, s: Server)
    requires n > 0 && j <= n
    ensures Reached(run, n, Ids(499, 499 + n), s, 199 + j, 499 + n, 499 + n)
  {
    if j == 0 {
      run, s := AllEnter(n, n);
    } else {
      run, s := AllInsert(n, j - 1);
      assert Between(498 + j, 499, 499 + n);
      run, s := InsertNext(run, n, Ids(499, 499 + n), s, 198 + j);
    }
  }

  /** For every n both soft caps are met at once by a run with at most n live handlers. */
  lemma SoftCapsMet(n: nat) returns (run: seq<Step>)
    requires n > 0
    ensures Legal(run) && Runs.PoolWithin(run, n)
    ensures |After(run).rooms| == 199 + n && |After(run).players| == 499 + n
  {
    var s;
    run, s := AllInsert(n, n);
    CrowdSize(s, 199 + n, 499 + n, 499 + n);
  }
}
