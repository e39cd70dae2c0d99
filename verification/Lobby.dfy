/** The lobby as a state machine: one atomic step per lock region, a program counter per
    connection handler, cancellation between any two regions, and the cleanup task. */
module Lobby {
  import opened Basics
  import opened LobbyState

  /** Where a connection handler stands, with the locals it still needs. */
  datatype Pc =
    | Idle                                              // waiting for a message
    | RegisterInsert(nickname: string, version: Version, since: nat)
    | CreateCheckCap(nickname: string, version: Version, maxPlayers: nat)
    | CreateInsert(nickname: string, version: Version, maxPlayers: nat)
    | CreateLink(room: Rid)
    | CloseRemove(room: Rid)
    | JoinReadPlayers(room: Rid, host: Pid, roomVersion: Version)
    | JoinReserve(room: Rid)
    | JoinUpnp(room: Rid)                               // seat reserved from here
    | JoinBind(room: Rid)
    | JoinCommit(room: Rid)
    | JoinRelease(previous: Rid)
    | Broadcasting
    | Leaving                                           // the select! has ended
    | LeaveClear(hosting: Option<Rid>, joined: Option<Rid>)
    | Gone

  datatype Handler = Handler(ip: nat, registered: bool, webViewer: bool, pc: Pc, lastJoinAt: Option<nat>)

  datatype Cleaner =
    | Resting
    | Sweeping(todo: seq<Pid>)
    | Clearing(who: Pid, hosting: Option<Rid>, joined: Option<Rid>, todo: seq<Pid>)

  /** `lost` counts, per room, the seats whose reservation or release was cut off. */
  datatype Server = Server(players: Players, rooms: Rooms, handlers: map<Pid, Handler>, cleaner: Cleaner,
                           clock: nat, usedRooms: set<Rid>, lost: map<Rid, nat>)

  const INIT := Server(map[], map[], map[], Resting, 0, {}, map[])

  datatype Step =
    | Connect(p: Pid, ip: nat)
    | Register(p: Pid, nickname: string, version: Version)
    | Heartbeat(p: Pid)
    | CreateRoom(p: Pid, maxPlayers: nat)
    | CloseRoom(p: Pid)
    | JoinRoom(p: Pid, room: Rid)
    | Continue(p: Pid, uuid: Rid)    // next lock region; uuid is the UUID drawn for a room
    | Cancel(p: Pid)                  // the receive loop is dropped, wherever it is
    | Leave(p: Pid)
    | Scan(expired: seq<Pid>)
    | Sweep
    | Clear
    | Tick(seconds: nat)

  predicate Alive(pc: Pc) {
    !pc.Leaving? && !pc.LeaveClear? && !pc.Gone?
  }

  predicate Enabled(s: Server, st: Step) {
    match st
    case Connect(p, _) => p !in s.handlers
    case Register(p, _, _) => p in s.handlers && s.handlers[p].pc.Idle?
    case Heartbeat(p) => p in s.handlers && s.handlers[p].pc.Idle?
    case CreateRoom(p, max) => p in s.handlers && s.handlers[p].pc.Idle? && 2 <= max <= 12   // validate
    case CloseRoom(p) => p in s.handlers && s.handlers[p].pc.Idle?
    case JoinRoom(p, _) => p in s.handlers && s.handlers[p].pc.Idle?
    case Continue(p, uuid) =>
      p in s.handlers && Alive(s.handlers[p].pc) && !s.handlers[p].pc.Idle? && uuid !in s.usedRooms
    case Cancel(p) => p in s.handlers && Alive(s.handlers[p].pc)
    case Leave(p) => p in s.handlers && (s.handlers[p].pc.Leaving? || s.handlers[p].pc.LeaveClear?)
    case Scan(expired) => s.cleaner.Resting? && (set p | p in expired) == ExpiredPlayers(s.players, s.clock)
    case Sweep => s.cleaner.Sweeping?
    case Clear => s.cleaner.Clearing?
    case Tick(_) => true
  }

  function Lost(s: Server, r: Rid): nat {
    if r in s.lost then s.lost[r] else 0
  }

  function At(s: Server, p: Pid, pc: Pc): Server
    requires p in s.handlers
  {
    s.(handlers := s.handlers[p := s.handlers[p].(pc := pc)])
  }

  /** A finished join or another answered request; joins note the time for the cooldown. */
  function Joined(s: Server, p: Pid): Server
    requires p in s.handlers
  {
    s.(handlers := s.handlers[p := s.handlers[p].(pc := Broadcasting, lastJoinAt := Some(s.clock))])
  }

  function LoseSeat(s: Server, r: Rid): Server {
    s.(lost := s.lost[r := Lost(s, r) + 1])
  }

  /** The handler's join holds a reserved seat that no player entry shows yet. */
  predicate Holds(pc: Pc, r: Rid) {
    pc == JoinUpnp(r) || pc == JoinBind(r) || pc == JoinCommit(r)
  }

  /** A departure from r was decided but r has not been decremented. */
  predicate Owes(pc: Pc, r: Rid) {
    pc == JoinRelease(r) || (pc.LeaveClear? && pc.joined == Some(r))
  }

  function SeatOf(pc: Pc): Option<Rid> {
    match pc
    case JoinUpnp(r) => Some(r)
    case JoinBind(r) => Some(r)
    case JoinCommit(r) => Some(r)
    case JoinRelease(r) => Some(r)
    case _ => None
  }

  function Apply(s: Server, st: Step): Server
    requires Enabled(s, st)
  {
    match st
    case Connect(p, ip) => s.(handlers := s.handlers[p := Handler(ip, false, false, Idle, None)])
    case Register(p, nickname, version) => ApplyRegister(s, p, nickname, version)
    case Heartbeat(p) => s.(players := WithHeartbeat(s.players, p, s.clock))
    case CreateRoom(p, max) => ApplyCreate(s, p, max)
    case CloseRoom(p) => ApplyClose(s, p)
    case JoinRoom(p, room) => ApplyJoin(s, p, room)
    case Continue(p, uuid) => ApplyContinue(s, p, uuid)
    case Cancel(p) =>
      var seat := SeatOf(s.handlers[p].pc);
      var left := At(s, p, Leaving);
      if seat.Some? then LoseSeat(left, seat.value) else left
    case Leave(p) => ApplyLeave(s, p)
    case Scan(expired) => s.(cleaner := Sweeping(expired))
    case Sweep => ApplySweep(s)
    case Clear =>
      s.(rooms := AfterRemoval(s.rooms, s.cleaner.hosting, s.cleaner.joined), cleaner := Sweeping(s.cleaner.todo))
    case Tick(d) => s.(clock := s.clock + d)
  }

  function ApplyRegister(s: Server, p: Pid, nickname: string, version: Version): Server
    requires p in s.handlers
  {
    var h := s.handlers[p];
    if h.registered || |s.players| >= MAX_TOTAL_PLAYERS then s
    else s.(handlers := s.handlers[p := h.(webViewer := IsWebViewer(nickname),
                                           pc := RegisterInsert(nickname, version, s.clock))])
  }

  predicate MayPlay(h: Handler) {
    h.registered && !h.webViewer
  }

  function ApplyCreate(s: Server, p: Pid, max: nat): Server
    requires p in s.handlers
  {
    if !MayPlay(s.handlers[p]) || p !in s.players || s.players[p].hostingRoom.Some? then s
    else At(s, p, CreateCheckCap(s.players[p].nickname, s.players[p].version, max))
  }

  function ApplyClose(s: Server, p: Pid): Server
    requires p in s.handlers
  {
    if !MayPlay(s.handlers[p]) || p !in s.players || s.players[p].hostingRoom.None? then s
    else
      At(s, p, CloseRemove(s.players[p].hostingRoom.value)).(players := WithHosting(s.players, p, None))
  }

  function ApplyJoin(s: Server, p: Pid, room: Rid): Server
    requires p in s.handlers
  {
    var h := s.handlers[p];
    if !MayPlay(h) || (h.lastJoinAt.Some? && s.clock - h.lastJoinAt.value < JOIN_COOLDOWN) || room !in s.rooms then s
    else At(s, p, JoinReadPlayers(room, s.rooms[room].host, s.rooms[room].version))
  }

  function ApplyContinue(s: Server, p: Pid, uuid: Rid): Server
    requires p in s.handlers && Alive(s.handlers[p].pc) && !s.handlers[p].pc.Idle?
  {
    var h := s.handlers[p];
    match h.pc
    case RegisterInsert(nickname, version, since) =>
      s.(players := s.players[p := Player(nickname, version, h.ip, since, None, None, None)],
         handlers := s.handlers[p := h.(registered := true, pc := Broadcasting)])
    case CreateCheckCap(nickname, version, max) =>
      At(s, p, if |s.rooms| >= MAX_TOTAL_ROOMS then Idle else CreateInsert(nickname, version, max))
    case CreateInsert(nickname, version, max) =>
      At(s, p, CreateLink(uuid)).(rooms := s.rooms[uuid := Room(p, nickname, max, 1, version)],
                                   usedRooms := s.usedRooms + {uuid})
    case CreateLink(room) => At(s, p, Broadcasting).(players := WithHosting(s.players, p, Some(room)))
    case CloseRemove(room) => At(s, p, Broadcasting).(rooms := s.rooms - {room})
    case JoinReadPlayers(room, host, version) =>
      At(s, p, if p in s.players && s.players[p].version == version && Online(s.players, host)
               then JoinReserve(room) else Idle)
    case JoinReserve(room) =>
      if SeatFree(s.rooms, room) then At(s, p, JoinUpnp(room)).(rooms := WithSeatTaken(s.rooms, room))
      else At(s, p, Idle)
    case JoinUpnp(room) => At(s, p, JoinBind(room))
    case JoinBind(room) => At(s, p, JoinCommit(room))
    case JoinCommit(room) =>
      if p !in s.players then LoseSeat(Joined(s, p), room)
      else
        var previous := s.players[p].joinedRoom;
        var moved := s.(players := WithJoined(s.players, p, room));
        if previous.Some? then At(moved, p, JoinRelease(previous.value)) else Joined(moved, p)
    case JoinRelease(previous) => Joined(s, p).(rooms := WithSeatFreed(s.rooms, previous))
    case Broadcasting => At(s, p, Idle)
  }

  /** After the select!: grace period for players, immediate removal for web viewers. */
  function ApplyLeave(s: Server, p: Pid): Server
    requires p in s.handlers && (s.handlers[p].pc.Leaving? || s.handlers[p].pc.LeaveClear?)
  {
    var h := s.handlers[p];
    if h.pc.LeaveClear? then At(s, p, Gone).(rooms := AfterRemoval(s.rooms, h.pc.hosting, h.pc.joined))
    else if !h.registered then At(s, p, Gone)
    else if !h.webViewer then At(s, p, Gone).(players := Disconnected(s.players, p, s.clock))
    else if p !in s.players then At(s, p, Gone)
    else At(s, p, LeaveClear(s.players[p].hostingRoom, s.players[p].joinedRoom)).(players := s.players - {p})
  }

  function ApplySweep(s: Server): Server
    requires s.cleaner.Sweeping?
  {
    if s.cleaner.todo == [] then s.(cleaner := Resting)
    else
      var p, rest := s.cleaner.todo[0], s.cleaner.todo[1..];
      if p !in s.players then s.(cleaner := Sweeping(rest))
      else s.(players := s.players - {p},
              cleaner := Clearing(p, s.players[p].hostingRoom, s.players[p].joinedRoom, rest))
  }

  // ------------------------------------------------------------ runs

  function Before(run: seq<Step>): seq<Step>
    requires run != []
  {
    run[..|run| - 1]
  }

  function Last(run: seq<Step>): Step
    requires run != []
  {
    run[|run| - 1]
  }

  ghost predicate Legal(run: seq<Step>)
    decreases |run|, 0
  {
    run == [] || (Legal(Before(run)) && Enabled(After(Before(run)), Last(run)))
  }

  ghost function After(run: seq<Step>): Server
    requires Legal(run)
    decreases |run|, 1
  {
    if run == [] then INIT else Apply(After(Before(run)), Last(run))
  }
}
