/** The client's state machine over the network task's events, the tunnel's events and the
    user's clicks. */
module ClientSession {
  import opened Basics
  import opened ConnectionTask

  datatype Connection = Offline | Online | Retrying(attempt: nat)

  datatype Pending = Joining(room: nat) | JoinSuccess | JoinFailed | CreatingRoom | ServerError

  /** Commands handed to the network task, and tasks started. */
  datatype Effect =
    | SentRegister
    | SentJoin(room: nat)
    | SentCreate
    | SentClose
    | SpawnedJoiner(token: nat, peer: Option<nat>)
    | SpawnedHost(token: nat, peer: Option<nat>, observed: Option<nat>)
    | Injected(gameinfo: seq<Byte>)
    | PassedUpnpAddr

  datatype Tab = Lobby | Settings

  datatype Transport = Direct | Relayed

  /** What is on screen besides the lobby's data: the tab, the create dialog, the transport
      in use and the results of the connection strategies. */
  datatype Screen = Screen(tab: Tab, dialog: bool, transport: Option<Transport>, diagnostics: seq<nat>)

  datatype App = App(
    connection: Connection, everConnected: bool, playerId: Option<nat>,
    players: seq<PlayerEntry>, rooms: seq<Room>, pending: Option<Pending>,
    wizard: bool, nickname: Option<nat>, screen: Screen, observedIp: Option<nat>,
    tunnel: Option<nat>, upnpSender: bool, gameinfo: Option<seq<Byte>>, injecting: bool, peer: Option<nat>,
    log: seq<Effect>)

  function New(nickname: Option<nat>): App {
    App(Offline, false, None, [], [], None, nickname.None?, nickname, Screen(Lobby, false, None, []), None,
        None, false, None, false, None, [])
  }

  predicate IsHosting(a: App) {
    a.playerId.Some? && PlayerEntry(a.playerId.value, true) in a.players
  }

  predicate InFlight(p: Option<Pending>) {
    p.Some? && (p.value.Joining? || p.value.CreatingRoom?)
  }

  predicate IsJoining(p: Option<Pending>) { p.Some? && p.value.Joining? }

  function Cancelled(p: Option<Pending>): Option<Pending> {
    if InFlight(p) then Some(ServerError) else p
  }

  // --- process_network_events ---

  function Logged(a: App, e: Effect): App { a.(log := a.log + [e]) }

  function OnConnected(a: App): App {
    var b := a.(connection := Online, everConnected := true,
                pending := if a.pending == Some(ServerError) then None else a.pending);
    if b.playerId.None? && b.nickname.Some? then Logged(b, SentRegister) else b
  }

  function OnDisconnected(a: App): App {
    a.(connection := Offline, playerId := None, players := [], rooms := [], pending := Cancelled(a.pending))
  }

  function OnReconnecting(a: App, attempt: nat): App {
    a.(connection := Retrying(attempt), pending := Cancelled(a.pending))
  }

  function StartJoiner(a: App, token: nat, gi: seq<Byte>): App {
    a.(tunnel := Some(token), upnpSender := true, gameinfo := Some(gi), peer := None,
       screen := a.screen.(diagnostics := []), log := a.log + [SpawnedJoiner(token, a.peer)])
  }

  function StartHost(a: App, token: nat): App {
    a.(tunnel := Some(token), peer := None, screen := a.screen.(diagnostics := []),
       log := a.log + [SpawnedHost(token, a.peer, a.observedIp)])
  }

  function OnJoinResult(a: App, success: bool, token: Option<nat>, gi: Option<seq<Byte>>): App {
    if !IsJoining(a.pending) then a
    else if !success then a.(pending := Some(JoinFailed))
    else
      var b := a.(pending := Some(JoinSuccess));
      if token.Some? && gi.Some? then StartJoiner(b, token.value, gi.value) else b
  }

  function OnError(p: Option<Pending>): Option<Pending> {
    if IsJoining(p) then Some(JoinFailed)
    else if p.None? || p == Some(CreatingRoom) then Some(ServerError)
    else p
  }

  function OnMessage(a: App, m: Message): App {
    match m
    case Welcome(id) => a.(playerId := Some(id))
    case ObservedAddr(ip) => if ip.Some? then a.(observedIp := ip) else a
    case PlayerUpdate(players) => a.(players := players)
    case RoomUpdate(rooms) => a.(rooms := rooms, pending := if a.pending == Some(CreatingRoom) then None else a.pending)
    case JoinResult(success, token, gi) => OnJoinResult(a, success, token, gi)
    case PlayerJoined(token) => StartHost(a, token)
    case TunnelReady(token) => StartHost(a, token)
    case StunInfo(ip) => if ip.Some? then a.(peer := ip) else a
    case PeerUpnpAddr(safe) =>
      if safe && a.upnpSender then a.(upnpSender := false, log := a.log + [PassedUpnpAddr]) else a
    case ErrorMessage => a.(pending := OnError(a.pending))
    case Unknown => a
  }

  function OnEvent(a: App, e: NetEvent): App {
    match e
    case Connected => OnConnected(a)
    case Disconnected => OnDisconnected(a)
    case Reconnecting(n) => OnReconnecting(a, n)
    case FromServer(m) => OnMessage(a, m)
  }

  /** The events continue the language from phase p. */
  predicate Continues(p: Phase, events: seq<NetEvent>)
    decreases |events|
  {
    events == [] || (Follow(p, events[0]).Some? && Continues(Follow(p, events[0]).value, events[1..]))
  }

  function OnEvents(a: App, events: seq<NetEvent>): App
    decreases |events|
  {
    if events == [] then a else OnEvents(OnEvent(a, events[0]), events[1..])
  }

  // --- Tunnel events and the user ---

  /** GameinfoCaptured carries whether the capture found a game; `sent` is what
      send_or_warn answers. */
  datatype Input =
    | ProxyReady
    | TransportSelected(transport: Transport)
    | TransportUpgraded
    | StrategyResults(results: seq<nat>)
    | TunnelFinished
    | GameinfoCaptured(found: bool, sent: bool)
    | ClickJoin(room: Room, sent: bool)
    | ClickClose(sent: bool)
    | OpenDialog
    | CancelDialog
    | ClickCreate
    | Dismiss
    | SelectTab(tab: Tab)
    | FinishWizard(name: nat)
    | SetNickname(setting: Option<nat>)

  /** show_connection_overlay */
  predicate Overlay(a: App) {
    a.connection.Retrying? || (a.connection.Offline? && !a.everConnected)
  }

  predicate LobbyShown(a: App) { !a.wizard && a.screen.tab.Lobby? && !Overlay(a) }

  /** A room offers its join button when it is listed, not one's own and not full. */
  predicate Joinable(a: App, r: Room) {
    r in a.rooms && a.nickname != Some(r.host) && r.current < r.max
  }

  predicate Possible(a: App, i: Input) {
    match i
    case ClickJoin(r, _) => LobbyShown(a) && Joinable(a, r)
    case ClickClose(_) => LobbyShown(a) && IsHosting(a)
    case OpenDialog => LobbyShown(a) && !IsHosting(a)
    case CancelDialog => LobbyShown(a) && a.screen.dialog
    case ClickCreate => LobbyShown(a) && a.screen.dialog
    case Dismiss => LobbyShown(a) && a.pending.Some? && !InFlight(a.pending)
    case FinishWizard(_) => a.wizard
    case SelectTab(_) => !a.wizard
    case SetNickname(_) => !a.wizard && a.screen.tab.Settings?
    case _ => true
  }

  function OnProxyReady(a: App): App {
    if a.gameinfo.Some? && a.gameinfo.value != [] then
      a.(gameinfo := None, injecting := true, log := a.log + [Injected(a.gameinfo.value)])
    else a.(gameinfo := None, injecting := false)
  }

  function OnInput(a: App, i: Input): App {
    match i
    case ProxyReady => OnProxyReady(a)
    case TransportSelected(t) => a.(screen := a.screen.(transport := Some(t)))
    case TransportUpgraded => a.(screen := a.screen.(transport := Some(Direct)))
    case StrategyResults(results) => a.(screen := a.screen.(diagnostics := results))
    case TunnelFinished => a.(injecting := false, tunnel := None, screen := a.screen.(transport := None))
    case GameinfoCaptured(found, sent) =>
      if found && sent then Logged(a, SentCreate) else a.(pending := None)
    case ClickJoin(r, sent) => if sent then Logged(a.(pending := Some(Joining(r.id))), SentJoin(r.id)) else a
    case ClickClose(sent) => if sent then Logged(a, SentClose) else a
    case OpenDialog => a.(screen := a.screen.(dialog := true))
    case CancelDialog => a.(screen := a.screen.(dialog := false))
    case ClickCreate => a.(pending := Some(CreatingRoom), screen := a.screen.(dialog := false))
    case Dismiss => a.(pending := None)
    case FinishWizard(name) =>
      var b := a.(nickname := Some(name), wizard := false);
      if a.connection.Online? then Logged(b, SentRegister) else b
    case SelectTab(tab) => a.(screen := a.screen.(tab := tab))
    case SetNickname(name) => a.(nickname := name)
  }

  // --- What holds of the client alone ---

  datatype Tally = Tally(joins: nat, tunnels: nat, injections: nat, addrs: nat)

  function Add(t: Tally, e: Effect): Tally {
    match e
    case SentJoin(_) => t.(joins := t.joins + 1)
    case SpawnedJoiner(_, _) => t.(tunnels := t.tunnels + 1)
    case Injected(_) => t.(injections := t.injections + 1)
    case PassedUpnpAddr => t.(addrs := t.addrs + 1)
    case _ => t
  }

  function Count(log: seq<Effect>): Tally {
    if log == [] then Tally(0, 0, 0, 0) else Add(Count(log[..|log| - 1]), log[|log| - 1])
  }

  lemma CountSnoc(log: seq<Effect>, e: Effect)
    ensures Count(log + [e]) == Add(Count(log), e)
  {
    assert (log + [e])[..|log|] == log;
  }

  /** One step appends at most one effect. */
  predicate OneMore(before: seq<Effect>, log: seq<Effect>) {
    log == before || (|log| == |before| + 1 && log[..|before|] == before)
  }

  function Grown(t: Tally, before: seq<Effect>, log: seq<Effect>): Tally {
    if |log| <= |before| then t else Add(t, log[|log| - 1])
  }

  lemma CountGrown(before: seq<Effect>, log: seq<Effect>)
    requires OneMore(before, log)
    ensures Count(log) == Grown(Count(before), before, log)
  {
    if |log| > |before| {
      assert log == before + [log[|log| - 1]];
      CountSnoc(before, log[|log| - 1]);
    }
  }

  function One(b: bool): nat { if b then 1 else 0 }

  /** Joins pay for joiner tunnels; each joiner tunnel pays for one injection and for one
      UPnP address. */
  predicate Paid(t: Tally, joining: bool, gameinfo: bool, upnpSender: bool) {
    && t.tunnels + One(joining) <= t.joins
    && t.injections + One(gameinfo) <= t.tunnels
    && t.addrs + One(upnpSender) <= t.tunnels
  }

  predicate Pays(a: App, t: Tally) {
    Paid(t, IsJoining(a.pending), a.gameinfo.Some?, a.upnpSender)
  }

  /** Nothing of a session outlives it. */
  ghost predicate Fresh(a: App) {
    && (a.connection.Online? || (a.playerId.None? && a.players == [] && a.rooms == []))
    && (a.connection.Online? ==> a.everConnected)
    && (IsJoining(a.pending) ==> a.connection.Online?)
    && (InFlight(a.pending) ==> !Overlay(a))
  }

  ghost predicate AppInv(a: App) { Pays(a, Count(a.log)) && Fresh(a) }

  /** The client's position in the event language. */
  function PhaseOf(a: App): Phase {
    match a.connection
    case Online => Live
    case Retrying(_) => Idle
    case Offline => if a.everConnected then Dropped else Idle
  }

  /** A step adds at most one effect, keeps the books balanced, and starts a joiner
      tunnel only while a join is pending. */
  predicate Books(a: App, b: App, t: Tally) {
    && OneMore(a.log, b.log)
    && Pays(b, Grown(t, a.log, b.log))
    && (Grown(t, a.log, b.log).tunnels > t.tunnels ==> IsJoining(a.pending))
  }

  lemma JoinResultPays(a: App, success: bool, token: Option<nat>, gi: Option<seq<Byte>>, t: Tally)
    requires Pays(a, t)
    ensures Books(a, OnJoinResult(a, success, token, gi), t)
  {
  }

  lemma MessagePays(a: App, m: Message, t: Tally)
    requires Pays(a, t)
    ensures Books(a, OnMessage(a, m), t)
  {
    if m.JoinResult? {
      JoinResultPays(a, m.success, m.tunnelToken, m.gameinfo, t);
    }
  }

  lemma EventPays(a: App, e: NetEvent, t: Tally)
    requires Pays(a, t)
    ensures Books(a, OnEvent(a, e), t)
  {
    if e.FromServer? {
      MessagePays(a, e.message, t);
    }
  }

  lemma EventFresh(a: App, e: NetEvent)
    requires Fresh(a) && Follow(PhaseOf(a), e).Some?
    ensures Fresh(OnEvent(a, e)) && Follow(PhaseOf(a), e) == Some(PhaseOf(OnEvent(a, e)))
  {
  }

  lemma ProxyReadyPays(a: App, t: Tally)
    requires Pays(a, t)
    ensures Books(a, OnProxyReady(a), t)
  {
  }

  lemma ClickJoinPays(a: App, r: Room, sent: bool, t: Tally)
    requires Pays(a, t)
    ensures Books(a, OnInput(a, ClickJoin(r, sent)), t)
  {
  }

  lemma InputPays(a: App, i: Input, t: Tally)
    requires Pays(a, t)
    ensures Books(a, OnInput(a, i), t)
  {
    if i.ProxyReady? {
      ProxyReadyPays(a, t);
    } else if i.ClickJoin? {
      ClickJoinPays(a, i.room, i.sent, t);
    } else if i.FinishWizard? {
      FinishWizardPays(a, i.name, t);
    } else if i.GameinfoCaptured? {
      GameinfoCapturedPays(a, i.found, i.sent, t);
    } else if i.ClickClose? {
      ClickClosePays(a, i.sent, t);
    } else {
      ScreenPays(a, i, t);
    }
  }

  lemma FinishWizardPays(a: App, name: nat, t: Tally)
    requires Pays(a, t)
    ensures Books(a, OnInput(a, FinishWizard(name)), t)
  {
  }

  lemma GameinfoCapturedPays(a: App, found: bool, sent: bool, t: Tally)
    requires Pays(a, t)
    ensures Books(a, OnInput(a, GameinfoCaptured(found, sent)), t)
  {
  }

  lemma ClickClosePays(a: App, sent: bool, t: Tally)
    requires Pays(a, t)
    ensures Books(a, OnInput(a, ClickClose(sent)), t)
  {
  }

  lemma ScreenPays(a: App, i: Input, t: Tally)
    requires Pays(a, t)
    requires !i.ProxyReady? && !i.ClickJoin? && !i.GameinfoCaptured? && !i.FinishWizard? && !i.ClickClose?
    ensures Books(a, OnInput(a, i), t)
  {
  }

  lemma InputFresh(a: App, i: Input)
    requires Fresh(a) && Possible(a, i)
    ensures Fresh(OnInput(a, i)) && PhaseOf(OnInput(a, i)) == PhaseOf(a)
  {
  }

  lemma EventInv(a: App, e: NetEvent)
    requires AppInv(a) && Follow(PhaseOf(a), e).Some?
    ensures AppInv(OnEvent(a, e)) && Follow(PhaseOf(a), e) == Some(PhaseOf(OnEvent(a, e)))
  {
    EventPays(a, e, Count(a.log));
    CountGrown(a.log, OnEvent(a, e).log);
    EventFresh(a, e);
  }

  lemma InputInv(a: App, i: Input)
    requires AppInv(a) && Possible(a, i)
    ensures AppInv(OnInput(a, i)) && PhaseOf(OnInput(a, i)) == PhaseOf(a)
  {
    InputPays(a, i, Count(a.log));
    CountGrown(a.log, OnInput(a, i).log);
    InputFresh(a, i);
  }

  // --- The client and its network task ---

  /** The client has processed the first `taken` of the events sent. */
  datatype System = System(task: Task, taken: nat, app: App)

  datatype Action = Network(step: Step) | Take | User(input: Input)

  predicate CanAct(s: System, x: Action) {
    match x
    case Network(st) => Enabled(s.task, st)
    case Take => s.taken < |s.task.emitted|
    case User(i) => Possible(s.app, i)
  }

  function Act(s: System, x: Action): System
    requires CanAct(s, x)
  {
    match x
    case Network(st) => s.(task := Apply(s.task, st))
    case Take => s.(taken := s.taken + 1, app := OnEvent(s.app, s.task.emitted[s.taken]))
    case User(i) => s.(app := OnInput(s.app, i))
  }

  datatype Run = Run(nickname: Option<nat>, actions: seq<Action>)

  function Before(run: Run): Run
    requires run.actions != []
  {
    run.(actions := run.actions[..|run.actions| - 1])
  }

  function Last(run: Run): Action
    requires run.actions != []
  {
    run.actions[|run.actions| - 1]
  }

  function UpTo(run: Run, k: nat): Run
    requires k <= |run.actions|
  {
    run.(actions := run.actions[..k])
  }

  ghost predicate Legal(run: Run)
    decreases |run.actions|, 0
  {
    run.actions == [] || (Legal(Before(run)) && CanAct(After(Before(run)), Last(run)))
  }

  ghost function After(run: Run): System
    requires Legal(run)
    decreases |run.actions|, 1
  {
    if run.actions == [] then System(INIT, 0, New(run.nickname)) else Act(After(Before(run)), Last(run))
  }

  ghost predicate Inv(s: System) {
    && ConnectionTask.Inv(s.task)
    && AppInv(s.app)
    && s.taken <= |s.task.emitted|
    && PhaseAfter(s.task.emitted[..s.taken]) == Some(PhaseOf(s.app))
  }

  /** A prefix of a stream in the language is in the language. */
  lemma {:induction false} PrefixInLanguage(events: seq<NetEvent>, k: nat)
    requires PhaseAfter(events).Some? && k <= |events|
    ensures PhaseAfter(events[..k]).Some?
    decreases |events|
  {
    if k < |events| {
      PrefixInLanguage(events[..|events| - 1], k);
      assert events[..|events| - 1][..k] == events[..k];
    } else {
      assert events[..k] == events;
    }
  }

  lemma TakeInv(s: System)
    requires Inv(s) && CanAct(s, Take)
    ensures Inv(Act(s, Take))
  {
    var seen, e := s.task.emitted[..s.taken], s.task.emitted[s.taken];
    assert s.task.emitted[..s.taken + 1] == seen + [e];
    PrefixInLanguage(s.task.emitted, s.taken + 1);
    PhaseSnoc(seen, e);
    EventInv(s.app, e);
  }

  lemma NetworkInv(s: System, st: Step)
    requires Inv(s) && CanAct(s, Network(st))
    ensures Inv(Act(s, Network(st)))
  {
    StepInv(s.task, st);
    assert Apply(s.task, st).emitted[..s.taken] == s.task.emitted[..s.taken];
  }

  lemma {:induction false} RunInv(run: Run)
    requires Legal(run)
    ensures Inv(After(run))
    decreases |run.actions|
  {
    if run.actions != [] {
      RunInv(Before(run));
      var s := After(Before(run));
      match Last(run) {
        case Network(st) => NetworkInv(s, st);
        case Take => TakeInv(s);
        case User(i) => InputInv(s.app, i);
      }
    } else {
      assert INIT.emitted[..0] == [];
    }
  }

  // --- Main results ---

  /** Whatever the network does and the user clicks: outside a session nothing of one is
      left; while retrying, or before the first session, nothing is in flight. */
  lemma SessionIsolation(run: Run)
    requires Legal(run)
    ensures var a := After(run).app;
      && (!a.connection.Online? ==> a.playerId == None && a.players == [] && a.rooms == [])
      && (a.connection.Retrying? || !a.everConnected ==> !InFlight(a.pending))
      && (IsJoining(a.pending) ==> a.connection.Online?)
  {
    RunInv(run);
  }

  /** Once everything sent has been processed, the client's state is the network task's: it shows
      a spinner for a room action only in a session, or after the network task ended for good. */
  lemma CaughtUp(run: Run)
    requires Legal(run) && After(run).taken == |After(run).task.emitted|
    ensures PhaseOf(After(run).app) == After(run).task.phase
    ensures After(run).task.phase.Idle? ==> !InFlight(After(run).app.pending)
  {
    RunInv(run);
    var t := After(run).task;
    assert t.emitted[..|t.emitted|] == t.emitted;
  }

  /** No joiner tunnel without its own join; no injection and no UPnP address without its
      own joiner tunnel. */
  lemma JoinerTunnelsPaid(run: Run)
    requires Legal(run)
    ensures var t := Count(After(run).app.log);
      t.tunnels <= t.joins && t.injections <= t.tunnels && t.addrs <= t.tunnels
  {
    RunInv(run);
  }

  /** Every stream the network task sends is in the language, and announces the number of failures
      in a row. */
  lemma StreamInLanguage(run: Run)
    requires Legal(run)
    ensures var t := After(run).task;
      PhaseAfter(t.emitted) == Some(t.phase) && forall i: nat | i < |t.emitted| :: Announced(t.emitted, i)
  {
    RunInv(run);
  }

  ghost predicate JoiningAt(run: Run, k: nat)
    requires k <= |run.actions|
  {
    Legal(UpTo(run, k)) && IsJoining(After(UpTo(run, k)).app.pending) && After(UpTo(run, k)).app.connection.Online?
  }

  predicate IsSentJoin(x: Action) {
    x.User? && x.input.ClickJoin? && x.input.sent
  }

  /** A join click that was sent and has been waited for, inside one session, ever since. */
  ghost predicate WaitingSince(run: Run, k: nat) {
    && k < |run.actions|
    && IsSentJoin(run.actions[k])
    && forall m | k < m <= |run.actions| :: JoiningAt(run, m)
  }

  lemma MessageStartsNoJoin(a: App, m: Message)
    requires IsJoining(OnMessage(a, m).pending)
    ensures IsJoining(a.pending)
  {
  }

  lemma EventStartsNoJoin(a: App, e: NetEvent)
    requires IsJoining(OnEvent(a, e).pending)
    ensures IsJoining(a.pending)
  {
    if e.FromServer? {
      MessageStartsNoJoin(a, e.message);
    }
  }

  lemma OnlyJoinClickWaits(a: App, i: Input)
    requires IsJoining(OnInput(a, i).pending)
    ensures IsSentJoin(User(i)) || IsJoining(a.pending)
  {
  }

  /** Only a sent join makes the client wait for one. */
  lemma JoiningComesFromClick(s: System, x: Action)
    requires CanAct(s, x) && IsJoining(Act(s, x).app.pending)
    ensures IsSentJoin(x) || IsJoining(s.app.pending)
  {
    match x {
      case Network(_) =>
      case Take => EventStartsNoJoin(s.app, s.task.emitted[s.taken]);
      case User(i) => OnlyJoinClickWaits(s.app, i);
    }
  }

  lemma WaitingExtends(run: Run, k: nat)
    requires Legal(run) && run.actions != [] && WaitingSince(Before(run), k)
    requires JoiningAt(run, |run.actions|)
    ensures WaitingSince(run, k)
  {
    forall m | k < m <= |run.actions| ensures JoiningAt(run, m) {
      if m < |run.actions| {
        assert JoiningAt(Before(run), m);
        SamePrefix(run, m);
      }
    }
  }

  lemma SamePrefix(run: Run, m: nat)
    requires run.actions != [] && m < |run.actions|
    ensures UpTo(Before(run), m) == UpTo(run, m)
  {
  }

  lemma {:induction false} JoiningSince(run: Run) returns (k: nat)
    requires Legal(run) && IsJoining(After(run).app.pending)
    ensures WaitingSince(run, k)
    decreases |run.actions|
  {
    RunInv(run);
    assert UpTo(run, |run.actions|) == run;
    assert JoiningAt(run, |run.actions|);
    JoiningComesFromClick(After(Before(run)), Last(run));
    if IsSentJoin(Last(run)) {
      k := |run.actions| - 1;
    } else {
      k := JoiningSince(Before(run));
      WaitingExtends(run, k);
    }
  }

  /** The last action of the run started a joiner tunnel. */
  ghost predicate StartsJoiner(run: Run)
    requires Legal(run) && run.actions != []
  {
    Count(After(run).app.log).tunnels > Count(After(Before(run)).app.log).tunnels
  }

  /** A stale result starts nothing: when a joiner tunnel starts, a join was sent earlier in
      the very same session and the client has been waiting for its result ever since. */
  lemma TunnelAnswersThisSession(run: Run) returns (k: nat)
    requires Legal(run) && run.actions != []
    ensures StartsJoiner(run) ==> WaitingSince(Before(run), k)
  {
    k := 0;
    if StartsJoiner(run) {
      RunInv(Before(run));
      StartNeedsJoining(After(Before(run)), Last(run));
      k := JoiningSince(Before(run));
    }
  }

  lemma StartNeedsJoining(s: System, x: Action)
    requires CanAct(s, x) && Inv(s)
    ensures Count(Act(s, x).app.log).tunnels > Count(s.app.log).tunnels ==> IsJoining(s.app.pending)
  {
    var t := Count(s.app.log);
    if x.Take? {
      var e := s.task.emitted[s.taken];
      EventPays(s.app, e, t);
      CountGrown(s.app.log, OnEvent(s.app, e).log);
    } else if x.User? {
      InputPays(s.app, x.input, t);
      CountGrown(s.app.log, OnInput(s.app, x.input).log);
    }
  }

  /** Each session starts unregistered, so a configured client registers in it at once. */
  lemma RegistersOnConnect(run: Run)
    requires Legal(run) && CanAct(After(run), Take)
    requires After(run).task.emitted[After(run).taken].Connected?
    ensures var a := After(run).app;
      Act(After(run), Take).app.log == if a.nickname.Some? then a.log + [SentRegister] else a.log
  {
    RunInv(run);
    UnregisteredBeforeConnect(After(run));
  }

  lemma UnregisteredBeforeConnect(s: System)
    requires Inv(s) && CanAct(s, Take) && s.task.emitted[s.taken].Connected?
    ensures s.app.playerId == None
  {
    var seen, e := s.task.emitted[..s.taken], s.task.emitted[s.taken];
    assert s.task.emitted[..s.taken + 1] == seen + [e];
    PrefixInLanguage(s.task.emitted, s.taken + 1);
    PhaseSnoc(seen, e);
  }
}
