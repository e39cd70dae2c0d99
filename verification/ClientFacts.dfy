/** What the client shows and starts, told from the events it has taken: each datum is the
    latest one received, and each banner has the cause it names. */
module ClientFacts {
  import opened Basics
  import opened ConnectionTask
  import opened ClientSession

  /** The event the last action of the run took from the network task. */
  ghost function Taken(run: Run): Option<NetEvent>
    requires Legal(run) && run.actions != []
  {
    if Last(run).Take? then Some(After(Before(run)).task.emitted[After(Before(run)).taken]) else None
  }

  ghost function Received(run: Run): Option<Message>
    requires Legal(run) && run.actions != []
  {
    if Taken(run).Some? && Taken(run).value.FromServer? then Some(Taken(run).value.message) else None
  }

  ghost predicate Took(run: Run, e: NetEvent)
    requires Legal(run) && run.actions != []
  {
    Taken(run) == Some(e)
  }

  /** A join result with everything needed came while a join was pending. */
  ghost predicate JoinStarts(run: Run)
    requires Legal(run) && run.actions != []
  {
    && Received(run).Some? && Received(run).value.JoinResult? && IsJoining(Banner(Before(run)))
    && Received(run).value.success && Received(run).value.tunnelToken.Some? && Received(run).value.gameinfo.Some?
  }

  ghost predicate HostStarts(run: Run)
    requires Legal(run) && run.actions != []
  {
    Received(run).Some? && (Received(run).value.PlayerJoined? || Received(run).value.TunnelReady?)
  }

  // ------------------------------------------------------------ the banner

  /** What each event, message and click makes of the pending action. */
  function BannerByEvent(was: Option<Pending>, e: NetEvent): Option<Pending> {
    match e
    case Connected => if was == Some(ServerError) then None else was
    case Disconnected => if InFlight(was) then Some(ServerError) else was
    case Reconnecting(_) => if InFlight(was) then Some(ServerError) else was
    case FromServer(m) => BannerByMessage(was, m)
  }

  function BannerByMessage(was: Option<Pending>, m: Message): Option<Pending> {
    if m.RoomUpdate? && was == Some(CreatingRoom) then None
    else if m.JoinResult? && IsJoining(was) then (if m.success then Some(JoinSuccess) else Some(JoinFailed))
    else if m.ErrorMessage? && IsJoining(was) then Some(JoinFailed)
    else if m.ErrorMessage? && (was == None || was == Some(CreatingRoom)) then Some(ServerError)
    else was
  }

  function BannerByInput(was: Option<Pending>, i: Input): Option<Pending> {
    match i
    case ClickJoin(room, sent) => if sent then Some(Joining(room.id)) else was
    case ClickCreate => Some(CreatingRoom)
    case GameinfoCaptured(found, sent) => if found && sent then was else None
    case Dismiss => None
    case _ => was
  }

  ghost function Banner(run: Run): Option<Pending>
    requires Legal(run)
    decreases |run.actions|
  {
    if run.actions == [] then None
    else
      var was := Banner(Before(run));
      if Last(run).User? then BannerByInput(was, Last(run).input)
      else if Taken(run).Some? then BannerByEvent(was, Taken(run).value)
      else was
  }

  lemma BannerAfterMessage(a: App, m: Message)
    ensures OnMessage(a, m).pending == BannerByMessage(a.pending, m)
  {
  }

  lemma BannerAfterEvent(a: App, e: NetEvent)
    ensures OnEvent(a, e).pending == BannerByEvent(a.pending, e)
  {
    if e.FromServer? {
      BannerAfterMessage(a, e.message);
    }
  }

  lemma BannerAfterInput(a: App, i: Input)
    ensures OnInput(a, i).pending == BannerByInput(a.pending, i)
  {
  }

  /** What the last action did to the client. */
  lemma LastAction(run: Run)
    requires Legal(run) && run.actions != []
    ensures var a := After(Before(run)).app;
      After(run).app ==
        if Last(run).User? then OnInput(a, Last(run).input)
        else if Taken(run).Some? then OnEvent(a, Taken(run).value) else a
    ensures Taken(run).Some? <==> Last(run).Take?
  {
  }

  /** The banner shows what the events and clicks so far call for, and nothing else. */
  lemma {:induction false} BannerLatest(run: Run)
    requires Legal(run)
    ensures After(run).app.pending == Banner(run)
    decreases |run.actions|
  {
    if run.actions != [] {
      BannerLatest(Before(run));
      LastAction(run);
      if Last(run).User? { BannerAfterInput(After(Before(run)).app, Last(run).input); }
      else if Last(run).Take? { BannerAfterEvent(After(Before(run)).app, Taken(run).value); }
    }
  }

  // ------------------------------------------------------------ the latest of each kind

  /** The last address the server observed the client at. */
  ghost function Observed(run: Run): Option<nat>
    requires Legal(run)
    decreases |run.actions|
  {
    if run.actions == [] then None
    else if Received(run).Some? && Received(run).value.ObservedAddr? && Received(run).value.observed.Some? then
      Received(run).value.observed
    else Observed(Before(run))
  }

  /** The last peer address received since a tunnel was last started. */
  ghost function Peer(run: Run): Option<nat>
    requires Legal(run)
    decreases |run.actions|
  {
    if run.actions == [] || JoinStarts(run) || HostStarts(run) then None
    else if Received(run).Some? && Received(run).value.StunInfo? && Received(run).value.ip.Some? then
      Received(run).value.ip
    else Peer(Before(run))
  }

  /** The last player list, room list and id of this session. */
  ghost function ListedPlayers(run: Run): seq<PlayerEntry>
    requires Legal(run)
    decreases |run.actions|
  {
    if run.actions == [] || Took(run, Disconnected) then []
    else if Received(run).Some? && Received(run).value.PlayerUpdate? then Received(run).value.players
    else ListedPlayers(Before(run))
  }

  ghost function ListedRooms(run: Run): seq<Room>
    requires Legal(run)
    decreases |run.actions|
  {
    if run.actions == [] || Took(run, Disconnected) then []
    else if Received(run).Some? && Received(run).value.RoomUpdate? then Received(run).value.rooms
    else ListedRooms(Before(run))
  }

  ghost function MyId(run: Run): Option<nat>
    requires Legal(run)
    decreases |run.actions|
  {
    if run.actions == [] || Took(run, Disconnected) then None
    else if Received(run).Some? && Received(run).value.Welcome? then Some(Received(run).value.id)
    else MyId(Before(run))
  }

  /** The connection as the last event about it left it. */
  ghost function Link(run: Run): Connection
    requires Legal(run)
    decreases |run.actions|
  {
    if run.actions == [] || Took(run, Disconnected) then Offline
    else if Took(run, Connected) then Online
    else if Taken(run).Some? && Taken(run).value.Reconnecting? then Retrying(Taken(run).value.attempt)
    else Link(Before(run))
  }

  /** The game data of the last joiner tunnel, until the proxy was ready for it. */
  ghost function Kept(run: Run): Option<seq<Byte>>
    requires Legal(run)
    decreases |run.actions|
  {
    if run.actions == [] || Last(run) == User(ProxyReady) then None
    else if JoinStarts(run) then Received(run).value.gameinfo
    else Kept(Before(run))
  }

  /** The token of the last tunnel started, until one finished. */
  ghost function Tunnel(run: Run): Option<nat>
    requires Legal(run)
    decreases |run.actions|
  {
    if run.actions == [] || Last(run) == User(TunnelFinished) then None
    else if JoinStarts(run) then Received(run).value.tunnelToken
    else if HostStarts(run) then Some(Received(run).value.token)
    else Tunnel(Before(run))
  }

  /** Whether a session was ever announced. */
  ghost predicate Ever(run: Run)
    requires Legal(run)
    decreases |run.actions|
  {
    run.actions != [] && (Took(run, Connected) || Ever(Before(run)))
  }

  /** The name last chosen, and whether it still has to be. */
  ghost function Named(run: Run): Option<nat>
    requires Legal(run)
    decreases |run.actions|
  {
    if run.actions == [] then run.nickname
    else if Last(run).User? && Last(run).input.FinishWizard? then Some(Last(run).input.name)
    else if Last(run).User? && Last(run).input.SetNickname? then Last(run).input.setting
    else Named(Before(run))
  }

  ghost predicate Naming(run: Run)
    requires Legal(run)
    decreases |run.actions|
  {
    if run.actions == [] then run.nickname.None?
    else Naming(Before(run)) && !(Last(run).User? && Last(run).input.FinishWizard?)
  }

  /** A joiner tunnel waits for its UPnP address. */
  ghost predicate AwaitsAddr(run: Run)
    requires Legal(run)
    decreases |run.actions|
  {
    run.actions != [] &&
    (JoinStarts(run) || (AwaitsAddr(Before(run)) && Received(run) != Some(PeerUpnpAddr(true))))
  }

  ghost predicate Injecting(run: Run)
    requires Legal(run)
    decreases |run.actions|
  {
    run.actions != [] &&
    if Last(run) == User(ProxyReady) then Kept(Before(run)).Some? && Kept(Before(run)).value != []
    else Injecting(Before(run)) && Last(run) != User(TunnelFinished)
  }

  function ScreenByInput(was: Screen, i: Input): Screen {
    match i
    case SelectTab(tab) => was.(tab := tab)
    case OpenDialog => was.(dialog := true)
    case CancelDialog => was.(dialog := false)
    case ClickCreate => was.(dialog := false)
    case TransportSelected(t) => was.(transport := Some(t))
    case TransportUpgraded => was.(transport := Some(Direct))
    case TunnelFinished => was.(transport := None)
    case StrategyResults(results) => was.(diagnostics := results)
    case _ => was
  }

  /** What the clicks and the tunnel left on screen; a new tunnel has no results yet. */
  ghost function OnScreen(run: Run): Screen
    requires Legal(run)
    decreases |run.actions|
  {
    if run.actions == [] then Screen(Lobby, false, None, [])
    else if Last(run).User? then ScreenByInput(OnScreen(Before(run)), Last(run).input)
    else if JoinStarts(run) || HostStarts(run) then OnScreen(Before(run)).(diagnostics := [])
    else OnScreen(Before(run))
  }

  // --- one event, datum by datum ---

  predicate StartsJoin(a: App, e: NetEvent) {
    && e.FromServer? && e.message.JoinResult? && IsJoining(a.pending)
    && e.message.success && e.message.tunnelToken.Some? && e.message.gameinfo.Some?
  }

  predicate StartsHost(e: NetEvent) {
    e.FromServer? && (e.message.PlayerJoined? || e.message.TunnelReady?)
  }

  lemma ObservedAfter(a: App, e: NetEvent)
    ensures OnEvent(a, e).observedIp ==
              if e.FromServer? && e.message.ObservedAddr? && e.message.observed.Some? then e.message.observed
              else a.observedIp
  {
  }

  lemma PeerAfter(a: App, e: NetEvent)
    ensures OnEvent(a, e).peer ==
              if StartsJoin(a, e) || StartsHost(e) then None
              else if e.FromServer? && e.message.StunInfo? && e.message.ip.Some? then e.message.ip
              else a.peer
  {
  }

  lemma PlayersAfter(a: App, e: NetEvent)
    ensures OnEvent(a, e).players ==
              if e.Disconnected? then []
              else if e.FromServer? && e.message.PlayerUpdate? then e.message.players else a.players
  {
  }

  lemma RoomsAfter(a: App, e: NetEvent)
    ensures OnEvent(a, e).rooms ==
              if e.Disconnected? then []
              else if e.FromServer? && e.message.RoomUpdate? then e.message.rooms else a.rooms
  {
  }

  lemma IdAfter(a: App, e: NetEvent)
    ensures OnEvent(a, e).playerId ==
              if e.Disconnected? then None
              else if e.FromServer? && e.message.Welcome? then Some(e.message.id) else a.playerId
  {
  }

  lemma LinkAfter(a: App, e: NetEvent)
    ensures OnEvent(a, e).connection ==
              if e.Disconnected? then Offline else if e.Connected? then Online
              else if e.Reconnecting? then Retrying(e.attempt) else a.connection
  {
  }

  lemma KeptAfter(a: App, e: NetEvent)
    ensures OnEvent(a, e).gameinfo == if StartsJoin(a, e) then e.message.gameinfo else a.gameinfo
  {
  }

  lemma TunnelAfter(a: App, e: NetEvent)
    ensures OnEvent(a, e).tunnel ==
              if StartsJoin(a, e) then e.message.tunnelToken
              else if StartsHost(e) then Some(e.message.token) else a.tunnel
  {
  }

  lemma UserObservedAfter(a: App, i: Input)
    ensures OnInput(a, i).observedIp == a.observedIp
  {
  }

  lemma UserPeerAfter(a: App, i: Input)
    ensures OnInput(a, i).peer == a.peer
  {
  }

  lemma UserPlayersAfter(a: App, i: Input)
    ensures OnInput(a, i).players == a.players
  {
  }

  lemma UserRoomsAfter(a: App, i: Input)
    ensures OnInput(a, i).rooms == a.rooms
  {
  }

  lemma UserIdAfter(a: App, i: Input)
    ensures OnInput(a, i).playerId == a.playerId
  {
  }

  lemma UserLinkAfter(a: App, i: Input)
    ensures OnInput(a, i).connection == a.connection
  {
  }

  lemma UserTunnelAfter(a: App, i: Input)
    ensures OnInput(a, i).gameinfo == if i.ProxyReady? then None else a.gameinfo
    ensures OnInput(a, i).tunnel == if i.TunnelFinished? then None else a.tunnel
  {
  }

  lemma SettingsAfter(a: App, e: NetEvent)
    ensures OnEvent(a, e).nickname == a.nickname && OnEvent(a, e).wizard == a.wizard
  {
  }

  lemma EverAfter(a: App, e: NetEvent)
    ensures OnEvent(a, e).everConnected <==> a.everConnected || e.Connected?
  {
  }

  lemma InjectingAfter(a: App, e: NetEvent)
    ensures OnEvent(a, e).injecting == a.injecting
  {
  }

  lemma ScreenAfter(a: App, e: NetEvent)
    ensures OnEvent(a, e).screen == if StartsJoin(a, e) || StartsHost(e) then a.screen.(diagnostics := []) else a.screen
  {
  }

  lemma SenderAfter(a: App, e: NetEvent)
    ensures OnEvent(a, e).upnpSender <==> StartsJoin(a, e) || (a.upnpSender && e != FromServer(PeerUpnpAddr(true)))
  {
  }

  lemma UserSettingsAfter(a: App, i: Input)
    ensures OnInput(a, i).nickname ==
              if i.FinishWizard? then Some(i.name) else if i.SetNickname? then i.setting else a.nickname
    ensures OnInput(a, i).wizard <==> a.wizard && !i.FinishWizard?
    ensures OnInput(a, i).everConnected == a.everConnected
  {
  }

  lemma UserScreenAfter(a: App, i: Input)
    ensures OnInput(a, i).screen == ScreenByInput(a.screen, i) && OnInput(a, i).upnpSender == a.upnpSender
  {
  }

  lemma UserInjectingAfter(a: App, i: Input)
    ensures OnInput(a, i).injecting <==>
              if i.ProxyReady? then a.gameinfo.Some? && a.gameinfo.value != [] else a.injecting && !i.TunnelFinished?
  {
  }

  /** What the last action started, told from the client before it. */
  lemma LastStarts(run: Run)
    requires Legal(run) && run.actions != []
    ensures Taken(run).Some? ==> (JoinStarts(run) <==> StartsJoin(After(Before(run)).app, Taken(run).value))
    ensures Taken(run).Some? ==> (HostStarts(run) <==> StartsHost(Taken(run).value))
    ensures Taken(run).None? ==> !JoinStarts(run) && !HostStarts(run)
  {
    BannerLatest(Before(run));
  }

  // --- over runs ---

  lemma {:induction false} AddressesLatest(run: Run)
    requires Legal(run)
    ensures After(run).app.observedIp == Observed(run) && After(run).app.peer == Peer(run)
    decreases |run.actions|
  {
    if run.actions != [] {
      AddressesLatest(Before(run));
      LastAction(run);
      LastStarts(run);
      if Last(run).User? {
        UserObservedAfter(After(Before(run)).app, Last(run).input);
        UserPeerAfter(After(Before(run)).app, Last(run).input);
      } else if Last(run).Take? {
        ObservedAfter(After(Before(run)).app, Taken(run).value);
        PeerAfter(After(Before(run)).app, Taken(run).value);
      }
    }
  }

  lemma {:induction false} ListsLatest(run: Run)
    requires Legal(run)
    ensures After(run).app.players == ListedPlayers(run) && After(run).app.rooms == ListedRooms(run)
    decreases |run.actions|
  {
    if run.actions != [] {
      ListsLatest(Before(run));
      LastAction(run);
      if Last(run).User? {
        UserPlayersAfter(After(Before(run)).app, Last(run).input);
        UserRoomsAfter(After(Before(run)).app, Last(run).input);
      } else if Last(run).Take? {
        PlayersAfter(After(Before(run)).app, Taken(run).value);
        RoomsAfter(After(Before(run)).app, Taken(run).value);
      }
    }
  }

  lemma {:induction false} SessionLatest(run: Run)
    requires Legal(run)
    ensures After(run).app.playerId == MyId(run) && After(run).app.connection == Link(run)
    decreases |run.actions|
  {
    if run.actions != [] {
      SessionLatest(Before(run));
      LastAction(run);
      if Last(run).User? {
        UserIdAfter(After(Before(run)).app, Last(run).input);
        UserLinkAfter(After(Before(run)).app, Last(run).input);
      } else if Last(run).Take? {
        IdAfter(After(Before(run)).app, Taken(run).value);
        LinkAfter(After(Before(run)).app, Taken(run).value);
      }
    }
  }

  lemma {:induction false} TunnelLatest(run: Run)
    requires Legal(run)
    ensures After(run).app.gameinfo == Kept(run) && After(run).app.tunnel == Tunnel(run)
    decreases |run.actions|
  {
    if run.actions != [] {
      TunnelLatest(Before(run));
      LastAction(run);
      LastStarts(run);
      if Last(run).User? { UserTunnelAfter(After(Before(run)).app, Last(run).input); }
      else if Last(run).Take? {
        KeptAfter(After(Before(run)).app, Taken(run).value);
        TunnelAfter(After(Before(run)).app, Taken(run).value);
      }
    }
  }

  lemma {:induction false} SettingsLatest(run: Run)
    requires Legal(run)
    ensures var a := After(run).app;
      a.nickname == Named(run) && (a.wizard <==> Naming(run)) && (a.everConnected <==> Ever(run))
    decreases |run.actions|
  {
    if run.actions != [] {
      SettingsLatest(Before(run));
      LastAction(run);
      if Last(run).User? {
        UserSettingsAfter(After(Before(run)).app, Last(run).input);
      } else if Last(run).Take? {
        SettingsAfter(After(Before(run)).app, Taken(run).value);
        EverAfter(After(Before(run)).app, Taken(run).value);
      }
    }
  }

  lemma {:induction false} ScreenLatest(run: Run)
    requires Legal(run)
    ensures After(run).app.screen == OnScreen(run) && (After(run).app.upnpSender <==> AwaitsAddr(run))
    decreases |run.actions|
  {
    if run.actions != [] {
      ScreenLatest(Before(run));
      LastAction(run);
      LastStarts(run);
      if Last(run).User? { UserScreenAfter(After(Before(run)).app, Last(run).input); }
      else if Last(run).Take? {
        ScreenAfter(After(Before(run)).app, Taken(run).value);
        SenderAfter(After(Before(run)).app, Taken(run).value);
      }
    }
  }

  lemma {:induction false} InjectingLatest(run: Run)
    requires Legal(run)
    ensures After(run).app.injecting <==> Injecting(run)
    decreases |run.actions|
  {
    if run.actions != [] {
      InjectingLatest(Before(run));
      TunnelLatest(Before(run));
      LastAction(run);
      if Last(run).User? { UserInjectingAfter(After(Before(run)).app, Last(run).input); }
      else if Last(run).Take? { InjectingAfter(After(Before(run)).app, Taken(run).value); }
    }
  }

  /** Over every run the client shows exactly the latest data of its session, holds exactly
      what the next tunnel and the proxy will need, and remembers what the user chose. */
  lemma AlwaysUpToDate(run: Run)
    requires Legal(run)
    ensures var a := After(run).app;
      && a.observedIp == Observed(run) && a.peer == Peer(run)
      && a.players == ListedPlayers(run) && a.rooms == ListedRooms(run) && a.playerId == MyId(run)
      && a.connection == Link(run) && a.gameinfo == Kept(run) && a.tunnel == Tunnel(run)
      && a.pending == Banner(run) && a.screen == OnScreen(run) && a.nickname == Named(run)
      && (a.wizard <==> Naming(run)) && (a.everConnected <==> Ever(run))
      && (a.upnpSender <==> AwaitsAddr(run)) && (a.injecting <==> Injecting(run))
  {
    AddressesLatest(run);
    ListsLatest(run);
    SessionLatest(run);
    TunnelLatest(run);
    BannerLatest(run);
    SettingsLatest(run);
    ScreenLatest(run);
    InjectingLatest(run);
  }

  // ------------------------------------------------------------ what is started

  lemma JoinResultAfter(a: App, success: bool, token: Option<nat>, gi: Option<seq<Byte>>)
    ensures var b := OnEvent(a, FromServer(JoinResult(success, token, gi)));
      && (!IsJoining(a.pending) ==> b == a)
      && (IsJoining(a.pending) && !success ==> b == a.(pending := Some(JoinFailed)))
      && (IsJoining(a.pending) && success && !(token.Some? && gi.Some?) ==> b == a.(pending := Some(JoinSuccess)))
      && (IsJoining(a.pending) && success && token.Some? && gi.Some? ==>
            b.pending == Some(JoinSuccess) && b.upnpSender && b.log == a.log + [SpawnedJoiner(token.value, a.peer)])
  {
  }

  /** A join result counts exactly while a join is pending: refused, it says so and starts
      nothing; accepted, it starts a tunnel exactly when token and game data came with it. */
  lemma JoinResultTaken(run: Run)
    requires Legal(run) && run.actions != [] && Received(run).Some? && Received(run).value.JoinResult?
    ensures var m, was, now := Received(run).value, After(Before(run)).app, After(run).app;
      && (!IsJoining(was.pending) ==> now == was)
      && (IsJoining(was.pending) && !m.success ==> now == was.(pending := Some(JoinFailed)))
      && (IsJoining(was.pending) && m.success ==> now.pending == Some(JoinSuccess))
      && (IsJoining(was.pending) && m.success ==>
            now.log == was.log +
              if m.tunnelToken.Some? && m.gameinfo.Some? then [SpawnedJoiner(m.tunnelToken.value, Peer(Before(run)))]
              else [])
  {
    AddressesLatest(Before(run));
    LastAction(run);
    var m := Received(run).value;
    JoinResultAfter(After(Before(run)).app, m.success, m.tunnelToken, m.gameinfo);
  }

  /** What a click, or the tunnel, makes the client send or start. */
  function InputSends(i: Input, link: Connection, kept: Option<seq<Byte>>): seq<Effect> {
    match i
    case ProxyReady => if kept.Some? && kept.value != [] then [Injected(kept.value)] else []
    case GameinfoCaptured(found, sent) => if found && sent then [SentCreate] else []
    case ClickJoin(room, sent) => if sent then [SentJoin(room.id)] else []
    case ClickClose(sent) => if sent then [SentClose] else []
    case FinishWizard(_) => if link.Online? then [SentRegister] else []
    case _ => []
  }

  ghost function Sends(run: Run): seq<Effect>
    requires Legal(run) && run.actions != []
  {
    var was := Before(run);
    if Last(run).User? then InputSends(Last(run).input, Link(was), Kept(was))
    else if JoinStarts(run) then [SpawnedJoiner(Received(run).value.tunnelToken.value, Peer(was))]
    else if HostStarts(run) then [SpawnedHost(Received(run).value.token, Peer(was), Observed(was))]
    else if Took(run, Connected) && MyId(was).None? && Named(was).Some? then [SentRegister]
    else if Received(run) == Some(PeerUpnpAddr(true)) && AwaitsAddr(was) then [PassedUpnpAddr]
    else []
  }

  ghost function AllSent(run: Run): seq<Effect>
    requires Legal(run)
    decreases |run.actions|
  {
    if run.actions == [] then [] else AllSent(Before(run)) + Sends(run)
  }

  lemma MessageSends(a: App, m: Message)
    ensures OnMessage(a, m).log == a.log +
              if StartsJoin(a, FromServer(m)) then [SpawnedJoiner(m.tunnelToken.value, a.peer)]
              else if m.PlayerJoined? || m.TunnelReady? then [SpawnedHost(m.token, a.peer, a.observedIp)]
              else if m == PeerUpnpAddr(true) && a.upnpSender then [PassedUpnpAddr]
              else []
  {
  }

  lemma EventSends(a: App, e: NetEvent)
    ensures OnEvent(a, e).log == a.log +
              if StartsJoin(a, e) then [SpawnedJoiner(e.message.tunnelToken.value, a.peer)]
              else if StartsHost(e) then [SpawnedHost(e.message.token, a.peer, a.observedIp)]
              else if e.Connected? && a.playerId.None? && a.nickname.Some? then [SentRegister]
              else if e == FromServer(PeerUpnpAddr(true)) && a.upnpSender then [PassedUpnpAddr]
              else []
  {
    if e.FromServer? {
      MessageSends(a, e.message);
    }
  }

  lemma UserSends(a: App, i: Input)
    ensures OnInput(a, i).log == a.log + InputSends(i, a.connection, a.gameinfo)
  {
  }

  lemma LastSends(run: Run)
    requires Legal(run) && run.actions != []
    ensures After(run).app.log == After(Before(run)).app.log + Sends(run)
  {
    AlwaysUpToDate(Before(run));
    LastAction(run);
    LastStarts(run);
    var a := After(Before(run)).app;
    if Last(run).User? { UserSends(a, Last(run).input); }
    else if Last(run).Take? { EventSends(a, Taken(run).value); }
  }

  /** Over every run the client sent and started exactly what its events and clicks call for,
      in that order, each with the latest data. */
  lemma {:induction false} EffectsFromEvents(run: Run)
    requires Legal(run)
    ensures After(run).app.log == AllSent(run)
    decreases |run.actions|
  {
    if run.actions != [] {
      EffectsFromEvents(Before(run));
      LastSends(run);
    }
  }

  /** A host tunnel carries its token, the peer address received for it and the address the
      client was last observed at. */
  lemma HostTunnelStarts(run: Run)
    requires Legal(run) && run.actions != [] && HostStarts(run)
    ensures After(run).app.log ==
              After(Before(run)).app.log +
              [SpawnedHost(Received(run).value.token, Peer(Before(run)), Observed(Before(run)))]
  {
    LastSends(run);
  }

  // ------------------------------------------------------------ what is offered

  /** The lobby is in view: chosen, not covered by a connection in trouble. */
  ghost predicate LobbyInView(run: Run)
    requires Legal(run)
  {
    !Naming(run) && OnScreen(run).tab.Lobby? && (Link(run).Online? || (Link(run).Offline? && Ever(run)))
  }

  ghost predicate Hosts(run: Run)
    requires Legal(run)
  {
    exists k :: 0 <= k < |ListedPlayers(run)| && ListedPlayers(run)[k].hosting &&
      MyId(run) == Some(ListedPlayers(run)[k].id)
  }

  lemma InView(run: Run)
    requires Legal(run)
    ensures LobbyShown(After(run).app) <==> LobbyInView(run)
  {
    SettingsLatest(run);
    ScreenLatest(run);
    SessionLatest(run);
  }

  lemma HostsListed(run: Run)
    requires Legal(run)
    ensures IsHosting(After(run).app) <==> Hosts(run)
  {
    ListsLatest(run);
    SessionLatest(run);
    if k :| 0 <= k < |ListedPlayers(run)| && ListedPlayers(run)[k].hosting &&
            MyId(run) == Some(ListedPlayers(run)[k].id) {
      assert PlayerEntry(MyId(run).value, true) == ListedPlayers(run)[k];
    }
  }

  /** A room offers its button, after any run, exactly when it is on the latest list, someone
      else's and not full. */
  lemma JoinOffered(run: Run, room: Room, sent: bool)
    requires Legal(run)
    ensures CanAct(After(run), User(ClickJoin(room, sent))) <==>
              LobbyInView(run) && room in ListedRooms(run) && Named(run) != Some(room.host) && room.current < room.max
  {
    ListsLatest(run);
    SettingsLatest(run);
    InView(run);
  }

  /** And which other clicks the lobby offers. */
  lemma ClicksOffered(run: Run, sent: bool)
    requires Legal(run)
    ensures CanAct(After(run), User(ClickClose(sent))) <==> LobbyInView(run) && Hosts(run)
    ensures CanAct(After(run), User(OpenDialog)) <==> LobbyInView(run) && !Hosts(run)
    ensures CanAct(After(run), User(ClickCreate)) <==> LobbyInView(run) && OnScreen(run).dialog
    ensures CanAct(After(run), User(Dismiss)) <==>
              LobbyInView(run) && Banner(run).Some? && !Banner(run).value.Joining? && !Banner(run).value.CreatingRoom?
  {
    ScreenLatest(run);
    BannerLatest(run);
    InView(run);
    HostsListed(run);
  }

  // ------------------------------------------------------------ success explained

  /** The action of the run at position k took this join result while a join was pending. */
  ghost predicate ResultAt(run: Run, k: nat, success: bool) {
    && k < |run.actions| && Legal(UpTo(run, k + 1))
    && var now := UpTo(run, k + 1);
       Received(now).Some? && Received(now).value.JoinResult? && Received(now).value.success == success &&
       IsJoining(After(Before(now)).app.pending)
  }

  lemma ResultAtLater(run: Run, k: nat, success: bool)
    requires run.actions != [] && ResultAt(Before(run), k, success)
    ensures ResultAt(run, k, success)
  {
    assert UpTo(run, k + 1) == UpTo(Before(run), k + 1);
  }

  /** Success is only shown for a join that the server accepted while the client waited. */
  lemma {:induction false} SuccessExplained(run: Run) returns (k: nat)
    requires Legal(run) && After(run).app.pending == Some(JoinSuccess)
    ensures ResultAt(run, k, true)
    decreases |run.actions|
  {
    if After(Before(run)).app.pending == Some(JoinSuccess) {
      k := SuccessExplained(Before(run));
      ResultAtLater(run, k, true);
    } else {
      k := |run.actions| - 1;
      assert UpTo(run, k + 1) == run;
      LastAction(run);
      SuccessNeedsResult(After(Before(run)), Last(run));
    }
  }

  lemma SuccessNeedsResult(s: System, x: Action)
    requires CanAct(s, x) && Act(s, x).app.pending == Some(JoinSuccess) && s.app.pending != Some(JoinSuccess)
    ensures x.Take? && IsJoining(s.app.pending)
    ensures x.Take? ==> var e := s.task.emitted[s.taken]; e.FromServer? && e.message.JoinResult? && e.message.success
  {
    if x.Take? {
      var e := s.task.emitted[s.taken];
      BannerAfterEvent(s.app, e);
    } else if x.User? {
      BannerAfterInput(s.app, x.input);
    }
  }
}
