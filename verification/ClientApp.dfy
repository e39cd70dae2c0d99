/** War3App: the methods of the client that process events and clicks, field by field. */
module ClientApp {
  import opened Basics
  import opened ConnectionTask
  import opened ClientSession

  class War3App {
    var connection: Connection
    var everConnected: bool
    var myPlayerId: Option<nat>
    var players: seq<PlayerEntry>
    var rooms: seq<Room>
    var pendingAction: Option<Pending>
    var wizard: bool
    var nickname: Option<nat>
    var screen: Screen
    var myObservedIp: Option<nat>
    var tunnelHandle: Option<nat>
    var upnpAddrSender: bool
    var pendingGameinfo: Option<seq<Byte>>
    var injecting: bool
    var peerAddr: Option<nat>
    var log: seq<Effect>

    function View(): App
      reads this
    {
      App(connection, everConnected, myPlayerId, players, rooms, pendingAction, wizard, nickname,
          screen, myObservedIp,
          tunnelHandle, upnpAddrSender, pendingGameinfo, injecting, peerAddr, log)
    }

    /** The books balance, and nothing of a session outlives it. */
    ghost predicate Valid()
      reads this
    {
      AppInv(View())
    }

    constructor (name: Option<nat>)
      ensures Valid() && View() == New(name)
    {
      connection, everConnected, myPlayerId := Offline, false, None;
      players, rooms, pendingAction := [], [], None;
      wizard, nickname := name.None?, name;
      screen, myObservedIp := Screen(Lobby, false, None, []), None;
      tunnelHandle, upnpAddrSender, pendingGameinfo, injecting, peerAddr := None, false, None, false, None;
      log := [];
    }

    method SendRegister()
      modifies this`log
      ensures log == old(log) + [SentRegister]
    {
      log := log + [SentRegister];
    }

    method CancelInFlight()
      modifies this`pendingAction
      ensures pendingAction == Cancelled(old(pendingAction))
    {
      if pendingAction.Some? && (pendingAction.value.Joining? || pendingAction.value.CreatingRoom?) {
        pendingAction := Some(ServerError);
      }
    }

    method StartJoinerTunnel(token: nat, gameinfo: seq<Byte>)
      modifies this`tunnelHandle, this`screen, this`peerAddr, this`upnpAddrSender, this`pendingGameinfo, this`log
      ensures View() == StartJoiner(old(View()), token, gameinfo)
      ensures log == old(log) + [SpawnedJoiner(token, old(peerAddr))] && peerAddr == None
      ensures tunnelHandle == Some(token) && pendingGameinfo == Some(gameinfo) && upnpAddrSender
    {
      tunnelHandle := None;
      screen := screen.(diagnostics := []);
      var peer := peerAddr;
      peerAddr := None;
      upnpAddrSender := true;
      log := log + [SpawnedJoiner(token, peer)];
      tunnelHandle := Some(token);
      pendingGameinfo := Some(gameinfo);
    }

    method StartHostTunnel(token: nat)
      modifies this`tunnelHandle, this`screen, this`peerAddr, this`log
      ensures View() == StartHost(old(View()), token)
      ensures log == old(log) + [SpawnedHost(token, old(peerAddr), myObservedIp)] && peerAddr == None
      ensures tunnelHandle == Some(token)
    {
      tunnelHandle := None;
      screen := screen.(diagnostics := []);
      var peer := peerAddr;
      peerAddr := None;
      log := log + [SpawnedHost(token, peer, myObservedIp)];
      tunnelHandle := Some(token);
    }

    method StartGameinfoInjection()
      modifies this`injecting, this`pendingGameinfo, this`log
      ensures View() == OnProxyReady(old(View()))
      ensures pendingGameinfo == None && (injecting <==> old(pendingGameinfo).Some? && old(pendingGameinfo).value != [])
      ensures log == old(log) + if injecting then [Injected(old(pendingGameinfo).value)] else []
    {
      injecting := false;
      var gameinfo := pendingGameinfo;
      pendingGameinfo := None;
      if gameinfo.None? || gameinfo.value == [] {
        return;
      }
      log := log + [Injected(gameinfo.value)];
      injecting := true;
    }

    /** The event loop at the top of process_network_events. Events in the order the
        network task sends them keep the client valid. */
    method ProcessNetworkEvents(events: seq<NetEvent>)
      modifies this
      ensures View() == OnEvents(old(View()), events)
      ensures old(Valid()) && Continues(PhaseOf(old(View())), events) ==> Valid()
    {
      var i := 0;
      while i < |events|
        invariant 0 <= i <= |events|
        invariant OnEvents(old(View()), events) == OnEvents(View(), events[i..])
        invariant old(Valid()) && Continues(PhaseOf(old(View())), events) ==>
                    Valid() && Continues(PhaseOf(View()), events[i..])
      {
        assert events[i..][0] == events[i] && events[i..][1..] == events[i + 1..];
        ProcessNetworkEvent(events[i]);
        i := i + 1;
      }
    }

    method ProcessNetworkEvent(e: NetEvent)
      modifies this
      ensures View() == OnEvent(old(View()), e)
      ensures old(Valid()) && Follow(PhaseOf(old(View())), e).Some? ==>
                Valid() && PhaseOf(View()) == Follow(PhaseOf(old(View())), e).value
    {
      if Valid() && Follow(PhaseOf(View()), e).Some? {
        EventInv(View(), e);
      }
      HandleEvent(e);
    }

    method HandleEvent(e: NetEvent)
      modifies this
      ensures View() == OnEvent(old(View()), e)
    {
      match e {
        case Connected => HandleConnected();
        case Disconnected => HandleDisconnected();
        case Reconnecting(attempt) =>
          connection := Retrying(attempt);
          CancelInFlight();
        case FromServer(m) => HandleServerMessage(m);
      }
    }

    method HandleConnected()
      modifies this`connection, this`everConnected, this`pendingAction, this`log
      ensures View() == OnConnected(old(View()))
      ensures connection == Online && everConnected
      ensures log == old(log) + if myPlayerId.None? && nickname.Some? then [SentRegister] else []
    {
      connection := Online;
      everConnected := true;
      if pendingAction == Some(ServerError) {
        pendingAction := None;
      }
      if myPlayerId.None? && nickname.Some? {
        SendRegister();
      }
    }

    method HandleDisconnected()
      modifies this`connection, this`myPlayerId, this`players, this`rooms, this`pendingAction
      ensures View() == OnDisconnected(old(View()))
      ensures connection == Offline && myPlayerId == None && players == [] && rooms == []
    {
      connection := Offline;
      myPlayerId := None;
      players := [];
      rooms := [];
      CancelInFlight();
    }

    method HandleServerMessage(m: Message)
      modifies this
      ensures View() == OnMessage(old(View()), m)
    {
      match m {
        case Welcome(id) => myPlayerId := Some(id);
        case ObservedAddr(ip) =>
          if ip.Some? {
            myObservedIp := ip;
          }
        case PlayerUpdate(update) => players := update;
        case RoomUpdate(update) => HandleRoomUpdate(update);
        case ErrorMessage => HandleError();
        case Unknown =>
        case _ => HandleTunnelMessage(m);
      }
    }

    /** The messages that concern tunnels. */
    method HandleTunnelMessage(m: Message)
      requires m.JoinResult? || m.PlayerJoined? || m.TunnelReady? || m.StunInfo? || m.PeerUpnpAddr?
      modifies this`pendingAction, this`tunnelHandle, this`screen, this`peerAddr, this`upnpAddrSender,
               this`pendingGameinfo, this`log
      ensures View() == OnMessage(old(View()), m)
    {
      match m {
        case JoinResult(success, token, gameinfo) => HandleJoinResult(success, token, gameinfo);
        case PlayerJoined(token) => StartHostTunnel(token);
        case TunnelReady(token) => StartHostTunnel(token);
        case StunInfo(ip) =>
          if ip.Some? {
            peerAddr := ip;
          }
        case PeerUpnpAddr(safe) => HandlePeerUpnpAddr(safe);
      }
    }

    method HandleRoomUpdate(update: seq<Room>)
      modifies this`pendingAction, this`rooms
      ensures rooms == update
      ensures pendingAction == if old(pendingAction) == Some(CreatingRoom) then None else old(pendingAction)
    {
      if pendingAction == Some(CreatingRoom) {
        pendingAction := None;
      }
      rooms := update;
    }

    /** The sender is used up by the first safe address. */
    method HandlePeerUpnpAddr(safe: bool)
      modifies this`upnpAddrSender, this`log
      ensures upnpAddrSender == (old(upnpAddrSender) && !safe)
      ensures log == if safe && old(upnpAddrSender) then old(log) + [PassedUpnpAddr] else old(log)
    {
      if safe && upnpAddrSender {
        upnpAddrSender := false;
        log := log + [PassedUpnpAddr];
      }
    }

    method HandleJoinResult(success: bool, token: Option<nat>, gameinfo: Option<seq<Byte>>)
      modifies this`pendingAction, this`tunnelHandle, this`screen, this`peerAddr, this`upnpAddrSender,
               this`pendingGameinfo, this`log
      ensures View() == OnJoinResult(old(View()), success, token, gameinfo)
      ensures !IsJoining(old(pendingAction)) ==> View() == old(View())
      ensures IsJoining(old(pendingAction)) ==> pendingAction == if success then Some(JoinSuccess) else Some(JoinFailed)
      ensures log == old(log) +
                if IsJoining(old(pendingAction)) && success && token.Some? && gameinfo.Some?
                then [SpawnedJoiner(token.value, old(peerAddr))] else []
    {
      if !(pendingAction.Some? && pendingAction.value.Joining?) {
        return;
      }
      if success {
        pendingAction := Some(JoinSuccess);
        if token.Some? && gameinfo.Some? {
          StartJoinerTunnel(token.value, gameinfo.value);
        }
      } else {
        pendingAction := Some(JoinFailed);
      }
    }

    method HandleError()
      modifies this`pendingAction
      ensures pendingAction == OnError(old(pendingAction))
      ensures IsJoining(old(pendingAction)) ==> pendingAction == Some(JoinFailed)
      ensures old(pendingAction) == None || old(pendingAction) == Some(CreatingRoom) ==>
                pendingAction == Some(ServerError)
    {
      var taken := pendingAction;
      pendingAction := None;
      if taken.Some? && taken.value.Joining? {
        pendingAction := Some(JoinFailed);
      } else if taken.None? || taken.value.CreatingRoom? {
        pendingAction := Some(ServerError);
      } else {
        pendingAction := taken;
      }
    }

    predicate IsTunnelEvent(i: Input) {
      i.ProxyReady? || i.TransportSelected? || i.TransportUpgraded? || i.StrategyResults? || i.TunnelFinished? ||
      i.GameinfoCaptured?
    }

    method ProcessTunnelEvent(i: Input)
      requires IsTunnelEvent(i)
      modifies this
      ensures View() == OnInput(old(View()), i)
      ensures old(Valid()) ==> Valid()
    {
      if Valid() {
        InputInv(View(), i);
      }
      HandleTunnelEvent(i);
    }

    method HandleTunnelEvent(i: Input)
      requires IsTunnelEvent(i)
      modifies this`injecting, this`pendingGameinfo, this`log, this`screen, this`tunnelHandle,
               this`pendingAction
      ensures View() == OnInput(old(View()), i)
    {
      match i {
        case ProxyReady => StartGameinfoInjection();
        case TransportSelected(t) => screen := screen.(transport := Some(t));
        case TransportUpgraded => screen := screen.(transport := Some(Direct));
        case TunnelFinished =>
          injecting := false;
          tunnelHandle := None;
          screen := screen.(transport := None);
        case StrategyResults(results) => screen := screen.(diagnostics := results);
        case GameinfoCaptured(found, sent) =>
          if !found {
            pendingAction := None;
          } else if !sent {
            pendingAction := None;
          } else {
            log := log + [SentCreate];
          }
      }
    }

    method ShowConnectionOverlay() returns (shown: bool)
      ensures shown == Overlay(View())
      ensures shown <==> connection.Retrying? || (connection == Offline && !everConnected)
    {
      match connection {
        case Online => shown := false;
        case Offline => shown := !everConnected;
        case Retrying(_) => shown := true;
      }
    }

    method CheckHosting() returns (hosting: bool)
      ensures hosting == IsHosting(View())
      ensures hosting <==> exists k :: 0 <= k < |players| && players[k].hosting && myPlayerId == Some(players[k].id)
    {
      if myPlayerId.None? {
        return false;
      }
      var i := 0;
      while i < |players|
        invariant 0 <= i <= |players|
        invariant PlayerEntry(myPlayerId.value, true) !in players[..i]
        invariant forall k :: 0 <= k < i ==> !players[k].hosting || players[k].id != myPlayerId.value
      {
        if players[i].id == myPlayerId.value && players[i].hosting {
          assert players[i] == PlayerEntry(myPlayerId.value, true);
          return true;
        }
        i := i + 1;
      }
      return false;
    }

    /** The user's side of update: what the screen does not offer is not done. */
    method Update(i: Input)
      requires !IsTunnelEvent(i)
      modifies this
      ensures View() == if Possible(old(View()), i) then OnInput(old(View()), i) else old(View())
      ensures old(Valid()) ==> Valid()
    {
      if Valid() && Possible(View(), i) {
        InputInv(View(), i);
      }
      if wizard {
        FinishSetup(i);
      } else if i.SelectTab? {
        screen := screen.(tab := i.tab);
      } else if i.SetNickname? {
        if screen.tab.Settings? {
          nickname := i.setting;
        }
      } else if screen.tab.Lobby? && !i.FinishWizard? {
        var covered := ShowConnectionOverlay();
        if !covered {
          ShowLobby(i);
        }
      }
    }

    method FinishSetup(i: Input)
      requires wizard
      modifies this
      ensures View() == if i.FinishWizard? then OnInput(old(View()), i) else old(View())
    {
      if i.FinishWizard? {
        nickname := Some(i.name);
        wizard := false;
        if connection.Online? {
          SendRegister();
        }
      }
    }

    /** The banner and the lobby panel. */
    method ShowLobby(i: Input)
      requires LobbyShown(View()) && !IsTunnelEvent(i) && !i.FinishWizard? && !i.SelectTab? && !i.SetNickname?
      modifies this
      ensures View() == if Possible(old(View()), i) then OnInput(old(View()), i) else old(View())
    {
      var hosting := CheckHosting();
      match i {
        case Dismiss =>
          if pendingAction.Some? && !pendingAction.value.Joining? && !pendingAction.value.CreatingRoom? {
            pendingAction := None;
          }
        case ClickJoin(room, sent) => JoinButton(room, sent);
        case ClickClose(sent) =>
          if hosting && sent {
            log := log + [SentClose];
          }
        case OpenDialog =>
          if !hosting {
            screen := screen.(dialog := true);
          }
        case CancelDialog =>
          if screen.dialog {
            screen := screen.(dialog := false);
          }
        case ClickCreate =>
          if screen.dialog {
            screen := screen.(dialog := false);
            pendingAction := Some(CreatingRoom);
          }
      }
    }

    /** Listed rooms offer the button unless they are one's own or full. */
    method JoinButton(room: Room, sent: bool)
      modifies this`pendingAction, this`log
      ensures View() == if Joinable(old(View()), room) then OnInput(old(View()), ClickJoin(room, sent)) else old(View())
      ensures log == old(log) +
                if room in rooms && nickname != Some(room.host) && room.current < room.max && sent
                then [SentJoin(room.id)] else []
    {
      var mine := nickname == Some(room.host);
      var full := room.current >= room.max;
      if room in rooms && !mine && !full && sent {
        log := log + [SentJoin(room.id)];
        pendingAction := Some(Joining(room.id));
      }
    }
  }
}
