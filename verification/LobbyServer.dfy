/** handle_socket and the cleanup task as written: each method is one lock region of a
    message arm, acting in place on the shared maps and the tunnel tables. */
module LobbyServer {
  import opened Basics
  import opened LobbyState
  import opened Lobby
  import Runs = LobbyRuns
  import Upnp
  import Pairing
  import TunnelServer

  class SocketServer {
    const app: AppState
    const upnp: Upnp.UpnpTable
    const tunnels: TunnelServer.SocketTunnels
    var handlers: map<Pid, Handler>
    var cleaner: Cleaner
    var clock: nat
    ghost var usedRooms: set<Rid>
    ghost var lost: map<Rid, nat>
    ghost var run: seq<Step>

    ghost function View(): Server
      reads this`handlers, this`cleaner, this`clock, this`usedRooms, this`lost, app
    {
      Server(app.players, app.rooms, handlers, cleaner, clock, usedRooms, lost)
    }

    /** The maps are the outcome of a run, the one recorded, so that whatever holds of all
        runs holds of them. */
    ghost predicate Valid()
      reads this, app
    {
      Legal(run) && After(run) == View()
    }

    constructor ()
      ensures Valid() && upnp.Valid() && tunnels.Valid() && run == []
      ensures fresh(app) && fresh(upnp) && fresh(tunnels)
    {
      app := new AppState();
      upnp := new Upnp.UpnpTable();
      tunnels := new TunnelServer.SocketTunnels();
      handlers, cleaner, clock := map[], Resting, 0;
      usedRooms, lost, run := {}, map[], [];
    }

    /** One more step of the run. */
    ghost method Record(st: Step)
      requires Valid() && Enabled(View(), st)
      modifies this`run
      ensures run == old(run) + [st] && Legal(run) && After(run) == Apply(View(), st)
    {
      run := run + [st];
      assert Before(run) == old(run);
    }

    method SetPc(p: Pid, pc: Pc)
      requires p in handlers
      modifies this`handlers
      ensures handlers == old(handlers)[p := old(handlers)[p].(pc := pc)]
    {
      handlers := handlers[p := handlers[p].(pc := pc)];
    }

    method FinishJoin(p: Pid)
      requires p in handlers
      modifies this`handlers
      ensures handlers == old(handlers)[p := old(handlers)[p].(pc := Broadcasting, lastJoinAt := Some(clock))]
    {
      handlers := handlers[p := handlers[p].(pc := Broadcasting, lastJoinAt := Some(clock))];
    }

    /** A WebSocket was accepted; p is its fresh player id. */
    method OnConnect(p: Pid, ip: nat)
      requires Valid() && p !in handlers
      modifies this`handlers, this`run
      ensures Valid() && run == old(run) + [Connect(p, ip)]
    {
      Record(Connect(p, ip));
      handlers := handlers[p := Handler(ip, false, false, Idle, None)];
    }

    method Elapse(seconds: nat)
      requires Valid()
      modifies this`clock, this`run
      ensures Valid() && run == old(run) + [Tick(seconds)]
    {
      Record(Tick(seconds));
      clock := clock + seconds;
    }

    method OnRegister(p: Pid, nickname: string, version: Version)
      requires Valid() && Enabled(View(), Register(p, nickname, version))
      modifies this`handlers, this`run
      ensures Valid() && run == old(run) + [Register(p, nickname, version)]
      ensures handlers[p].pc.RegisterInsert? <==> !old(handlers[p].registered) && |app.players| < 500
      ensures handlers[p].pc.RegisterInsert? ==>
                handlers[p].pc == RegisterInsert(nickname, version, clock) &&
                (handlers[p].webViewer <==> "__web-viewer-" <= nickname)
    {
      Record(Register(p, nickname, version));
      var h := handlers[p];
      if h.registered { return; }
      if |app.players| >= MAX_TOTAL_PLAYERS { return; }
      handlers := handlers[p := h.(webViewer := IsWebViewer(nickname), pc := RegisterInsert(nickname, version, clock))];
    }

    method OnHeartbeat(p: Pid)
      requires Valid() && Enabled(View(), Heartbeat(p))
      modifies this`run, app
      ensures Valid() && run == old(run) + [Heartbeat(p)]
      ensures p in old(app.players) ==> app.players == old(app.players)[p := app.players[p]]
      ensures p in old(app.players) ==> app.players[p] == old(app.players)[p].(lastHeartbeat := clock)
    {
      Record(Heartbeat(p));
      app.TouchHeartbeat(p, clock);
    }

    method OnCreateRoom(p: Pid, max: nat)
      requires Valid() && Enabled(View(), CreateRoom(p, max))
      modifies this`handlers, this`run
      ensures Valid() && run == old(run) + [CreateRoom(p, max)]
      ensures handlers[p].pc.CreateCheckCap? <==>
                old(handlers[p].registered && !handlers[p].webViewer) &&
                p in app.players && app.players[p].hostingRoom.None?
      ensures handlers[p].pc.CreateCheckCap? ==>
                handlers[p].pc == CreateCheckCap(app.players[p].nickname, app.players[p].version, max)
    {
      Record(CreateRoom(p, max));
      if !MayPlay(handlers[p]) || p !in app.players { return; }
      var me := app.players[p];
      if me.hostingRoom.Some? { return; }
      SetPc(p, CreateCheckCap(me.nickname, me.version, max));
    }

    method OnCloseRoom(p: Pid)
      requires Valid() && Enabled(View(), CloseRoom(p))
      modifies this`handlers, this`run, app
      ensures Valid() && run == old(run) + [CloseRoom(p)]
      ensures handlers[p].pc.CloseRemove? <==>
                old(handlers[p].registered && !handlers[p].webViewer) &&
                old(p in app.players && app.players[p].hostingRoom.Some?)
      ensures handlers[p].pc.CloseRemove? ==>
                old(app.players[p].hostingRoom) == Some(handlers[p].pc.room) && app.players[p].hostingRoom == None
    {
      Record(CloseRoom(p));
      if !MayPlay(handlers[p]) { return; }
      var room := app.TakeHosting(p);
      if room.Some? {
        SetPc(p, CloseRemove(room.value));
      }
    }

    method OnJoinRoom(p: Pid, room: Rid)
      requires Valid() && Enabled(View(), JoinRoom(p, room))
      modifies this`handlers, this`run
      ensures Valid() && run == old(run) + [JoinRoom(p, room)]
      ensures handlers[p].pc.JoinReadPlayers? <==>
                && old(handlers[p].registered && !handlers[p].webViewer) && room in app.rooms
                && (old(handlers[p].lastJoinAt).None? || clock - old(handlers[p].lastJoinAt).value >= 5)
      ensures handlers[p].pc.JoinReadPlayers? ==>
                handlers[p].pc == JoinReadPlayers(room, app.rooms[room].host, app.rooms[room].version)
    {
      Record(JoinRoom(p, room));
      var h := handlers[p];
      if !MayPlay(h) { return; }
      if h.lastJoinAt.Some? && clock - h.lastJoinAt.value < JOIN_COOLDOWN { return; }
      if room !in app.rooms { return; }
      SetPc(p, JoinReadPlayers(room, app.rooms[room].host, app.rooms[room].version));
    }

    method RegisterPlayer(p: Pid, uuid: Rid)
      requires Valid() && Enabled(View(), Continue(p, uuid)) && handlers[p].pc.RegisterInsert?
      modifies this`handlers, this`run, app
      ensures Valid() && run == old(run) + [Continue(p, uuid)]
      ensures handlers[p].registered && handlers[p].pc == Broadcasting
      ensures p in app.players && var pc := old(handlers[p].pc);
              app.players[p] == Player(pc.nickname, pc.version, handlers[p].ip, pc.since, None, None, None)
    {
      Record(Continue(p, uuid));
      var h := handlers[p];
      app.InsertPlayer(p, Player(h.pc.nickname, h.pc.version, h.ip, h.pc.since, None, None, None));
      handlers := handlers[p := h.(registered := true, pc := Broadcasting)];
    }

    /** CreateRoom past its first region: the cap, the insertion, the link. */
    method ResumeCreate(p: Pid, uuid: Rid)
      requires Valid() && Enabled(View(), Continue(p, uuid))
      requires handlers[p].pc.CreateCheckCap? || handlers[p].pc.CreateInsert? || handlers[p].pc.CreateLink?
      modifies this`handlers, this`run, this`usedRooms, app
      ensures Valid() && run == old(run) + [Continue(p, uuid)]
      ensures old(handlers[p].pc).CreateCheckCap? ==> (handlers[p].pc.CreateInsert? <==> |app.rooms| < 200)
      ensures old(handlers[p].pc).CreateInsert? ==>
                var pc := old(handlers[p].pc);
                handlers[p].pc == CreateLink(uuid) &&
                app.rooms == old(app.rooms)[uuid := Room(p, pc.nickname, pc.maxPlayers, 1, pc.version)]
      ensures old(handlers[p].pc).CreateLink? && p in old(app.players) ==>
                p in app.players && app.players[p].hostingRoom == Some(old(handlers[p].pc).room)
    {
      Record(Continue(p, uuid));
      match handlers[p].pc {
        case CreateCheckCap(nickname, version, max) =>
          SetPc(p, if |app.rooms| >= MAX_TOTAL_ROOMS then Idle else CreateInsert(nickname, version, max));
        case CreateInsert(nickname, version, max) =>
          app.InsertRoom(uuid, Room(p, nickname, max, 1, version));
          usedRooms := usedRooms + {uuid};
          SetPc(p, CreateLink(uuid));
        case CreateLink(room) =>
          app.LinkRoom(p, room);
          SetPc(p, Broadcasting);
      }
    }

    /** CloseRoom's second region. */
    method ResumeClose(p: Pid, uuid: Rid)
      requires Valid() && Enabled(View(), Continue(p, uuid)) && handlers[p].pc.CloseRemove?
      modifies this`handlers, this`run, app
      ensures Valid() && run == old(run) + [Continue(p, uuid)]
      ensures app.rooms == old(app.rooms) - {old(handlers[p].pc).room}
    {
      Record(Continue(p, uuid));
      app.RemoveRoom(handlers[p].pc.room);
      SetPc(p, Broadcasting);
    }

    /** broadcast_state: the maps do not change, and nobody who was ever disconnected or
        removed is listed, nor any room of theirs. */
    method Broadcast(p: Pid, uuid: Rid) returns (shownPlayers: seq<Pid>, shownRooms: seq<Rid>)
      requires Valid() && Enabled(View(), Continue(p, uuid)) && handlers[p].pc.Broadcasting?
      modifies this`handlers, this`run
      ensures Valid() && run == old(run) + [Continue(p, uuid)]
      ensures forall r :: r in shownRooms <==>
                && r in app.rooms && app.rooms[r].host in app.players
                && app.players[app.rooms[r].host].disconnectedAt == None
      ensures forall q :: q in shownPlayers <==>
                q in app.players && app.players[q].disconnectedAt == None && !IsWebViewer(app.players[q].nickname)
      ensures forall r :: r in shownRooms ==> !Runs.EverDeparted(run, app.rooms[r].host)
      ensures forall q :: q in shownPlayers ==> !Runs.EverDeparted(run, q)
    {
      shownPlayers := app.PlayerSnapshot();
      shownRooms := app.RoomSnapshot();
      Record(Continue(p, uuid));
      SetPc(p, Idle);
      forall q | Online(app.players, q) ensures !Runs.EverDeparted(run, q) {
        OnlineNeverDeparted(q);
      }
    }

    lemma OnlineNeverDeparted(q: Pid)
      requires Valid() && Online(app.players, q)
      ensures !Runs.EverDeparted(run, q)
    {
      if Runs.EverDeparted(run, q) {
        Runs.DepartedForGood(run, q);
        assert false;
      }
    }

    /** JoinRoom step 2: the player check, and the host's address. */
    method JoinCheck(p: Pid, uuid: Rid) returns (hostIp: nat)
      requires Valid() && Enabled(View(), Continue(p, uuid)) && handlers[p].pc.JoinReadPlayers?
      modifies this`handlers, this`run
      ensures Valid() && run == old(run) + [Continue(p, uuid)]
      ensures handlers[p].pc.JoinReserve? <==>
                var pc := old(handlers[p].pc);
                && p in app.players && app.players[p].version == pc.roomVersion
                && pc.host in app.players && app.players[pc.host].disconnectedAt == None
      ensures handlers[p].pc.JoinReserve? ==>
                handlers[p].pc.room == old(handlers[p].pc).room && hostIp == app.players[old(handlers[p].pc).host].ip
      ensures !handlers[p].pc.JoinReserve? ==> handlers[p].pc == Idle
    {
      Record(Continue(p, uuid));
      hostIp := 0;
      var host := handlers[p].pc.host;
      if p in app.players && app.players[p].version == handlers[p].pc.roomVersion && Online(app.players, host) {
        hostIp := app.players[host].ip;
        SetPc(p, JoinReserve(handlers[p].pc.room));
      } else {
        SetPc(p, Idle);
      }
    }

    /** Step 3: the seat. */
    method JoinSeat(p: Pid, uuid: Rid)
      requires Valid() && Enabled(View(), Continue(p, uuid)) && handlers[p].pc.JoinReserve?
      modifies this`handlers, this`run, app
      ensures Valid() && run == old(run) + [Continue(p, uuid)]
      ensures var r := old(handlers[p].pc).room;
              && (handlers[p].pc == JoinUpnp(r) <==>
                    r in old(app.rooms) && old(app.rooms)[r].currentPlayers < old(app.rooms)[r].maxPlayers)
              && (handlers[p].pc == JoinUpnp(r) ==>
                    r in app.rooms && app.rooms[r].currentPlayers == SaturatingInc(old(app.rooms)[r].currentPlayers))
              && (handlers[p].pc != JoinUpnp(r) ==> handlers[p].pc == Idle && app.rooms == old(app.rooms))
    {
      Record(Continue(p, uuid));
      var room := handlers[p].pc.room;
      var joined := app.ReserveSeat(room);
      SetPc(p, if joined then JoinUpnp(room) else Idle);
    }

    /** Step 4: the fresh token is registered in the UPnP table, */
    method JoinRegisterUpnp(p: Pid, token: Rid, hostIp: nat)
      requires Valid() && Enabled(View(), Continue(p, token)) && handlers[p].pc.JoinUpnp?
      requires upnp.Valid() && token !in upnp.issued
      modifies this`handlers, this`run, upnp
      ensures Valid() && run == old(run) + [Continue(p, token)]
      ensures upnp.Valid() && upnp.run == old(upnp.run) + [Upnp.Register(token, hostIp, p)]
    {
      upnp.Insert(token, hostIp, p);
      Record(Continue(p, token));
      SetPc(p, JoinBind(handlers[p].pc.room));
    }

    /** and the same token is bound to both addresses. */
    method JoinBindToken(p: Pid, uuid: Rid, token: nat, hostIp: nat)
      requires Valid() && Enabled(View(), Continue(p, uuid)) && handlers[p].pc.JoinBind?
      requires token in upnp.issued && upnp.issued[token].joiner == p && upnp.issued[token].hostIp == hostIp
      requires tunnels.Valid() && token !in tunnels.issued
      modifies this`handlers, this`run, tunnels
      ensures Valid() && run == old(run) + [Continue(p, uuid)]
      ensures tunnels.Valid()
      ensures tunnels.tokenBindings == old(tunnels.tokenBindings)[token := Pairing.Binding(hostIp, handlers[p].ip)]
    {
      tunnels.RegisterToken(token, Pairing.Binding(hostIp, handlers[p].ip));
      Record(Continue(p, uuid));
      SetPc(p, JoinCommit(handlers[p].pc.room));
    }

    /** Step 5: the player entry, */
    method JoinCommitEntry(p: Pid, uuid: Rid)
      requires Valid() && Enabled(View(), Continue(p, uuid)) && handlers[p].pc.JoinCommit?
      modifies this`handlers, this`run, this`lost, app
      ensures Valid() && run == old(run) + [Continue(p, uuid)]
      ensures p in old(app.players) ==>
                p in app.players && app.players[p].joinedRoom == Some(old(handlers[p].pc).room)
      ensures var previous := if p in old(app.players) then old(app.players)[p].joinedRoom else None;
              handlers[p].pc == if previous.Some? then JoinRelease(previous.value) else Broadcasting
    {
      Record(Continue(p, uuid));
      var room := handlers[p].pc.room;
      if p !in app.players {
        lost := lost[room := Lost(View(), room) + 1];
        FinishJoin(p);
        return;
      }
      var previous := app.ReplaceJoined(p, room);
      if previous.Some? {
        SetPc(p, JoinRelease(previous.value));
      } else {
        FinishJoin(p);
      }
    }

    /** then the seat of the room it replaced. */
    method JoinReleaseSeat(p: Pid, uuid: Rid)
      requires Valid() && Enabled(View(), Continue(p, uuid)) && handlers[p].pc.JoinRelease?
      modifies this`handlers, this`run, app
      ensures Valid() && run == old(run) + [Continue(p, uuid)]
      ensures handlers[p].pc == Broadcasting && handlers[p].lastJoinAt == Some(clock)
    {
      Record(Continue(p, uuid));
      app.ReleaseSeat(handlers[p].pc.previous);
      FinishJoin(p);
    }

    /** The select! ends while the receive loop is suspended anywhere. */
    method OnCancel(p: Pid)
      requires Valid() && Enabled(View(), Cancel(p))
      modifies this`handlers, this`run, this`lost
      ensures Valid() && run == old(run) + [Cancel(p)]
      ensures handlers == old(handlers)[p := old(handlers[p]).(pc := Leaving)]
    {
      Record(Cancel(p));
      ghost var seat := SeatOf(handlers[p].pc);
      if seat.Some? {
        lost := lost[seat.value := Lost(View(), seat.value) + 1];
      }
      SetPc(p, Leaving);
    }

    method OnLeave(p: Pid)
      requires Valid() && Enabled(View(), Leave(p))
      modifies this`handlers, this`run, app
      ensures Valid() && run == old(run) + [Leave(p)]
      ensures old(handlers[p].pc).Leaving? && old(handlers[p].registered) && p in old(app.players) ==>
                if old(handlers[p].webViewer) then app.players == old(app.players) - {p}
                else p in app.players && app.players[p] == old(app.players)[p].(disconnectedAt := Some(clock))
    {
      Record(Leave(p));
      var h := handlers[p];
      if h.pc.LeaveClear? {
        app.ClearRooms(h.pc.hosting, h.pc.joined);
        SetPc(p, Gone);
      } else if !h.registered {
        SetPc(p, Gone);
      } else if !h.webViewer {
        app.MarkDisconnected(p, clock);
        SetPc(p, Gone);
      } else {
        var removed := app.TakePlayer(p);
        SetPc(p, if removed.Some? then LeaveClear(removed.value.hostingRoom, removed.value.joinedRoom) else Gone);
      }
    }

    method CleanupScan() returns (expired: seq<Pid>)
      requires Valid() && cleaner.Resting?
      modifies this`cleaner, this`run
      ensures Valid() && run == old(run) + [Scan(expired)]
      ensures forall p | p in app.players :: p in expired <==>
                if app.players[p].disconnectedAt.Some? then clock - app.players[p].disconnectedAt.value > 60
                else clock - app.players[p].lastHeartbeat > 30
      ensures forall p | p in expired :: p in app.players
    {
      expired := app.FindExpired(clock);
      Record(Scan(expired));
      cleaner := Sweeping(expired);
    }

    method CleanupSweep()
      requires Valid() && cleaner.Sweeping?
      modifies this`cleaner, this`run, app
      ensures Valid() && run == old(run) + [Sweep]
      ensures old(cleaner.todo) != [] ==> app.players.Keys == old(app.players).Keys - {old(cleaner.todo)[0]}
    {
      Record(Sweep);
      if cleaner.todo == [] {
        cleaner := Resting;
        return;
      }
      var p, rest := cleaner.todo[0], cleaner.todo[1..];
      var removed := app.TakePlayer(p);
      cleaner := if removed.Some? then Clearing(p, removed.value.hostingRoom, removed.value.joinedRoom, rest)
                 else Sweeping(rest);
    }

    method CleanupClear()
      requires Valid() && cleaner.Clearing?
      modifies this`cleaner, this`run, app
      ensures Valid() && run == old(run) + [Clear]
    {
      Record(Clear);
      app.ClearRooms(cleaner.hosting, cleaner.joined);
      cleaner := Sweeping(cleaner.todo);
    }
  }
}
