/** The lobby server's shared maps and what each lock region does to them. */
module LobbyState {
  import opened Basics

  type Pid = nat      // player ids and room ids are fresh UUIDs
  type Rid = nat

  const MAX_TOTAL_PLAYERS := 500
  const MAX_TOTAL_ROOMS := 200
  const HEARTBEAT_TIMEOUT := 30    // seconds
  const GRACE_PERIOD := 60
  const JOIN_COOLDOWN := 5
  const WEB_VIEWER_PREFIX := "__web-viewer-"
  const U8_MAX := 255

  datatype Version = V127 | V129c

  datatype Player = Player(nickname: string, version: Version, ip: nat, lastHeartbeat: nat,
                           hostingRoom: Option<Rid>, joinedRoom: Option<Rid>, disconnectedAt: Option<nat>)

  datatype Room = Room(host: Pid, hostNickname: string, maxPlayers: nat, currentPlayers: nat, version: Version)

  type Players = map<Pid, Player>
  type Rooms = map<Rid, Room>

  predicate IsWebViewer(nickname: string) {
    WEB_VIEWER_PREFIX <= nickname
  }

  function SaturatingInc(n: nat): nat { if n >= U8_MAX then U8_MAX else n + 1 }
  function SaturatingDec(n: nat): nat { if n == 0 then 0 else n - 1 }

  predicate Online(players: Players, p: Pid) {
    p in players && players[p].disconnectedAt == None
  }

  function WithHosting(players: Players, p: Pid, room: Option<Rid>): Players {
    if p in players then players[p := players[p].(hostingRoom := room)] else players
  }

  function WithJoined(players: Players, p: Pid, room: Rid): Players {
    if p in players then players[p := players[p].(joinedRoom := Some(room))] else players
  }

  function WithHeartbeat(players: Players, p: Pid, now: nat): Players {
    if p in players then players[p := players[p].(lastHeartbeat := now)] else players
  }

  function Disconnected(players: Players, p: Pid, now: nat): Players {
    if p in players then players[p := players[p].(disconnectedAt := Some(now))] else players
  }

  predicate SeatFree(rooms: Rooms, r: Rid) {
    r in rooms && rooms[r].currentPlayers < rooms[r].maxPlayers
  }

  function WithSeatTaken(rooms: Rooms, r: Rid): Rooms
    requires r in rooms
  {
    rooms[r := rooms[r].(currentPlayers := SaturatingInc(rooms[r].currentPlayers))]
  }

  function WithSeatFreed(rooms: Rooms, r: Rid): Rooms {
    if r in rooms then rooms[r := rooms[r].(currentPlayers := SaturatingDec(rooms[r].currentPlayers))] else rooms
  }

  /** The second lock region of remove_player. */
  function AfterRemoval(rooms: Rooms, hosting: Option<Rid>, joined: Option<Rid>): Rooms {
    var kept := if hosting.Some? then rooms - {hosting.value} else rooms;
    if joined.Some? then WithSeatFreed(kept, joined.value) else kept
  }

  /** The rooms a RoomUpdate lists: both maps are read under their locks at once. */
  function VisibleRooms(players: Players, rooms: Rooms): set<Rid> {
    set r | r in rooms && Online(players, rooms[r].host)
  }

  predicate IsExpired(p: Player, now: nat) {
    if p.disconnectedAt.Some? then now - p.disconnectedAt.value > GRACE_PERIOD
    else now - p.lastHeartbeat > HEARTBEAT_TIMEOUT
  }

  function ExpiredPlayers(players: Players, now: nat): set<Pid> {
    set p | p in players && IsExpired(players[p], now)
  }

  /** AppState as written: two maps behind locks, each method one lock region. */
  class AppState {
    var players: Players
    var rooms: Rooms

    constructor ()
      ensures players == map[] && rooms == map[]
    {
      players, rooms := map[], map[];
    }

    method InsertPlayer(p: Pid, player: Player)
      modifies this`players
      ensures players == old(players)[p := player]
    {
      players := players[p := player];
    }

    method TouchHeartbeat(p: Pid, now: nat)
      modifies this`players
      ensures players == WithHeartbeat(old(players), p, now)
    {
      if p in players {
        players := players[p := players[p].(lastHeartbeat := now)];
      }
    }

    method LinkRoom(p: Pid, room: Rid)
      modifies this`players
      ensures players == WithHosting(old(players), p, Some(room))
    {
      if p in players {
        players := players[p := players[p].(hostingRoom := Some(room))];
      }
    }

    method TakeHosting(p: Pid) returns (room: Option<Rid>)
      modifies this`players
      ensures players == WithHosting(old(players), p, None)
      ensures room == if p in old(players) then old(players)[p].hostingRoom else None
    {
      room := None;
      if p in players {
        room := players[p].hostingRoom;
        players := players[p := players[p].(hostingRoom := None)];
      }
    }

    method ReserveSeat(r: Rid) returns (joined: bool)
      modifies this`rooms
      ensures joined == SeatFree(old(rooms), r)
      ensures rooms == if joined then WithSeatTaken(old(rooms), r) else old(rooms)
    {
      joined := false;
      if r in rooms {
        var room := rooms[r];
        if room.currentPlayers < room.maxPlayers {
          rooms := rooms[r := room.(currentPlayers := SaturatingInc(room.currentPlayers))];
          joined := true;
        }
      }
    }

    method ReplaceJoined(p: Pid, r: Rid) returns (previous: Option<Rid>)
      modifies this`players
      ensures players == WithJoined(old(players), p, r)
      ensures previous == if p in old(players) then old(players)[p].joinedRoom else None
    {
      previous := None;
      if p in players {
        previous := players[p].joinedRoom;
        players := players[p := players[p].(joinedRoom := Some(r))];
      }
    }

    method ReleaseSeat(r: Rid)
      modifies this`rooms
      ensures rooms == WithSeatFreed(old(rooms), r)
    {
      if r in rooms {
        rooms := rooms[r := rooms[r].(currentPlayers := SaturatingDec(rooms[r].currentPlayers))];
      }
    }

    method MarkDisconnected(p: Pid, now: nat)
      modifies this`players
      ensures players == Disconnected(old(players), p, now)
    {
      if p in players {
        players := players[p := players[p].(disconnectedAt := Some(now))];
      }
    }

    method InsertRoom(r: Rid, room: Room)
      modifies this`rooms
      ensures rooms == old(rooms)[r := room]
    {
      rooms := rooms[r := room];
    }

    method RemoveRoom(r: Rid)
      modifies this`rooms
      ensures rooms == old(rooms) - {r}
    {
      rooms := rooms - {r};
    }

    /** remove_player, first lock region: take the entry out. */
    method TakePlayer(p: Pid) returns (removed: Option<Player>)
      modifies this`players
      ensures removed == if p in old(players) then Some(old(players)[p]) else None
      ensures players == if p in old(players) then old(players) - {p} else old(players)
    {
      removed := None;
      if p in players {
        removed := Some(players[p]);
        players := players - {p};
      }
    }

    /** remove_player, second lock region: drop the hosted room, free the joined seat. */
    method ClearRooms(hosting: Option<Rid>, joined: Option<Rid>)
      modifies this`rooms
      ensures rooms == AfterRemoval(old(rooms), hosting, joined)
    {
      if hosting.Some? {
        rooms := rooms - {hosting.value};
      }
      if joined.Some? {
        ReleaseSeat(joined.value);
      }
    }

    /** find_expired: a filter over the player map, in some order. */
    method FindExpired(now: nat) returns (expired: seq<Pid>)
      ensures (set p | p in expired) == ExpiredPlayers(players, now)
      ensures forall p :: p in expired <==> p in players && IsExpired(players[p], now)
      ensures forall i, j :: 0 <= i < j < |expired| ==> expired[i] != expired[j]
    {
      expired := [];
      var todo := players.Keys;
      while todo != {}
        invariant todo <= players.Keys
        invariant forall p :: p in expired <==> p in players && p !in todo && IsExpired(players[p], now)
        invariant forall i, j :: 0 <= i < j < |expired| ==> expired[i] != expired[j]
        decreases todo
      {
        var p :| p in todo;
        todo := todo - {p};
        if IsExpired(players[p], now) {
          expired := expired + [p];
        }
      }
    }

    /** The room half of the snapshot broadcast_state takes: a filter over the room map. */
    method RoomSnapshot() returns (ids: seq<Rid>)
      ensures forall r :: r in ids <==> r in rooms && Online(players, rooms[r].host)
      ensures forall i, j :: 0 <= i < j < |ids| ==> ids[i] != ids[j]
    {
      ids := [];
      var todo := rooms.Keys;
      while todo != {}
        invariant todo <= rooms.Keys
        invariant forall r :: r in ids <==> r in rooms && r !in todo && Online(players, rooms[r].host)
        invariant forall i, j :: 0 <= i < j < |ids| ==> ids[i] != ids[j]
        decreases todo
      {
        var r :| r in todo;
        todo := todo - {r};
        var host := rooms[r].host;
        if host in players && players[host].disconnectedAt == None {
          ids := ids + [r];
        }
      }
    }

    /** The player half: web viewers and players in their grace period are not listed. */
    method PlayerSnapshot() returns (ids: seq<Pid>)
      ensures forall p :: p in ids <==> Online(players, p) && !IsWebViewer(players[p].nickname)
      ensures forall i, j :: 0 <= i < j < |ids| ==> ids[i] != ids[j]
    {
      ids := [];
      var todo := players.Keys;
      while todo != {}
        invariant todo <= players.Keys
        invariant forall p :: p in ids <==> p !in todo && Online(players, p) && !IsWebViewer(players[p].nickname)
        invariant forall i, j :: 0 <= i < j < |ids| ==> ids[i] != ids[j]
        decreases todo
      {
        var p :| p in todo;
        todo := todo - {p};
        if players[p].disconnectedAt == None && !IsWebViewer(players[p].nickname) {
          ids := ids + [p];
        }
      }
    }
  }
}
