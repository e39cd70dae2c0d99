/** Which rooms outlive their hosts: exactly those whose creation or closing was cut off. */
module LobbyOrphans {
  import opened Basics
  import opened LobbyState
  import opened Lobby
  import Hosting = LobbyHosting
  import Runs = LobbyRuns

  /** Handler p has room r in hand: inserted but not linked, unlinked but not removed, or
      about to be cleared on the way out. */
  predicate InHand(handlers: map<Pid, Handler>, p: Pid, r: Rid) {
    p in handlers && var pc := handlers[p].pc;
      Hosting.Unlinked(pc) == Some(r) || (pc.LeaveClear? && pc.hosting == Some(r))
  }

  predicate Links(players: Players, p: Pid, r: Rid) {
    p in players && players[p].hostingRoom == Some(r)
  }

  /** Somebody will still see to the removal of room r. */
  predicate Owned(s: Server, r: Rid)
    requires r in s.rooms
  {
    var host := s.rooms[r].host;
    || InHand(s.handlers, host, r)
    || Links(s.players, host, r)
    || (s.cleaner.Clearing? && s.cleaner.hosting == Some(r))
  }

  /** The step cuts off the creation or the closing of room r: its handler is cancelled with
      r in hand, or comes to link r after its player was removed. */
  predicate CutsRoom(s: Server, st: Step, r: Rid) {
    || (st.Cancel? && st.p in s.handlers && Hosting.Unlinked(s.handlers[st.p].pc) == Some(r))
    || (st.Continue? && st.p in s.handlers && s.handlers[st.p].pc == CreateLink(r) && st.p !in s.players)
  }

  ghost predicate EverCut(run: seq<Step>, r: Rid)
    requires Legal(run)
    decreases |run|
  {
    run != [] && (EverCut(Before(run), r) || CutsRoom(After(Before(run)), Last(run), r))
  }

  // ------------------------------------------------------------ one step

  /** A room that survives a step keeps its owner unless the step cuts it off. */
  ghost predicate Keeps(s: Server, st: Step, r: Rid)
    requires Enabled(s, st)
  {
    var s' := Apply(s, st);
    r in s.rooms && r in s'.rooms ==>
      s'.rooms[r].host == s.rooms[r].host && (Owned(s', r) <==> Owned(s, r) && !CutsRoom(s, st, r))
  }

  lemma KeepsPosition(s: Server, st: Step, r: Rid)
    requires Hosting.Inv(s) && Enabled(s, st)
    requires st.Connect? || st.Register? || st.CreateRoom? || st.JoinRoom?
    ensures Keeps(s, st, r)
  {
    if r in s.rooms {
      HostFits(s, r);
      if st.Connect? || st.Register? { KeepsArrival(s, st, r); } else { KeepsRequest(s, st, r); }
    }
  }

  lemma KeepsArrival(s: Server, st: Step, r: Rid)
    requires Enabled(s, st) && r in s.rooms && s.rooms[r].host in s.handlers && (st.Connect? || st.Register?)
    ensures Keeps(s, st, r)
  {
  }

  lemma KeepsRequest(s: Server, st: Step, r: Rid)
    requires Enabled(s, st) && r in s.rooms && (st.CreateRoom? || st.JoinRoom?)
    ensures Keeps(s, st, r)
  {
  }

  lemma KeepsCancel(s: Server, p: Pid, r: Rid)
    requires Hosting.Inv(s) && Enabled(s, Cancel(p))
    ensures Keeps(s, Cancel(p), r)
  {
    if r in s.rooms {
      HostFits(s, r);
    }
  }

  lemma KeepsClose(s: Server, p: Pid, r: Rid)
    requires Hosting.Inv(s) && Enabled(s, CloseRoom(p))
    ensures Keeps(s, CloseRoom(p), r)
  {
    if r in s.rooms {
      HostFits(s, r);
    }
  }

  lemma KeepsLeave(s: Server, p: Pid, r: Rid)
    requires Hosting.Inv(s) && Enabled(s, Leave(p))
    ensures Keeps(s, Leave(p), r)
  {
    if r in s.rooms {
      HostFits(s, r);
      assert Hosting.HandlerFits(s, p);
      if s.handlers[p].pc.LeaveClear? { KeepsClearing(s, p, r); } else { KeepsLeaving(s, p, r); }
    }
  }

  lemma KeepsClearing(s: Server, p: Pid, r: Rid)
    requires Enabled(s, Leave(p)) && s.handlers[p].pc.LeaveClear? && r in s.rooms && Hosting.HandlerFits(s, p)
    ensures Keeps(s, Leave(p), r)
  {
  }

  lemma KeepsLeaving(s: Server, p: Pid, r: Rid)
    requires Enabled(s, Leave(p)) && s.handlers[p].pc.Leaving? && r in s.rooms
    requires Hosting.HandlerFits(s, p) && Hosting.HostingExact(s)
    ensures Keeps(s, Leave(p), r)
  {
  }

  lemma KeepsCleanup(s: Server, st: Step, r: Rid)
    requires Hosting.Inv(s) && Enabled(s, st)
    requires st.Heartbeat? || st.Scan? || st.Sweep? || st.Clear? || st.Tick?
    ensures Keeps(s, st, r)
  {
  }

  /** What the hosting invariant says about the host of r. */
  lemma HostFits(s: Server, r: Rid)
    requires Hosting.Inv(s) && r in s.rooms
    ensures var h := s.rooms[r].host;
      h in s.handlers && s.handlers[h].registered && Hosting.RoomFits(s, h, r) && Hosting.HandlerFits(s, h)
  {
  }

  lemma KeepsContinue(s: Server, p: Pid, uuid: Rid, r: Rid)
    requires Hosting.Inv(s) && Enabled(s, Continue(p, uuid))
    ensures Keeps(s, Continue(p, uuid), r)
  {
    if r in s.rooms {
      HostFits(s, r);
      Runs.ContinueHandlers(s, p, uuid);
      Runs.ContinuePlayers(s, p, uuid);
      Runs.ContinueRooms(s, p, uuid);
      if p == s.rooms[r].host {
        KeepsOwnContinue(s, p, uuid, r);
      }
    }
  }

  lemma KeepsOwnContinue(s: Server, p: Pid, uuid: Rid, r: Rid)
    requires Hosting.Inv(s) && Enabled(s, Continue(p, uuid)) && r in s.rooms && s.rooms[r].host == p
    ensures Keeps(s, Continue(p, uuid), r)
  {
    HostFits(s, r);
    var pc := s.handlers[p].pc;
    if pc.CreateLink? || pc.CloseRemove? {
      KeepsInHand(s, p, uuid, r);
    } else {
      KeepsLinked(s, p, uuid, r);
    }
  }

  lemma KeepsInHand(s: Server, p: Pid, uuid: Rid, r: Rid)
    requires Enabled(s, Continue(p, uuid)) && r in s.rooms && s.rooms[r].host == p
    requires Hosting.RoomFits(s, p, r) && Hosting.HandlerFits(s, p) && Hosting.CleanerFits(s)
    requires s.handlers[p].pc.CreateLink? || s.handlers[p].pc.CloseRemove?
    ensures Keeps(s, Continue(p, uuid), r)
  {
  }

  /** The host's handler is at work on something else, so its entry is what links r. */
  lemma KeepsLinked(s: Server, p: Pid, uuid: Rid, r: Rid)
    requires Enabled(s, Continue(p, uuid)) && r in s.rooms && s.rooms[r].host == p
    requires Hosting.RoomFits(s, p, r) && uuid !in s.rooms
    requires var pc := s.handlers[p].pc; !pc.CreateLink? && !pc.CloseRemove? && !pc.RegisterInsert?
    ensures Keeps(s, Continue(p, uuid), r)
  {
    Runs.ContinueHandlers(s, p, uuid);
    Runs.ContinueRooms(s, p, uuid);
    LinkKept(s, p, uuid);
    NotInHand(s, p, uuid, r);
    SameOwner(s, Apply(s, Continue(p, uuid)), p, r);
  }

  lemma NotInHand(s: Server, p: Pid, uuid: Rid, r: Rid)
    requires Enabled(s, Continue(p, uuid)) && r != uuid
    requires var pc := s.handlers[p].pc; !pc.CreateLink? && !pc.CloseRemove?
    ensures !InHand(s.handlers, p, r) && !InHand(Apply(s, Continue(p, uuid)).handlers, p, r)
  {
  }

  lemma SameOwner(s: Server, s': Server, p: Pid, r: Rid)
    requires r in s.rooms && s.rooms[r].host == p && !InHand(s.handlers, p, r) && !InHand(s'.handlers, p, r)
    requires s'.cleaner == s.cleaner && (Links(s.players, p, r) <==> Links(s'.players, p, r))
    ensures r in s'.rooms && s'.rooms[r].host == p ==> (Owned(s', r) <==> Owned(s, r))
  {
  }

  lemma LinkKept(s: Server, p: Pid, uuid: Rid)
    requires Enabled(s, Continue(p, uuid))
    requires var pc := s.handlers[p].pc; !pc.CreateLink? && !pc.RegisterInsert?
    ensures var s' := Apply(s, Continue(p, uuid));
      (p in s.players <==> p in s'.players) &&
      (p in s.players ==> s'.players[p].hostingRoom == s.players[p].hostingRoom)
  {
  }

  lemma StepKeeps(s: Server, st: Step, r: Rid)
    requires Hosting.Inv(s) && Enabled(s, st)
    ensures Keeps(s, st, r)
  {
    match st {
      case Continue(p, uuid) => KeepsContinue(s, p, uuid, r);
      case CloseRoom(p) => KeepsClose(s, p, r);
      case Leave(p) => KeepsLeave(s, p, r);
      case Connect(_, _) => KeepsPosition(s, st, r);
      case Register(_, _, _) => KeepsPosition(s, st, r);
      case CreateRoom(_, _) => KeepsPosition(s, st, r);
      case JoinRoom(_, _) => KeepsPosition(s, st, r);
      case Cancel(p) => KeepsCancel(s, p, r);
      case Heartbeat(_) => KeepsCleanup(s, st, r);
      case Scan(_) => KeepsCleanup(s, st, r);
      case Sweep => KeepsCleanup(s, st, r);
      case Clear => KeepsCleanup(s, st, r);
      case Tick(_) => KeepsCleanup(s, st, r);
    }
  }

  /** A room that appears is new, and in its creator's hand. */
  lemma StepAdds(s: Server, st: Step, r: Rid)
    requires Hosting.Inv(s) && Enabled(s, st) && r !in s.rooms && r in Apply(s, st).rooms
    ensures r !in s.usedRooms && !CutsRoom(s, st, r) && Owned(Apply(s, st), r)
  {
    if st.Continue? {
      Runs.ContinueRooms(s, st.p, st.uuid);
      InsertAdds(s, st.p, st.uuid, r);
    } else {
      Runs.OtherKeys(s, st);
      assert false;
    }
  }

  lemma InsertAdds(s: Server, p: Pid, uuid: Rid, r: Rid)
    requires Enabled(s, Continue(p, uuid)) && s.handlers[p].pc.CreateInsert?
    requires r !in s.rooms && r in Apply(s, Continue(p, uuid)).rooms
    ensures r == uuid && !CutsRoom(s, Continue(p, uuid), r) && Owned(Apply(s, Continue(p, uuid)), r)
  {
  }

  lemma StepUses(s: Server, st: Step)
    requires Enabled(s, st)
    ensures s.usedRooms <= Apply(s, st).usedRooms
  {
    if st.Continue? {
      ContinueUses(s, st.p, st.uuid);
    }
  }

  lemma ContinueUses(s: Server, p: Pid, uuid: Rid)
    requires Enabled(s, Continue(p, uuid))
    ensures s.usedRooms <= ApplyContinue(s, p, uuid).usedRooms
  {
  }

  /** Only an ownerless room's owner is missing: nobody removes it. */
  lemma StepRetains(s: Server, st: Step, r: Rid)
    requires Hosting.Inv(s) && Enabled(s, st) && r in s.rooms && !Owned(s, r)
    ensures r in Apply(s, st).rooms
  {
    HostFits(s, r);
    if st.Continue? || st.Leave? {
      assert Hosting.HandlerFits(s, st.p);
    }
  }

  lemma CutRoomWasKnown(s: Server, st: Step, r: Rid)
    requires Hosting.Inv(s) && CutsRoom(s, st, r)
    ensures r in s.usedRooms
  {
    assert Hosting.HandlerFits(s, st.p);
  }

  // ------------------------------------------------------------ over runs

  lemma {:induction false} OnlyKnownRoomsCut(run: seq<Step>, r: Rid)
    requires Legal(run) && EverCut(run, r)
    ensures r in After(run).usedRooms
  {
    Runs.RunInv(Before(run));
    StepUses(After(Before(run)), Last(run));
    if EverCut(Before(run), r) {
      OnlyKnownRoomsCut(Before(run), r);
    } else {
      CutRoomWasKnown(After(Before(run)), Last(run), r);
    }
  }

  /** A room in the map is orphaned, with nobody left to remove it, if and only if its
      creation or closing was cut off. */
  lemma {:induction false} OrphanedIffCut(run: seq<Step>, r: Rid)
    requires Legal(run) && r in After(run).rooms
    ensures !Owned(After(run), r) <==> EverCut(run, r)
  {
    if run != [] {
      var s := After(Before(run));
      Runs.RunInv(Before(run));
      if r in s.rooms {
        OrphanedIffCut(Before(run), r);
        StepKeeps(s, Last(run), r);
      } else {
        StepAdds(s, Last(run), r);
        if EverCut(Before(run), r) {
          OnlyKnownRoomsCut(Before(run), r);
        }
      }
    }
  }

  /** And then it is never removed, whatever happens later. */
  lemma {:induction false} OrphansStay(run: seq<Step>, k: nat, r: Rid)
    requires Legal(run) && k <= |run| && Legal(run[..k])
    requires r in After(run[..k]).rooms && EverCut(run[..k], r)
    ensures r in After(run).rooms && !Owned(After(run), r)
  {
    if k == |run| {
      assert run[..k] == run;
      OrphanedIffCut(run, r);
    } else {
      assert Before(run)[..k] == run[..k];
      OrphansStay(Before(run), k, r);
      Runs.RunInv(Before(run));
      StepRetains(After(Before(run)), Last(run), r);
      StepKeeps(After(Before(run)), Last(run), r);
    }
  }

  // ------------------------------------------------------------ a run that orphans a room

  lemma Extend(run: seq<Step>, st: Step) returns (run': seq<Step>)
    requires Legal(run) && Enabled(After(run), st)
    ensures Legal(run') && After(run') == Apply(After(run), st)
  {
    run' := run + [st];
    assert Before(run') == run;
  }

  /** The only player, registered and waiting for its next message. */
  function Alone(h: Handler): Server {
    INIT.(players := map[0 := Player("host", V127, 0, 0, None, None, None)], handlers := map[0 := h])
  }

  lemma RegisteredRun() returns (run: seq<Step>)
    ensures Legal(run) && After(run) == Alone(Handler(0, true, false, Idle, None))
  {
    run := Extend([], Connect(0, 0));
    run := Extend(run, Register(0, "host", V127));
    run := Extend(run, Continue(0, 0));
    run := Extend(run, Continue(0, 0));
  }

  lemma InsertedRun() returns (run: seq<Step>)
    ensures Legal(run)
    ensures After(run) == Alone(Handler(0, true, false, CreateLink(7), None)).(
                            rooms := map[7 := Room(0, "host", 2, 1, V127)], usedRooms := {7})
  {
    run := RegisteredRun();
    run := Extend(run, CreateRoom(0, 2));
    run := Extend(run, Continue(0, 7));
    run := Extend(run, Continue(0, 7));
  }

  /** Such rooms do arise: the connection ends between inserting a room and linking it. */
  lemma OrphanArises() returns (run: seq<Step>)
    ensures Legal(run) && 7 in After(run).rooms && !Owned(After(run), 7)
  {
    run := InsertedRun();
    run := Extend(run, Cancel(0));
    run := Extend(run, Leave(0));
  }
}
