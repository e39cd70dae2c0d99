/** When do the two ends of a token meet? Taking and inserting are separate lock regions,
    so exactly when they are not both past the first and short of the second at once. */
module PairingRace {
  import opened Basics
  import opened Pairing

  /** c and d are the only connections of token t that pass the check. */
  ghost predicate OnlyTwo(s: Server, t: Token, c: Cid, d: Cid) {
    && (forall q | q in s.handlers && s.handlers[q].token == t && Passed(s.handlers[q].pc) :: q == c || q == d)
    && (forall q | q in s.handlers && (q == c || q == d) :: s.handlers[q].token == t)
  }

  predicate BothInserting(s: Server, c: Cid, d: Cid) {
    At(s, c, Inserting) && At(s, d, Inserting)
  }

  /** Both found nobody waiting before either was listed. */
  ghost predicate Overlapped(run: seq<Step>, c: Cid, d: Cid)
    requires Legal(run)
    decreases |run|
  {
    run != [] && (Overlapped(Before(run), c, d) || BothInserting(After(run), c, d))
  }

  /** One end gives up waiting, or the cleanup finds their entry overdue. */
  predicate GivesUp(s: Server, st: Step, t: Token, c: Cid, d: Cid) {
    st == Timeout(c) || st == Timeout(d) || (st.CleanWaiting? && t in Overdue(s))
  }

  ghost predicate NoGivingUp(run: seq<Step>, t: Token, c: Cid, d: Cid)
    requires Legal(run)
    decreases |run|
  {
    run == [] || (NoGivingUp(Before(run), t, c, d) && !GivesUp(After(Before(run)), Last(run), t, c, d))
  }

  /** The handler has been through pairing, one way or the other, or is still listening. */
  predicate Through(s: Server, c: Cid) {
    c in s.handlers && s.handlers[c].pc in {Waiting, Relaying, Ended}
  }

  predicate Paired(s: Server, c: Cid, d: Cid)
    requires c in s.handlers && d in s.handlers
  {
    s.handlers[c].peer == Some(d) || s.handlers[d].peer == Some(c)
  }

  // ------------------------------------------------------------ stages of a pair

  predicate Early(s: Server, q: Cid) {
    q in s.handlers ==> var h := s.handlers[q];
      h.notify == NotMade && h.peer == None && h.pc in {Arrived, Refused, Verified}
  }

  predicate Bound(s: Server, q: Cid) {
    At(s, q, Inserting) && s.handlers[q].notify == NotMade && s.handlers[q].peer == None
  }

  predicate Listed(s: Server, t: Token, q: Cid) {
    && t in s.waiting && s.waiting[t] == q
    && At(s, q, Waiting) && s.handlers[q].notify == InMap && s.handlers[q].peer == None
  }

  /** Replaced in the map before anybody took it. */
  predicate Replaced(s: Server, q: Cid) {
    && q in s.handlers && s.handlers[q].notify == Dropped && s.handlers[q].peer == None
    && s.handlers[q].pc in {Waiting, Ended}
  }

  predicate Apart(s: Server, t: Token, c: Cid, d: Cid) {
    && t !in s.waiting && !BothInserting(s, c, d)
    && (Early(s, c) || Bound(s, c)) && (Early(s, d) || Bound(s, d))
  }

  predicate OneListed(s: Server, t: Token, x: Cid, y: Cid) {
    Listed(s, t, x) && Early(s, y)
  }

  predicate Taken(s: Server, t: Token, x: Cid, y: Cid) {
    && t !in s.waiting
    && At(s, x, Waiting) && s.handlers[x].notify == Held(y) && s.handlers[x].peer == None
    && y in s.handlers && Claim(s.handlers[y]) == Some(x)
  }

  predicate Met(s: Server, t: Token, x: Cid, y: Cid) {
    && t !in s.waiting
    && Through(s, x) && s.handlers[x].notify == Sent(y)
    && Through(s, y) && s.handlers[y].pc != Waiting && s.handlers[y].peer == Some(x)
  }

  /** On the way to a pair, or there. */
  predicate OnTrack(s: Server, t: Token, c: Cid, d: Cid) {
    || Apart(s, t, c, d)
    || OneListed(s, t, c, d) || OneListed(s, t, d, c)
    || Taken(s, t, c, d) || Taken(s, t, d, c)
    || Met(s, t, c, d) || Met(s, t, d, c)
  }

  predicate Colliding(s: Server, t: Token, x: Cid, y: Cid) {
    Bound(s, y) && ((t !in s.waiting && Bound(s, x)) || Listed(s, t, x))
  }

  predicate Missed(s: Server, t: Token, c: Cid, d: Cid) {
    || Colliding(s, t, c, d) || Colliding(s, t, d, c)
    || (Listed(s, t, c) && Replaced(s, d)) || (Listed(s, t, d) && Replaced(s, c))
  }

  // ------------------------------------------------------------ one step

  function Actor(st: Step): Option<Cid> {
    match st
    case Connect(c, _, _, _) => Some(c)
    case Check(c) => Some(c)
    case Take(c) => Some(c)
    case Unbind(c) => Some(c)
    case Tell(c) => Some(c)
    case Insert(c) => Some(c)
    case Receive(c) => Some(c)
    case SenderGone(c) => Some(c)
    case Timeout(c) => Some(c)
    case Withdraw(c) => Some(c)
    case Finish(c) => Some(c)
    case _ => None
  }

  predicate SameHandler(s: Server, s': Server, q: Cid) {
    (q in s.handlers <==> q in s'.handlers) && (q in s.handlers ==> s.handlers[q] == s'.handlers[q])
  }

  predicate SameEntry(s: Server, s': Server, t: Token) {
    (t in s.waiting <==> t in s'.waiting) && (t in s.waiting ==> s.waiting[t] == s'.waiting[t])
  }

  /** Nobody else touches the two handlers or their entry in the map. */
  lemma Bystander(s: Server, st: Step, t: Token, c: Cid, d: Cid)
    requires Inv(s) && Enabled(s, st) && OnlyTwo(Apply(s, st), t, c, d) && OnlyTwo(s, t, c, d)
    requires Actor(st) != Some(c) && Actor(st) != Some(d) && !(st.CleanWaiting? && t in Overdue(s))
    ensures var s' := Apply(s, st); SameHandler(s, s', c) && SameHandler(s, s', d) && SameEntry(s, s', t)
  {
    if Actor(st).Some? {
      var q := Actor(st).value;
      assert Fits(s, q);
      if q in s.handlers {
        assert EntryFits(s, s.handlers[q].token);
        BystanderHandler(s, st, q, t, c, d);
      }
    } else if st.CleanWaiting? {
      assert EntryFits(s, t) && Fits(s, c) && Fits(s, d);
    }
  }

  lemma BystanderHandler(s: Server, st: Step, q: Cid, t: Token, c: Cid, d: Cid)
    requires Fits(s, q) && q in s.handlers && EntryFits(s, s.handlers[q].token)
    requires Enabled(s, st) && Actor(st) == Some(q)
    requires forall p | Claim(s.handlers[q]) == Some(p) :: Fits(s, p)
    requires OnlyTwo(Apply(s, st), t, c, d) && OnlyTwo(s, t, c, d) && q != c && q != d
    ensures var s' := Apply(s, st); SameHandler(s, s', c) && SameHandler(s, s', d) && SameEntry(s, s', t)
  {
    if st.Take? || st.Tell? || st.Insert? || st.Withdraw? {
      BystanderShared(s, st, q, t, c, d);
    }
  }

  lemma BystanderShared(s: Server, st: Step, q: Cid, t: Token, c: Cid, d: Cid)
    requires st.Take? || st.Tell? || st.Insert? || st.Withdraw?
    requires Fits(s, q) && q in s.handlers && EntryFits(s, s.handlers[q].token)
    requires Enabled(s, st) && Actor(st) == Some(q)
    requires forall p | Claim(s.handlers[q]) == Some(p) :: Fits(s, p)
    requires OnlyTwo(Apply(s, st), t, c, d) && OnlyTwo(s, t, c, d) && q != c && q != d
    ensures var s' := Apply(s, st); SameHandler(s, s', c) && SameHandler(s, s', d) && SameEntry(s, s', t)
  {
  }

  /** Where a step of x leads from a stage of the pair. */
  predicate Leads(s': Server, t: Token, x: Cid, y: Cid) {
    if BothInserting(s', x, y) then Missed(s', t, x, y) else OnTrack(s', t, x, y)
  }

  lemma OnTrackAct(s: Server, st: Step, t: Token, x: Cid, y: Cid)
    requires Inv(s) && Enabled(s, st) && Actor(st) == Some(x) && st != Timeout(x) && x != y
    requires OnlyTwo(Apply(s, st), t, x, y) && OnTrack(s, t, x, y)
    ensures Leads(Apply(s, st), t, x, y)
  {
    assert Fits(s, x) && Fits(s, y);
    if Apart(s, t, x, y) {
      ApartAct(s, st, t, x, y);
    } else if OneListed(s, t, x, y) || OneListed(s, t, y, x) {
      ListedAct(s, st, t, x, y);
    } else {
      LateAct(s, st, t, x, y);
    }
  }

  lemma ApartAct(s: Server, st: Step, t: Token, x: Cid, y: Cid)
    requires Enabled(s, st) && Actor(st) == Some(x) && x != y
    requires OnlyTwo(Apply(s, st), t, x, y) && Apart(s, t, x, y)
    ensures Leads(Apply(s, st), t, x, y)
  {
  }

  lemma ListedAct(s: Server, st: Step, t: Token, x: Cid, y: Cid)
    requires Enabled(s, st) && Actor(st) == Some(x) && st != Timeout(x) && x != y
    requires OnlyTwo(Apply(s, st), t, x, y) && (OneListed(s, t, x, y) || OneListed(s, t, y, x))
    ensures Leads(Apply(s, st), t, x, y)
  {
  }

  lemma LateAct(s: Server, st: Step, t: Token, x: Cid, y: Cid)
    requires Fits(s, x) && Fits(s, y) && Enabled(s, st) && Actor(st) == Some(x) && st != Timeout(x) && x != y
    requires OnlyTwo(Apply(s, st), t, x, y)
    requires Taken(s, t, x, y) || Taken(s, t, y, x) || Met(s, t, x, y) || Met(s, t, y, x)
    ensures Leads(Apply(s, st), t, x, y)
  {
  }

  lemma MissedAct(s: Server, st: Step, t: Token, x: Cid, y: Cid)
    requires Inv(s) && Enabled(s, st) && Actor(st) == Some(x) && st != Timeout(x) && x != y
    requires OnlyTwo(Apply(s, st), t, x, y) && Missed(s, t, x, y)
    ensures Missed(Apply(s, st), t, x, y)
  {
    assert Fits(s, x) && Fits(s, y);
  }

  // ------------------------------------------------------------ over runs

  lemma StepTrack(s: Server, st: Step, t: Token, c: Cid, d: Cid)
    requires Inv(s) && Enabled(s, st) && c != d && !GivesUp(s, st, t, c, d)
    requires OnlyTwo(s, t, c, d) && OnlyTwo(Apply(s, st), t, c, d)
    ensures Missed(s, t, c, d) ==> Missed(Apply(s, st), t, c, d)
    ensures OnTrack(s, t, c, d) ==>
      if BothInserting(Apply(s, st), c, d) then Missed(Apply(s, st), t, c, d) else OnTrack(Apply(s, st), t, c, d)
  {
    if Actor(st) == Some(c) {
      ActTrack(s, st, t, c, d);
    } else if Actor(st) == Some(d) {
      ActTrack(s, st, t, d, c);
    } else {
      Bystander(s, st, t, c, d);
    }
  }

  lemma ActTrack(s: Server, st: Step, t: Token, x: Cid, y: Cid)
    requires Inv(s) && Enabled(s, st) && Actor(st) == Some(x) && st != Timeout(x) && x != y
    requires OnlyTwo(Apply(s, st), t, x, y)
    ensures Missed(s, t, x, y) ==> Missed(Apply(s, st), t, x, y)
    ensures OnTrack(s, t, x, y) ==>
      if BothInserting(Apply(s, st), x, y) then Missed(Apply(s, st), t, x, y) else OnTrack(Apply(s, st), t, x, y)
  {
    if Missed(s, t, x, y) {
      MissedAct(s, st, t, x, y);
    }
    if OnTrack(s, t, x, y) {
      OnTrackAct(s, st, t, x, y);
    }
  }

  /** Connections, and having passed the check, are for good. */
  lemma TwoBefore(s: Server, st: Step, t: Token, c: Cid, d: Cid)
    requires Enabled(s, st) && OnlyTwo(Apply(s, st), t, c, d)
    ensures OnlyTwo(s, t, c, d)
  {
    forall q | q in s.handlers
      ensures q in Apply(s, st).handlers && Apply(s, st).handlers[q].token == s.handlers[q].token
      ensures Passed(s.handlers[q].pc) ==> Passed(Apply(s, st).handlers[q].pc)
    {
      HandlerStays(s, st, q);
    }
  }

  lemma HandlerStays(s: Server, st: Step, q: Cid)
    requires Enabled(s, st) && q in s.handlers
    ensures q in Apply(s, st).handlers && Apply(s, st).handlers[q].token == s.handlers[q].token
    ensures Passed(s.handlers[q].pc) ==> Passed(Apply(s, st).handlers[q].pc)
  {
    if st.Take? {
      HandlerStaysTake(s, st.c, q);
    } else if st.Tell? {
      HandlerStaysTell(s, st.c, q);
    } else if st.Insert? || st.Withdraw? || st.CleanWaiting? {
      HandlerStaysListing(s, st, q);
    } else {
      HandlerStaysAlone(s, st, q);
    }
  }

  lemma HandlerStaysTake(s: Server, c: Cid, q: Cid)
    requires Enabled(s, Take(c)) && q in s.handlers
    ensures q in Apply(s, Take(c)).handlers && Apply(s, Take(c)).handlers[q].token == s.handlers[q].token
    ensures Passed(s.handlers[q].pc) ==> Passed(Apply(s, Take(c)).handlers[q].pc)
  {
  }

  lemma HandlerStaysTell(s: Server, c: Cid, q: Cid)
    requires Enabled(s, Tell(c)) && q in s.handlers
    ensures q in Apply(s, Tell(c)).handlers && Apply(s, Tell(c)).handlers[q].token == s.handlers[q].token
    ensures Passed(s.handlers[q].pc) ==> Passed(Apply(s, Tell(c)).handlers[q].pc)
  {
  }

  lemma HandlerStaysListing(s: Server, st: Step, q: Cid)
    requires Enabled(s, st) && q in s.handlers && (st.Insert? || st.Withdraw? || st.CleanWaiting?)
    ensures q in Apply(s, st).handlers && Apply(s, st).handlers[q].token == s.handlers[q].token
    ensures Passed(s.handlers[q].pc) ==> Passed(Apply(s, st).handlers[q].pc)
  {
  }

  lemma HandlerStaysAlone(s: Server, st: Step, q: Cid)
    requires Enabled(s, st) && q in s.handlers
    requires !st.Take? && !st.Tell? && !st.Insert? && !st.Withdraw? && !st.CleanWaiting?
    ensures q in Apply(s, st).handlers && Apply(s, st).handlers[q].token == s.handlers[q].token
    ensures Passed(s.handlers[q].pc) ==> Passed(Apply(s, st).handlers[q].pc)
  {
  }

  lemma {:induction false} TrackRun(run: seq<Step>, t: Token, c: Cid, d: Cid)
    requires Legal(run) && c != d && OnlyTwo(After(run), t, c, d) && NoGivingUp(run, t, c, d)
    ensures if Overlapped(run, c, d) then Missed(After(run), t, c, d) else OnTrack(After(run), t, c, d)
  {
    if run != [] {
      var s := After(Before(run));
      TwoBefore(s, Last(run), t, c, d);
      RunInv(Before(run));
      TrackRun(Before(run), t, c, d);
      StepTrack(s, Last(run), t, c, d);
    }
  }

  /** Two connections of one token, nobody else past its check and nobody giving up: once
      both are through, they are a pair if and only if they never stood between taking and
      inserting at the same time. */
  lemma PairedIffNoOverlap(run: seq<Step>, t: Token, c: Cid, d: Cid)
    requires Legal(run) && c != d && OnlyTwo(After(run), t, c, d) && NoGivingUp(run, t, c, d)
    requires Through(After(run), c) && Through(After(run), d)
    ensures Paired(After(run), c, d) <==> !Overlapped(run, c, d)
  {
    TrackRun(run, t, c, d);
  }

  // ------------------------------------------------------------ a run in which they miss

  lemma Extend(run: seq<Step>, st: Step) returns (run': seq<Step>)
    requires Legal(run) && Enabled(After(run), st)
    ensures Legal(run') && After(run') == Apply(After(run), st)
  {
    run' := run + [st];
    assert Before(run') == run;
  }

  function Half(role: Role, ip: nat, pc: Pc, notify: Notify): Handler {
    Handler(5, role, ip, pc, notify, None)
  }

  lemma BothVerified() returns (run: seq<Step>)
    ensures Legal(run)
    ensures After(run) == Server(map[0 := Half(HostRole, 1, Verified, NotMade),
                                     1 := Half(JoinRole, 2, Verified, NotMade)],
                                 map[], map[5 := Binding(1, 2)], map[5 := Binding(1, 2)], {}, map[], 0)
  {
    run := Extend([], Issue(5, Binding(1, 2)));
    run := Extend(run, Connect(0, 5, HostRole, 1));
    run := Extend(run, Connect(1, 5, JoinRole, 2));
    run := Extend(run, Check(0));
    run := Extend(run, Check(1));
  }

  /** Host and joiner of one token can miss each other: both look before either is listed,
      the second entry replaces the first, and the first handler is sent away. */
  lemma SimultaneousArrivalsMiss() returns (run: seq<Step>)
    ensures Legal(run)
    ensures After(run).handlers == map[0 := Half(HostRole, 1, Ended, Dropped), 1 := Half(JoinRole, 2, Waiting, InMap)]
  {
    run := BothVerified();
    run := Extend(run, Take(0));
    run := Extend(run, Take(1));
    run := Extend(run, Insert(0));
    run := Extend(run, Insert(1));
    run := Extend(run, SenderGone(0));
  }
}
