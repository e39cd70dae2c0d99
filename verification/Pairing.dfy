/** Tunnel pairing on the server: token check, take or become the waiter, notify or time
    out. Every lock region and every channel operation is one step. */
module Pairing {
  import opened Basics

  type Cid = nat      // one id per tunnel connection
  type Token = nat    // tokens are fresh UUIDs

  const PAIRING_TIMEOUT := 30    // seconds

  datatype Role = HostRole | JoinRole | OtherRole

  datatype Binding = Binding(hostIp: nat, joinerIp: nat)

  datatype Pc =
    | Arrived | Refused
    | Verified
    | Took(peer: Cid)       // removed the waiter from the map
    | Unbound(peer: Cid)    // and removed the token binding
    | Inserting             // nobody was waiting
    | Waiting | TimedOut
    | Relaying | Ended

  /** Where the sending half of a waiter's oneshot is. */
  datatype Notify = NotMade | InMap | Held(taker: Cid) | Sent(taker: Cid) | Dropped

  datatype Handler = Handler(token: Token, role: Role, ip: nat, pc: Pc, notify: Notify, peer: Option<Cid>)

  /** `listedAt` is the created_at of a token's latest entry in the waiting map. */
  datatype Server = Server(handlers: map<Cid, Handler>, waiting: map<Token, Cid>,
                           bindings: map<Token, Binding>, issued: map<Token, Binding>, expired: set<Token>,
                           listedAt: map<Token, nat>, clock: nat)

  const INIT := Server(map[], map[], map[], map[], {}, map[], 0)

  datatype Step =
    | Issue(token: Token, binding: Binding)      // register_token
    | Connect(c: Cid, token: Token, role: Role, ip: nat)
    | Check(c: Cid) | Take(c: Cid) | Unbind(c: Cid) | Tell(c: Cid)
    | Insert(c: Cid) | Receive(c: Cid) | SenderGone(c: Cid) | Timeout(c: Cid) | Withdraw(c: Cid)
    | Finish(c: Cid)
    | CleanWaiting | CleanBindings
    | Tick(seconds: nat)

  predicate VerifyIp(b: Binding, role: Role, ip: nat) {
    match role
    case HostRole => ip == b.hostIp
    case JoinRole => ip == b.joinerIp
    case OtherRole => false
  }

  predicate At(s: Server, c: Cid, pc: Pc) {
    c in s.handlers && s.handlers[c].pc == pc
  }

  predicate Enabled(s: Server, st: Step) {
    match st
    case Issue(t, _) => t !in s.issued
    case Connect(c, _, _, _) => c !in s.handlers
    case Check(c) => At(s, c, Arrived)
    case Take(c) => At(s, c, Verified)
    case Unbind(c) => c in s.handlers && s.handlers[c].pc.Took?
    case Tell(c) => c in s.handlers && s.handlers[c].pc.Unbound?
    case Insert(c) => At(s, c, Inserting)
    case Receive(c) => At(s, c, Waiting) && s.handlers[c].notify.Sent?
    case SenderGone(c) => At(s, c, Waiting) && s.handlers[c].notify.Dropped?
    case Timeout(c) => At(s, c, Waiting)
    case Withdraw(c) => At(s, c, TimedOut)
    case Finish(c) => At(s, c, Relaying)
    case CleanWaiting => true
    case CleanBindings => true
    case Tick(_) => true
  }

  function Go(s: Server, c: Cid, pc: Pc): Server
    requires c in s.handlers
  {
    s.(handlers := s.handlers[c := s.handlers[c].(pc := pc)])
  }

  /** The waiting entry of a token leaves the map and its oneshot sender goes to `n`. */
  function Remove(s: Server, t: Token, n: Notify): Server {
    if t !in s.waiting then s
    else
      var out := s.(waiting := s.waiting - {t});
      var w := s.waiting[t];
      if w in s.handlers then out.(handlers := s.handlers[w := s.handlers[w].(notify := n)]) else out
  }

  /** The waiters the cleanup drops: listed for more than the pairing time-out. */
  function Overdue(s: Server): set<Token> {
    set t | t in s.waiting && t in s.listedAt && s.clock - s.listedAt[t] > PAIRING_TIMEOUT
  }

  predicate WaitsAmong(s: Server, c: Cid, tokens: set<Token>) {
    c in s.handlers && var t := s.handlers[c].token; t in tokens && t in s.waiting && s.waiting[t] == c
  }

  /** The entries of several tokens leave the map at once and their senders are dropped. */
  function RemoveAll(s: Server, tokens: set<Token>): Server {
    s.(waiting := s.waiting - tokens,
       handlers := map c | c in s.handlers ::
                     if WaitsAmong(s, c, tokens) then s.handlers[c].(notify := Dropped) else s.handlers[c])
  }

  function CheckToken(bindings: map<Token, Binding>, h: Handler): Pc {
    if h.token in bindings && VerifyIp(bindings[h.token], h.role, h.ip) then Verified else Refused
  }

  function Apply(s: Server, st: Step): Server
    requires Enabled(s, st)
  {
    match st
    case Issue(t, b) => s.(bindings := s.bindings[t := b], issued := s.issued[t := b])
    case Connect(c, t, role, ip) => s.(handlers := s.handlers[c := Handler(t, role, ip, Arrived, NotMade, None)])
    case Check(c) => Go(s, c, CheckToken(s.bindings, s.handlers[c]))
    case Take(c) =>
      var t := s.handlers[c].token;
      if t !in s.waiting then Go(s, c, Inserting)
      else Go(Remove(s, t, Held(c)), c, Took(s.waiting[t]))
    case Unbind(c) => Go(s, c, Unbound(s.handlers[c].pc.peer)).(bindings := s.bindings - {s.handlers[c].token})
    case Tell(c) => ApplyTell(s, c, s.handlers[c].pc.peer)
    case Insert(c) =>
      var replaced := Remove(s, s.handlers[c].token, Dropped);
      replaced.(waiting := replaced.waiting[s.handlers[c].token := c],
                listedAt := s.listedAt[s.handlers[c].token := s.clock],
                handlers := replaced.handlers[c := s.handlers[c].(pc := Waiting, notify := InMap)])
    case Receive(c) =>
      s.(handlers := s.handlers[c := s.handlers[c].(pc := Relaying, peer := Some(s.handlers[c].notify.taker))])
    case SenderGone(c) => Go(s, c, Ended)
    case Timeout(c) => Go(s, c, TimedOut)
    case Withdraw(c) => Remove(Go(s, c, Ended), s.handlers[c].token, Dropped)
    case Finish(c) => Go(s, c, Ended)
    case CleanWaiting => RemoveAll(s, Overdue(s)).(expired := s.expired + Overdue(s))
    case CleanBindings => s.(bindings := s.bindings - s.expired, expired := {})
    case Tick(d) => s.(clock := s.clock + d)
  }

  /** The oneshot accepts a letter only while its receiver still waits. */
  function ApplyTell(s: Server, c: Cid, p: Cid): Server
    requires c in s.handlers
  {
    if p !in s.handlers then Go(s, c, Ended)
    else if s.handlers[p].pc == Waiting then
      var told := s.(handlers := s.handlers[p := s.handlers[p].(notify := Sent(c))]);
      told.(handlers := told.handlers[c := told.handlers[c].(pc := Relaying, peer := Some(p))])
    else
      Go(s.(handlers := s.handlers[p := s.handlers[p].(notify := Dropped)]), c, Ended)
  }

  // ------------------------------------------------------------ invariant

  predicate Passed(pc: Pc) {
    !pc.Arrived? && !pc.Refused?
  }

  /** The waiter a handler has taken out of the map, while it owns the waiter's sender. */
  function Claim(h: Handler): Option<Cid> {
    match h.pc
    case Took(p) => Some(p)
    case Unbound(p) => Some(p)
    case _ => None
  }

  predicate Related(s: Server, c: Cid, p: Cid) {
    c in s.handlers && p in s.handlers && c != p && s.handlers[c].token == s.handlers[p].token
  }

  /** What the state of a handler's oneshot says. */
  predicate NotifyFits(s: Server, p: Cid)
    requires p in s.handlers
  {
    var h := s.handlers[p];
    match h.notify
    case NotMade => h.pc != Waiting && h.pc != TimedOut
    case InMap =>
      (h.pc == Waiting || h.pc == TimedOut) && h.peer == None && h.token in s.waiting && s.waiting[h.token] == p
    case Held(c) =>
      (h.pc == Waiting || h.pc == TimedOut || h.pc == Ended) && h.peer == None &&
      Related(s, c, p) && Claim(s.handlers[c]) == Some(p)
    case Sent(c) =>
      && (h.pc == Waiting || h.pc == TimedOut || h.pc == Ended || h.pc == Relaying)
      && (h.peer == None || h.peer == Some(c)) && Related(s, c, p)
      && s.handlers[c].peer == Some(p) && s.handlers[c].notify == NotMade
    case Dropped => (h.pc == Waiting || h.pc == TimedOut || h.pc == Ended) && h.peer == None
  }

  /** A handler that took a waiter owns that waiter's sender; a handler that relays got its
      peer by taking it or by its letter. */
  predicate PeerFits(s: Server, c: Cid)
    requires c in s.handlers
  {
    var h := s.handlers[c];
    && (Claim(h).Some? ==> h.notify == NotMade && h.peer == None &&
                           Claim(h).value in s.handlers && s.handlers[Claim(h).value].notify == Held(c))
    && (h.peer.Some? ==> h.pc == Relaying || h.pc == Ended)
    && (h.peer.Some? && h.notify == NotMade ==>
          h.peer.value in s.handlers && s.handlers[h.peer.value].notify == Sent(c))
    && (h.peer.Some? && h.notify != NotMade ==> h.notify == Sent(h.peer.value))
  }

  predicate TokenFits(s: Server, c: Cid)
    requires c in s.handlers
  {
    var h := s.handlers[c];
    Passed(h.pc) ==> h.token in s.issued && VerifyIp(s.issued[h.token], h.role, h.ip)
  }

  /** Verified handlers carry an issued token and the IP of their claimed role. */
  ghost predicate TokensFit(s: Server) {
    && (forall c :: c in s.handlers ==> TokenFits(s, c))
    && (forall t :: t in s.bindings ==> t in s.issued && s.bindings[t] == s.issued[t])
  }

  predicate EntryFits(s: Server, t: Token) {
    t in s.waiting ==>
      s.waiting[t] in s.handlers && s.handlers[s.waiting[t]].token == t && s.handlers[s.waiting[t]].notify == InMap
  }

  predicate Fits(s: Server, c: Cid) {
    c in s.handlers ==> NotifyFits(s, c) && PeerFits(s, c)
  }

  ghost predicate Inv(s: Server) {
    && (forall c {:trigger Fits(s, c)} :: Fits(s, c))
    && (forall t {:trigger EntryFits(s, t)} :: EntryFits(s, t))
  }

  // ------------------------------------------------------------ preservation

  lemma TokensStep(s: Server, st: Step)
    requires TokensFit(s) && Enabled(s, st)
    ensures TokensFit(Apply(s, st))
  {
    if st.Take? || st.Tell? {
      TokensMeet(s, st);
    } else if st.Insert? || st.Withdraw? || st.CleanWaiting? {
      TokensQueue(s, st);
    } else {
      TokensPlain(s, st);
    }
  }

  lemma TokensMeet(s: Server, st: Step)
    requires TokensFit(s) && Enabled(s, st) && (st.Take? || st.Tell?)
    ensures TokensFit(Apply(s, st))
  {
    if st.Take? { TokensTake(s, st.c); } else { TokensTell(s, st.c); }
  }

  lemma TokensTake(s: Server, c: Cid)
    requires TokensFit(s) && Enabled(s, Take(c))
    ensures TokensFit(Apply(s, Take(c)))
  {
  }

  lemma TokensTell(s: Server, c: Cid)
    requires TokensFit(s) && Enabled(s, Tell(c))
    ensures TokensFit(Apply(s, Tell(c)))
  {
  }

  lemma TokensQueue(s: Server, st: Step)
    requires TokensFit(s) && Enabled(s, st) && (st.Insert? || st.Withdraw? || st.CleanWaiting?)
    ensures TokensFit(Apply(s, st))
  {
    if st.Insert? { TokensInsert(s, st.c); }
  }

  lemma TokensInsert(s: Server, c: Cid)
    requires TokensFit(s) && Enabled(s, Insert(c))
    ensures TokensFit(Apply(s, Insert(c)))
  {
  }

  lemma TokensPlain(s: Server, st: Step)
    requires TokensFit(s) && Enabled(s, st)
    requires !st.Take? && !st.Tell? && !st.Insert? && !st.Withdraw? && !st.CleanWaiting?
    ensures TokensFit(Apply(s, st))
  {
  }

  lemma TableInv(s: Server, st: Step)
    requires Inv(s) && Enabled(s, st) && (st.Issue? || st.Connect? || st.CleanBindings?)
    ensures Inv(Apply(s, st))
  {
    var s' := Apply(s, st);
    forall q ensures Fits(s', q) { assert Fits(s, q); }
    forall t ensures EntryFits(s', t) { assert EntryFits(s, t); }
  }

  /** A handler with no claim and no place in the map moves between plain positions. */
  lemma MoveInv(s: Server, c: Cid, pc: Pc)
    requires Inv(s) && c in s.handlers && Claim(s.handlers[c]) == None && Claim(s.handlers[c].(pc := pc)) == None
    requires s.handlers[c].notify == NotMade ==> pc != Waiting && pc != TimedOut
    requires s.handlers[c].notify == InMap ==> pc == TimedOut
    requires s.handlers[c].notify.Held? || s.handlers[c].notify.Dropped? ==> pc == TimedOut || pc == Ended
    requires s.handlers[c].notify.Sent? ==> pc == TimedOut || pc == Ended
    requires s.handlers[c].peer.Some? ==> pc == Ended
    ensures Inv(Go(s, c, pc))
  {
    var s' := Go(s, c, pc);
    assert Fits(s, c);
    forall q ensures Fits(s', q) {
      assert Fits(s, q);
    }
    forall t ensures EntryFits(s', t) { assert EntryFits(s, t); }
  }

  lemma TakeInv(s: Server, c: Cid)
    requires Inv(s) && Enabled(s, Take(c))
    ensures Inv(Apply(s, Take(c)))
  {
    assert Fits(s, c);
    var t := s.handlers[c].token;
    assert EntryFits(s, t);
    if t !in s.waiting {
      MoveInv(s, c, Inserting);
    } else {
      var s' := Apply(s, Take(c));
      assert Fits(s, s.waiting[t]);
      forall q ensures Fits(s', q) { assert Fits(s, q); }
      forall u ensures EntryFits(s', u) { assert EntryFits(s, u); }
    }
  }

  lemma UnbindInv(s: Server, c: Cid)
    requires Inv(s) && Enabled(s, Unbind(c))
    ensures Inv(Apply(s, Unbind(c)))
  {
    var s' := Apply(s, Unbind(c));
    assert Fits(s, c);
    forall q ensures Fits(s', q) { assert Fits(s, q); }
    forall t ensures EntryFits(s', t) { assert EntryFits(s, t); }
  }

  lemma TellInv(s: Server, c: Cid)
    requires Inv(s) && Enabled(s, Tell(c))
    ensures Inv(Apply(s, Tell(c)))
  {
    var p := s.handlers[c].pc.peer;
    assert Fits(s, c) && Fits(s, p);
    if s.handlers[p].pc == Waiting { HeardInv(s, c, p); } else { UnheardInv(s, c, p); }
  }

  lemma HeardInv(s: Server, c: Cid, p: Cid)
    requires Inv(s) && c in s.handlers && s.handlers[c].pc == Unbound(p) && At(s, p, Waiting)
    ensures Inv(ApplyTell(s, c, p))
  {
    var s' := ApplyTell(s, c, p);
    assert Fits(s, c) && Fits(s, p);
    forall q ensures Fits(s', q) { assert Fits(s, q); }
    forall t ensures EntryFits(s', t) { assert EntryFits(s, t); }
  }

  lemma UnheardInv(s: Server, c: Cid, p: Cid)
    requires Inv(s) && c in s.handlers && s.handlers[c].pc == Unbound(p) && !At(s, p, Waiting)
    ensures Inv(ApplyTell(s, c, p))
  {
    var s' := ApplyTell(s, c, p);
    assert Fits(s, c) && Fits(s, p);
    forall q ensures Fits(s', q) { assert Fits(s, q); }
    forall t ensures EntryFits(s', t) { assert EntryFits(s, t); }
  }

  /** A waiting entry leaves the map with its sender dropped. */
  lemma DropInv(s: Server, t: Token)
    requires Inv(s)
    ensures Inv(Remove(s, t, Dropped))
  {
    var s' := Remove(s, t, Dropped);
    assert EntryFits(s, t);
    if t in s.waiting { assert Fits(s, s.waiting[t]); }
    forall q ensures Fits(s', q) { assert Fits(s, q); }
    forall u ensures EntryFits(s', u) { assert EntryFits(s, u); }
  }

  lemma InsertInv(s: Server, c: Cid)
    requires Inv(s) && Enabled(s, Insert(c))
    ensures Inv(Apply(s, Insert(c)))
  {
    var t := s.handlers[c].token;
    assert Fits(s, c) && EntryFits(s, t);
    DropInv(s, t);
    var s1, s' := Remove(s, t, Dropped), Apply(s, Insert(c));
    assert s1.handlers[c] == s.handlers[c];
    forall q ensures Fits(s', q) { assert Fits(s1, q); }
    forall u ensures EntryFits(s', u) { assert EntryFits(s1, u); }
  }

  lemma ReceiveInv(s: Server, c: Cid)
    requires Inv(s) && Enabled(s, Receive(c))
    ensures Inv(Apply(s, Receive(c)))
  {
    var s' := Apply(s, Receive(c));
    assert Fits(s, c);
    forall q ensures Fits(s', q) { assert Fits(s, q); }
    forall t ensures EntryFits(s', t) { assert EntryFits(s, t); }
  }

  lemma WithdrawInv(s: Server, c: Cid)
    requires Inv(s) && Enabled(s, Withdraw(c))
    ensures Inv(Apply(s, Withdraw(c)))
  {
    var t := s.handlers[c].token;
    assert Fits(s, c) && EntryFits(s, t);
    DropInv(s, t);
    MoveInv(Remove(s, t, Dropped), c, Ended);
    assert Apply(s, Withdraw(c)) == Go(Remove(s, t, Dropped), c, Ended);
  }

  lemma StepInv(s: Server, st: Step)
    requires Inv(s) && Enabled(s, st)
    ensures Inv(Apply(s, st))
  {
    match st {
      case Issue(_, _) => TableInv(s, st);
      case Connect(_, _, _, _) => TableInv(s, st);
      case CleanBindings => TableInv(s, st);
      case Check(c) =>
        assert Fits(s, c);
        MoveInv(s, c, CheckToken(s.bindings, s.handlers[c]));
      case Take(c) => TakeInv(s, c);
      case Unbind(c) => UnbindInv(s, c);
      case Tell(c) => TellInv(s, c);
      case Insert(c) => InsertInv(s, c);
      case Receive(c) => ReceiveInv(s, c);
      case SenderGone(c) =>
        assert Fits(s, c);
        MoveInv(s, c, Ended);
      case Timeout(c) =>
        assert Fits(s, c);
        MoveInv(s, c, TimedOut);
      case Withdraw(c) => WithdrawInv(s, c);
      case Finish(c) =>
        assert Fits(s, c);
        MoveInv(s, c, Ended);
      case CleanWaiting =>
        CleanInv(s, Overdue(s));
        AccountInv(RemoveAll(s, Overdue(s)), s.expired + Overdue(s), s.clock);
      case Tick(d) => AccountInv(s, s.expired, s.clock + d);
    }
  }

  /** The book-keeping of the cleanup and the clock do not matter. */
  lemma AccountInv(s: Server, expired: set<Token>, clock: nat)
    requires Inv(s)
    ensures Inv(s.(expired := expired, clock := clock))
  {
    var s' := s.(expired := expired, clock := clock);
    forall q ensures Fits(s', q) { assert Fits(s, q); }
    forall t ensures EntryFits(s', t) { assert EntryFits(s, t); }
  }

  lemma CleanInv(s: Server, tokens: set<Token>)
    requires Inv(s)
    ensures Inv(RemoveAll(s, tokens))
  {
    var s' := RemoveAll(s, tokens);
    forall q ensures Fits(s', q) {
      CleanFits(s, tokens, q);
    }
    forall t ensures EntryFits(s', t) { assert EntryFits(s, t); }
  }

  lemma CleanFits(s: Server, tokens: set<Token>, q: Cid)
    requires Inv(s)
    ensures Fits(RemoveAll(s, tokens), q)
  {
    assert Fits(s, q);
    forall p | WaitsAmong(s, p, tokens) ensures s.handlers[p].notify == InMap {
      assert EntryFits(s, s.handlers[p].token);
    }
  }

  /** Dropping them one after the other comes to the same. */
  lemma CleanOneMore(s: Server, done: set<Token>, t: Token)
    requires EntryFits(s, t) && t in s.waiting && t !in done
    ensures Remove(RemoveAll(s, done), t, Dropped) == RemoveAll(s, done + {t})
  {
    var w := s.waiting[t];
    var a, b := Remove(RemoveAll(s, done), t, Dropped), RemoveAll(s, done + {t});
    forall c | c in s.handlers ensures a.handlers[c] == b.handlers[c] {
    }
    assert a.handlers == b.handlers && a.waiting == b.waiting;
  }

  // ------------------------------------------------------------ runs and main results

  function Before(run: seq<Step>): seq<Step>
    requires run != []
  {
    run[..|run| - 1]
  }

  function Last(run: seq<Step>): Step
    requires run != []
  {
    run[|run| - 1]
  }

  ghost predicate Legal(run: seq<Step>)
    decreases |run|, 0
  {
    run == [] || (Legal(Before(run)) && Enabled(After(Before(run)), Last(run)))
  }

  ghost function After(run: seq<Step>): Server
    requires Legal(run)
    decreases |run|, 1
  {
    if run == [] then INIT else Apply(After(Before(run)), Last(run))
  }

  lemma InitInv()
    ensures Inv(INIT) && TokensFit(INIT)
  {
    forall q ensures Fits(INIT, q) {}
    forall t ensures EntryFits(INIT, t) {}
  }

  lemma {:induction false} RunInv(run: seq<Step>)
    requires Legal(run)
    ensures Inv(After(run)) && TokensFit(After(run))
  {
    if run == [] {
      InitInv();
    } else {
      RunInv(Before(run));
      StepInv(After(Before(run)), Last(run));
      TokensStep(After(Before(run)), Last(run));
    }
  }

  lemma EntriesFit(run: seq<Step>)
    requires Legal(run)
    ensures forall t :: t in After(run).waiting ==> EntryFits(After(run), t)
  {
    RunInv(run);
  }

  /** A handler past its check claimed host or join, from exactly the address that its token
      was issued to for that role. */
  lemma CheckedAddress(run: seq<Step>, c: Cid)
    requires Legal(run) && c in After(run).handlers && Passed(After(run).handlers[c].pc)
    ensures var s, h := After(run), After(run).handlers[c];
            && h.token in s.issued && (h.role == HostRole || h.role == JoinRole)
            && (h.role == HostRole ==> h.ip == s.issued[h.token].hostIp)
            && (h.role == JoinRole ==> h.ip == s.issued[h.token].joinerIp)
  {
    RunInv(run);
    assert TokenFits(After(run), c);
  }

  /** Address ip may use the token in this role. */
  predicate RightAddress(issued: map<Token, Binding>, h: Handler)
    requires h.token in issued
  {
    || (h.role == HostRole && h.ip == issued[h.token].hostIp)
    || (h.role == JoinRole && h.ip == issued[h.token].joinerIp)
  }

  /** Every pair is for one token, both ends claimed host or join from the very address the
      token was issued to for that role, and the end that arrived first is its peer's peer. */
  lemma PairingSafe(run: seq<Step>, c: Cid)
    requires Legal(run) && c in After(run).handlers && After(run).handlers[c].peer.Some?
    ensures var s, p := After(run), After(run).handlers[c].peer.value;
            && Related(s, c, p)
            && s.handlers[c].token in s.issued
            && RightAddress(s.issued, s.handlers[c]) && RightAddress(s.issued, s.handlers[p])
            && (s.handlers[c].notify != NotMade ==> s.handlers[p].peer == Some(c))
  {
    RunInv(run);
    var s, p := After(run), After(run).handlers[c].peer.value;
    assert Fits(s, c) && Fits(s, p);
    assert TokenFits(s, c) && TokenFits(s, p);
  }

  /** No handler is the peer of two others. */
  lemma OnePartnerEach(run: seq<Step>, c: Cid, d: Cid)
    requires Legal(run) && c in After(run).handlers && d in After(run).handlers
    requires After(run).handlers[c].peer.Some? && After(run).handlers[c].peer == After(run).handlers[d].peer
    ensures c == d
  {
    RunInv(run);
    var s := After(run);
    assert Fits(s, c) && Fits(s, d) && Fits(s, s.handlers[c].peer.value);
  }

  /** A second arriver pairs exactly when the waiter it took has not given up by then;
      otherwise both ends are sent away. */
  lemma PairsIff(run: seq<Step>, c: Cid)
    requires Legal(run) && Enabled(After(run), Tell(c))
    ensures var s, s', p := After(run), Apply(After(run), Tell(c)), After(run).handlers[c].pc.peer;
            && p in s.handlers && p != c
            && (s'.handlers[c].peer == Some(p) && s'.handlers[p].notify == Sent(c) <==> s.handlers[p].pc == Waiting)
            && (s.handlers[p].pc != Waiting ==> s'.handlers[c].pc == Ended && s'.handlers[p].notify == Dropped)
  {
    RunInv(run);
    assert Fits(After(run), c);
  }

  lemma PeerStep(s: Server, st: Step, c: Cid)
    requires Inv(s) && Enabled(s, st) && c in s.handlers && s.handlers[c].peer.Some?
    ensures c in Apply(s, st).handlers && Apply(s, st).handlers[c].peer == s.handlers[c].peer
  {
    assert Fits(s, c);
    if st.Take? {
      PeerTake(s, st.c, c);
    } else if st.Tell? {
      PeerTell(s, st.c, c);
    } else {
      PeerPlain(s, st, c);
    }
  }

  lemma PeerTake(s: Server, q: Cid, c: Cid)
    requires Fits(s, c) && Enabled(s, Take(q)) && c in s.handlers && s.handlers[c].peer.Some?
    ensures c in Apply(s, Take(q)).handlers && Apply(s, Take(q)).handlers[c].peer == s.handlers[c].peer
  {
  }

  lemma PeerTell(s: Server, q: Cid, c: Cid)
    requires Fits(s, c) && Enabled(s, Tell(q)) && c in s.handlers && s.handlers[c].peer.Some?
    ensures c in Apply(s, Tell(q)).handlers && Apply(s, Tell(q)).handlers[c].peer == s.handlers[c].peer
  {
  }

  lemma PeerPlain(s: Server, st: Step, c: Cid)
    requires Fits(s, c) && Enabled(s, st) && !st.Take? && !st.Tell? && c in s.handlers && s.handlers[c].peer.Some?
    ensures c in Apply(s, st).handlers && Apply(s, st).handlers[c].peer == s.handlers[c].peer
  {
  }

  /** A handler never changes its peer. */
  lemma {:induction false} PeerForGood(run: seq<Step>, k: nat, c: Cid)
    requires Legal(run) && k <= |run| && Legal(run[..k])
    requires c in After(run[..k]).handlers && After(run[..k]).handlers[c].peer.Some?
    ensures c in After(run).handlers && After(run).handlers[c].peer == After(run[..k]).handlers[c].peer
  {
    if k == |run| {
      assert run[..k] == run;
    } else {
      assert Before(run)[..k] == run[..k];
      PeerForGood(Before(run), k, c);
      RunInv(Before(run));
      PeerStep(After(Before(run)), Last(run), c);
    }
  }

  // --- a token is spent when its pair meets ---

  predicate SpentFits(s: Server, c: Cid)
    requires c in s.handlers
  {
    var h := s.handlers[c];
    h.pc.Unbound? || h.peer.Some? ==> h.token in s.issued && h.token !in s.bindings
  }

  ghost predicate AllSpent(s: Server) {
    forall c :: c in s.handlers ==> SpentFits(s, c)
  }

  lemma SpentUnbind(s: Server, c: Cid)
    requires AllSpent(s) && TokensFit(s) && Enabled(s, Unbind(c))
    ensures AllSpent(Apply(s, Unbind(c)))
  {
    assert TokenFits(s, c);
    forall q | q in s.handlers ensures SpentFits(Apply(s, Unbind(c)), q) {
      assert SpentFits(s, q);
    }
  }

  lemma SpentTell(s: Server, c: Cid)
    requires AllSpent(s) && Inv(s) && Enabled(s, Tell(c))
    ensures AllSpent(Apply(s, Tell(c)))
  {
    assert Fits(s, c) && SpentFits(s, c);
    forall q | q in s.handlers ensures SpentFits(Apply(s, Tell(c)), q) {
      assert SpentFits(s, q);
    }
  }

  /** A letter comes from a handler that had taken the binding away. */
  lemma SpentReceive(s: Server, c: Cid)
    requires AllSpent(s) && Inv(s) && Enabled(s, Receive(c))
    ensures AllSpent(Apply(s, Receive(c)))
  {
    assert Fits(s, c) && SpentFits(s, s.handlers[c].notify.taker);
    forall q | q in s.handlers ensures SpentFits(Apply(s, Receive(c)), q) {
      assert SpentFits(s, q);
    }
  }

  lemma SpentTables(s: Server, st: Step)
    requires AllSpent(s) && Enabled(s, st)
    requires st.Issue? || st.Connect? || st.CleanWaiting? || st.CleanBindings? || st.Tick?
    ensures AllSpent(Apply(s, st))
  {
    forall q | q in Apply(s, st).handlers ensures SpentFits(Apply(s, st), q) {
      if q in s.handlers {
        assert SpentFits(s, q);
      }
    }
  }

  lemma SpentQueue(s: Server, st: Step)
    requires AllSpent(s) && Enabled(s, st) && (st.Take? || st.Insert? || st.Withdraw?)
    ensures AllSpent(Apply(s, st))
  {
    if st.Insert? {
      SpentInsert(s, st.c);
    } else if st.Take? {
      SpentTake(s, st.c);
    } else {
      forall q | q in s.handlers ensures SpentFits(Apply(s, st), q) {
        assert SpentFits(s, q);
      }
    }
  }

  lemma SpentTake(s: Server, c: Cid)
    requires AllSpent(s) && Enabled(s, Take(c))
    ensures AllSpent(Apply(s, Take(c)))
  {
    forall q | q in s.handlers ensures SpentFits(Apply(s, Take(c)), q) {
      assert SpentFits(s, q);
    }
  }

  lemma SpentInsert(s: Server, c: Cid)
    requires AllSpent(s) && Enabled(s, Insert(c))
    ensures AllSpent(Apply(s, Insert(c)))
  {
    forall q | q in s.handlers ensures SpentFits(Apply(s, Insert(c)), q) {
      assert SpentFits(s, q);
    }
  }

  lemma SpentPlain(s: Server, st: Step)
    requires AllSpent(s) && Enabled(s, st) && (st.Check? || st.SenderGone? || st.Timeout? || st.Finish?)
    ensures AllSpent(Apply(s, st))
  {
    forall q | q in s.handlers ensures SpentFits(Apply(s, st), q) {
      assert SpentFits(s, q);
    }
  }

  lemma SpentNext(s: Server, st: Step)
    requires AllSpent(s) && Inv(s) && TokensFit(s) && Enabled(s, st)
    ensures AllSpent(Apply(s, st))
  {
    if st.Unbind? { SpentUnbind(s, st.c); }
    else if st.Tell? { SpentTell(s, st.c); }
    else if st.Receive? { SpentReceive(s, st.c); }
    else if st.Take? || st.Insert? || st.Withdraw? { SpentQueue(s, st); }
    else if st.Check? || st.SenderGone? || st.Timeout? || st.Finish? { SpentPlain(s, st); }
    else { SpentTables(s, st); }
  }

  /** Once two connections are a pair, their token is spent: no later check of it passes. */
  lemma {:induction false} PairSpendsToken(run: seq<Step>)
    requires Legal(run)
    ensures AllSpent(After(run))
    ensures forall c :: c in After(run).handlers && After(run).handlers[c].peer.Some? ==>
              Spent(After(run), After(run).handlers[c].token)
  {
    if run != [] {
      PairSpendsToken(Before(run));
      RunInv(Before(run));
      SpentNext(After(Before(run)), Last(run));
    }
    forall c | c in After(run).handlers && After(run).handlers[c].peer.Some?
      ensures Spent(After(run), After(run).handlers[c].token)
    {
      assert SpentFits(After(run), c);
    }
  }

  /** A token whose binding is gone. */
  predicate Spent(s: Server, t: Token) {
    t in s.issued && t !in s.bindings
  }

  lemma SpentStep(s: Server, st: Step, t: Token)
    requires Enabled(s, st) && Spent(s, t)
    ensures Spent(Apply(s, st), t)
  {
  }

  lemma {:induction false} SpentStays(run: seq<Step>, k: nat, t: Token)
    requires Legal(run) && k <= |run| && Legal(run[..k]) && Spent(After(run[..k]), t)
    ensures Spent(After(run), t)
  {
    if k == |run| {
      assert run[..k] == run;
    } else {
      assert Before(run)[..k] == run[..k];
      SpentStays(Before(run), k, t);
      SpentStep(After(Before(run)), Last(run), t);
    }
  }

  /** One-time tokens: once a binding was removed, every later check of it is refused. */
  lemma SpentTokenRefused(run: seq<Step>, k: nat, c: Cid)
    requires Legal(run) && k <= |run| && Legal(run[..k]) && Enabled(After(run), Check(c))
    requires Spent(After(run[..k]), After(run).handlers[c].token)
    ensures Apply(After(run), Check(c)).handlers[c].pc == Refused
  {
    SpentStays(run, k, After(run).handlers[c].token);
  }

  predicate SameSeat(g: Handler, h: Handler) {
    Passed(g.pc) && Passed(h.pc) && g.token == h.token && g.role == h.role
  }

  /** At most one verified connection per role and token. */
  ghost predicate OnePerRole(s: Server) {
    forall c, d | c in s.handlers && d in s.handlers && SameSeat(s.handlers[c], s.handlers[d]) :: c == d
  }

  /** Then a pair is always host to joiner, and no third connection pairs on its token. */
  lemma HostToJoin(run: seq<Step>, c: Cid, d: Cid)
    requires Legal(run) && OnePerRole(After(run))
    requires c in After(run).handlers && After(run).handlers[c].peer.Some?
    requires d in After(run).handlers && After(run).handlers[d].peer.Some?
    requires After(run).handlers[c].token == After(run).handlers[d].token
    ensures var s, p := After(run), After(run).handlers[c].peer.value;
            && p in s.handlers && {s.handlers[c].role, s.handlers[p].role} == {HostRole, JoinRole}
            && (d == c || d == p)
  {
    RunInv(run);
    var s, p := After(run), After(run).handlers[c].peer.value;
    assert Fits(s, c) && Fits(s, p) && Fits(s, d);
    assert TokenFits(s, c) && TokenFits(s, p);
  }
}
