/** The one-shot UPnP table: registered by a join, consumed by the host's UPnPMapped,
    dropped after ten seconds. */
module Upnp {
  import opened Basics

  type Token = nat
  type Pid = nat

  const UPNP_TTL := 10    // seconds

  datatype Pending = Pending(hostIp: nat, joiner: Pid, createdAt: nat)

  /** A PeerUPnPAddr message handed to a player's channel. */
  datatype Delivery = Delivery(token: Token, from: nat, to: Pid)

  /** `issued` remembers every registration, `sent` every message. */
  datatype Table = Table(pending: map<Token, Pending>, issued: map<Token, Pending>, sent: seq<Delivery>, clock: nat)

  const INIT := Table(map[], map[], [], 0)

  datatype Step =
    | Register(token: Token, hostIp: nat, joiner: Pid)     // token is a fresh UUID
    | Mapped(token: Token, clientIp: nat, accepted: bool, joinerOnline: bool)
    | Cleanup
    | Tick(seconds: nat)

  predicate Matches(pending: map<Token, Pending>, token: Token, ip: nat) {
    token in pending && pending[token].hostIp == ip
  }

  function Lookup(pending: map<Token, Pending>, token: Token, ip: nat): Option<Pid> {
    if Matches(pending, token, ip) then Some(pending[token].joiner) else None
  }

  function Consumed(pending: map<Token, Pending>, token: Token, ip: nat): map<Token, Pending> {
    if Matches(pending, token, ip) then pending - {token} else pending
  }

  function Unexpired(pending: map<Token, Pending>, now: nat): map<Token, Pending> {
    map t | t in pending && now - pending[t].createdAt < UPNP_TTL :: pending[t]
  }

  predicate Enabled(s: Table, st: Step) {
    st.Register? ==> st.token !in s.issued
  }

  /** `accepted`: registered player, well-formed and safe address. */
  function Apply(s: Table, st: Step): Table
    requires Enabled(s, st)
  {
    match st
    case Register(t, ip, joiner) =>
      s.(pending := s.pending[t := Pending(ip, joiner, s.clock)], issued := s.issued[t := Pending(ip, joiner, s.clock)])
    case Mapped(t, ip, accepted, online) =>
      if !accepted then s
      else
        var joiner := Lookup(s.pending, t, ip);
        s.(pending := Consumed(s.pending, t, ip),
           sent := if joiner.Some? && online then s.sent + [Delivery(t, ip, joiner.value)] else s.sent)
    case Cleanup => s.(pending := Unexpired(s.pending, s.clock))
    case Tick(d) => s.(clock := s.clock + d)
  }

  ghost predicate Inv(s: Table) {
    && (forall t :: t in s.pending ==> t in s.issued && s.pending[t] == s.issued[t])
    && (forall i :: 0 <= i < |s.sent| ==> Proper(s, s.sent[i]))
    && (forall i, j :: 0 <= i < j < |s.sent| ==> s.sent[i].token != s.sent[j].token)
  }

  /** The message answers its token's host and goes to its token's joiner. */
  predicate Answers(issued: map<Token, Pending>, d: Delivery) {
    d.token in issued && issued[d.token].hostIp == d.from && issued[d.token].joiner == d.to
  }

  /** The tokens that have had their message. */
  ghost function Tokens(sent: seq<Delivery>): set<Token> {
    set i | 0 <= i < |sent| :: sent[i].token
  }

  predicate Proper(s: Table, d: Delivery) {
    Answers(s.issued, d) && d.token !in s.pending
  }

  lemma StepInv(s: Table, st: Step)
    requires Inv(s) && Enabled(s, st)
    ensures Inv(Apply(s, st))
  {
    forall i | 0 <= i < |s.sent| ensures Proper(s, s.sent[i]) {
    }
  }

  function Before(run: seq<Step>): seq<Step>
    requires run != []
  {
    run[..|run| - 1]
  }

  ghost predicate Legal(run: seq<Step>)
    decreases |run|, 0
  {
    run == [] || (Legal(Before(run)) && Enabled(After(Before(run)), run[|run| - 1]))
  }

  ghost function After(run: seq<Step>): Table
    requires Legal(run)
    decreases |run|, 1
  {
    if run == [] then INIT else Apply(After(Before(run)), run[|run| - 1])
  }

  /** At most one PeerUPnPAddr per token, asked for by that token's host IP, sent to that
      token's joiner and nobody else. */
  lemma {:induction false} OneShot(run: seq<Step>)
    requires Legal(run)
    ensures Inv(After(run))
    ensures forall i, j :: 0 <= i < j < |After(run).sent| ==> After(run).sent[i].token != After(run).sent[j].token
    ensures forall i :: 0 <= i < |After(run).sent| ==> Answers(After(run).issued, After(run).sent[i])
  {
    if run != [] {
      OneShot(Before(run));
      StepInv(After(Before(run)), run[|run| - 1]);
    }
    forall i | 0 <= i < |After(run).sent| ensures Proper(After(run), After(run).sent[i]) {
    }
  }

  /** How many accepted requests for t found their entry. */
  ghost function Hits(run: seq<Step>, t: Token): nat
    requires Legal(run)
    decreases |run|
  {
    if run == [] then 0
    else
      var st := run[|run| - 1];
      Hits(Before(run), t) +
      if st.Mapped? && st.accepted && st.token == t && Matches(After(Before(run)).pending, t, st.clientIp) then 1 else 0
  }

  /** A lookup succeeds at most once per token, never again after it succeeded. */
  lemma {:induction false} AtMostOneHit(run: seq<Step>, t: Token)
    requires Legal(run)
    ensures Hits(run, t) <= 1
    ensures Hits(run, t) == 1 ==> t in After(run).issued && t !in After(run).pending
    ensures t in After(run).pending ==> t in After(run).issued
  {
    if run != [] {
      AtMostOneHit(Before(run), t);
    }
  }

  /** A lookup succeeds only for the registered host IP and names the registered joiner;
      one that fails changes nothing. */
  lemma LookupExact(run: seq<Step>, t: Token, ip: nat)
    requires Legal(run)
    ensures var s := After(run);
            match Lookup(s.pending, t, ip)
            case Some(joiner) => t in s.issued && s.issued[t].hostIp == ip && s.issued[t].joiner == joiner
            case None => Consumed(s.pending, t, ip) == s.pending
  {
    OneShot(run);
  }

  /** An entry lives for ten seconds at least, unless it is found first; a cleanup leaves none
      that is older. */
  lemma {:induction false} KeptWhileYoung(run: seq<Step>, t: Token)
    requires Legal(run)
    ensures var s := After(run);
      t in s.issued ==>
        && s.issued[t].createdAt <= s.clock
        && (s.clock < s.issued[t].createdAt + 10 && Hits(run, t) == 0 ==> t in s.pending)
        && (t in s.pending && run[|run| - 1] == Cleanup ==> s.clock < s.issued[t].createdAt + 10)
    decreases |run|
  {
    if run != [] {
      KeptWhileYoung(Before(run), t);
      OneShot(Before(run));
    }
  }

  /** upnp_pending as written, with the messages that come of it. */
  class UpnpTable {
    var pending: map<Token, Pending>
    var clock: nat
    ghost var issued: map<Token, Pending>
    ghost var sent: seq<Delivery>
    ghost var run: seq<Step>

    ghost function View(): Table
      reads this
    {
      Table(pending, issued, sent, clock)
    }

    /** The table is the outcome of a run, the one recorded. */
    ghost predicate Valid()
      reads this
    {
      Legal(run) && After(run) == View()
    }

    constructor ()
      ensures Valid() && run == []
    {
      pending, clock, issued, sent, run := map[], 0, map[], [], [];
    }

    /** One more step of the run. */
    ghost method Record(st: Step)
      requires Valid() && Enabled(View(), st)
      modifies this`run
      ensures run == old(run) + [st] && Legal(run) && After(run) == Apply(View(), st)
    {
      run := run + [st];
      assert Before(run) == old(run);
    }

    method Advance(seconds: nat)
      requires Valid()
      modifies this`clock, this`run
      ensures Valid() && run == old(run) + [Tick(seconds)]
    {
      Record(Tick(seconds));
      clock := clock + seconds;
    }

    /** From now on a lookup from the host's IP, and from no other, finds the joiner. */
    method Insert(t: Token, hostIp: nat, joiner: Pid)
      requires Valid() && t !in issued
      modifies this
      ensures Valid() && run == old(run) + [Register(t, hostIp, joiner)]
      ensures forall ip :: Lookup(pending, t, ip) == if ip == hostIp then Some(joiner) else None
      ensures forall u, ip :: u != t ==> Lookup(pending, u, ip) == Lookup(old(pending), u, ip)
      ensures pending == old(pending)[t := Pending(hostIp, joiner, clock)]
    {
      Record(Register(t, hostIp, joiner));
      issued := issued[t := Pending(hostIp, joiner, clock)];
      pending := pending[t := Pending(hostIp, joiner, clock)];
    }

    /** lookup_upnp_pending: what was found can be found by nobody again. */
    method LookupPending(t: Token, claimedHostIp: nat) returns (joiner: Option<Pid>)
      modifies this`pending
      ensures joiner == Lookup(old(pending), t, claimedHostIp)
      ensures pending == Consumed(old(pending), t, claimedHostIp)
      ensures joiner.Some? ==> forall ip :: Lookup(pending, t, ip) == None
      ensures joiner.Some? <==> t in old(pending) && old(pending)[t].hostIp == claimedHostIp
      ensures joiner.Some? ==> joiner.value == old(pending)[t].joiner && pending == old(pending) - {t}
      ensures joiner.None? ==> pending == old(pending)
    {
      joiner := None;
      if t !in pending {
        return;
      }
      var entry := pending[t];
      if entry.hostIp != claimedHostIp {
        return;
      }
      joiner := Some(entry.joiner);
      pending := pending - {t};
    }

    /** The UPnPMapped arm; `accepted` and `online` are what the checks around it say. */
    method OnMapped(t: Token, clientIp: nat, accepted: bool, online: bool) returns (receiver: Option<Pid>)
      requires Valid()
      modifies this
      ensures Valid() && run == old(run) + [Mapped(t, clientIp, accepted, online)]
      ensures receiver.Some? <==> accepted && online && t in old(pending) && old(pending)[t].hostIp == clientIp
      ensures sent == old(sent) + if receiver.Some? then [Delivery(t, clientIp, receiver.value)] else []
      ensures receiver.Some? ==> t !in old(Tokens(sent)) && t in issued
      ensures receiver.Some? ==> receiver == Some(issued[t].joiner) && issued[t].hostIp == clientIp
    {
      OneShot(run);
      Record(Mapped(t, clientIp, accepted, online));
      receiver := None;
      if !accepted {
        return;
      }
      var joiner := LookupPending(t, clientIp);
      if joiner.Some? && online {
        receiver := joiner;
        sent := sent + [Delivery(t, clientIp, joiner.value)];
      }
    }

    method CleanupExpired()
      requires Valid()
      modifies this`pending, this`run
      ensures Valid() && run == old(run) + [Cleanup]
      ensures forall t :: t in pending <==> t in old(pending) && clock < old(pending)[t].createdAt + 10
      ensures forall t :: t in pending ==> pending[t] == old(pending)[t]
    {
      Record(Cleanup);
      var todo := pending.Keys;
      ghost var start := pending;
      while todo != {}
        invariant todo <= start.Keys
        invariant forall t :: t in pending <==> t in start && (t in todo || clock - start[t].createdAt < UPNP_TTL)
        invariant forall t :: t in pending ==> pending[t] == start[t]
        decreases todo
        modifies this`pending
      {
        var t :| t in todo;
        todo := todo - {t};
        if clock - pending[t].createdAt >= UPNP_TTL {
          pending := pending - {t};
        }
      }
      assert pending == Unexpired(start, clock);
    }
  }
}
