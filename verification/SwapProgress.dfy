/** What a swap can always still do: a handshake fails by its timeout alone, frames on their
    way can all be delivered, and a swap can be completed with nothing lost. */
module SwapProgress {
  import opened Basics
  import opened Swap
  import Bridge

  // ------------------------------------------------------------ the handshake

  /** The signal that completes the handshake of one side. */
  function Completing(side: Side): Action {
    if side == Joiner then ReadAck else SendAck
  }

  /** Whatever a handshake can read is the signal it waits for. */
  predicate SignalsOnly(s: System) {
    && (s.joiner.shake == Half && s.toJoiner.quic != [] ==> s.toJoiner.quic[0] == SWAP_ACK)
    && (s.host.shake == Waiting && s.toHost.quic != [] ==> s.toHost.quic[0] == SWAP_READY)
  }

  lemma OnlySignals(s: System)
    requires Inv(s)
    ensures SignalsOnly(s)
  {
    OnlyAck(s.joiner, s.host, s.toJoiner);
    OnlyReady(s.joiner, s.host, s.toHost);
  }

  lemma SuccessStep(s: System, a: Action, side: Side)
    requires SignalsOnly(s) && Enabled(s, a)
    ensures End(Apply(s, a), side).shake == Done <==> End(s, side).shake == Done || a == Completing(side)
  {
  }

  lemma FailureStep(s: System, a: Action, side: Side)
    requires SignalsOnly(s) && Enabled(s, a)
    ensures End(Apply(s, a), side).shake == Failed <==> End(s, side).shake == Failed || a == ShakeTimeout(side)
  {
  }

  lemma LaterActions(acts: seq<Action>, a: Action)
    requires acts != []
    ensures a in acts <==> a in Before(acts) || a == Last(acts)
  {
    assert acts == Before(acts) + [Last(acts)];
  }

  /** A handshake succeeds exactly when its last signal was exchanged and fails exactly when
      it timed out: no other signal is ever read. */
  lemma {:induction false} HandshakeOutcome(acts: seq<Action>, side: Side)
    requires Legal(acts)
    ensures End(After(acts), side).shake == Done <==> Completing(side) in acts
    ensures End(After(acts), side).shake == Failed <==> ShakeTimeout(side) in acts
  {
    if acts != [] {
      RunInv(Before(acts));
      HandshakeOutcome(Before(acts), side);
      OnlySignals(After(Before(acts)));
      SuccessStep(After(Before(acts)), Last(acts), side);
      FailureStep(After(Before(acts)), Last(acts), side);
      LaterActions(acts, Completing(side));
      LaterActions(acts, ShakeTimeout(side));
    }
  }

  /** The system with both handshakes done and its signals exchanged. */
  function Shaken(s: System): System {
    s.(joiner := s.joiner.(shake := Done, shakeOut := [0x01], shakeIn := [0x02]),
       host := s.host.(shake := Done, shakeOut := [0x02], shakeIn := [0x01]))
  }

  /** The system with SWAP_READY written and read. */
  function HalfShaken(s: System): System {
    s.(joiner := s.joiner.(shake := Half, shakeOut := [SWAP_READY]),
       host := s.host.(shake := Half, shakeIn := [SWAP_READY]))
  }

  /** Two handshakes that have not begun have neither read nor written. */
  predicate Unused(s: System) {
    && s.joiner.shake == Waiting && s.joiner.shakeOut == [] && s.joiner.shakeIn == [] && s.toHost.quic == []
    && s.host.shake == Waiting && s.host.shakeOut == [] && s.host.shakeIn == [] && s.toJoiner.quic == []
  }

  lemma UnusedQuic(acts: seq<Action>)
    requires Legal(acts) && After(acts).joiner.shake == Waiting && After(acts).host.shake == Waiting
    ensures Unused(After(acts))
  {
    RunInv(acts);
  }

  lemma ReadyRead(acts: seq<Action>) returns (acts': seq<Action>)
    requires Legal(acts) && Unused(After(acts))
    ensures Legal(acts') && acts <= acts' && After(acts') == HalfShaken(After(acts))
  {
    acts' := Extend(acts, SendReady);
    acts' := Extend(acts', ReadReady);
  }

  lemma AckRead(acts: seq<Action>) returns (acts': seq<Action>)
    requires Legal(acts) && After(acts).joiner.shake == Half && After(acts).host.shake == Half
    requires After(acts).toJoiner.quic == [] && After(acts).joiner.shakeIn == [] && After(acts).host.shakeOut == []
    ensures Legal(acts') && acts <= acts'
    ensures var s := After(acts);
      After(acts') == s.(joiner := s.joiner.(shake := Done, shakeIn := [SWAP_ACK]),
                         host := s.host.(shake := Done, shakeOut := [SWAP_ACK]))
  {
    acts' := Extend(acts, SendAck);
    acts' := Extend(acts', ReadAck);
  }

  /** Two waiting handshakes can both succeed, whatever the bridges do meanwhile. */
  lemma HandshakeCanComplete(acts: seq<Action>) returns (acts': seq<Action>)
    requires Legal(acts) && After(acts).joiner.shake == Waiting && After(acts).host.shake == Waiting
    ensures Legal(acts') && acts <= acts' && After(acts') == Shaken(After(acts))
  {
    UnusedQuic(acts);
    acts' := ReadyRead(acts);
    acts' := AckRead(acts');
  }

  // ------------------------------------------------------------ delivery

  /** Frames of `from` moved on, and only that: its peer's output with what is still on its
      way is what it was. */
  ghost predicate Moved(s: System, s': System, from: Side) {
    var b, b', w, w' := End(s, Peer(from)).bridge, End(s', Peer(from)).bridge, From(s, from), From(s', from);
    && End(s', from) == End(s, from) && From(s', Peer(from)) == From(s, Peer(from))
    && End(s', Peer(from)) == End(s, Peer(from)).(bridge := b.(wsIn := b'.wsIn, tcpOut := b'.tcpOut))
    && w'.quic == w.quic && w'.dropped == w.dropped
    && b'.tcpOut + Flat(InFlight(w')) == b.tcpOut + Flat(InFlight(w))
  }

  function Hops(w: Wire): nat {
    3 * |w.up| + 2 * |w.queue| + |w.down|
  }

  /** Reading one frame, field by field. */
  lemma Received(s: System, from: Side)
    requires From(s, from).down != [] && End(s, Peer(from)).bridge.phase in {Bridge.Relay, Bridge.Drain}
    ensures var f, b := From(s, from).down[0], End(s, Peer(from)).bridge;
      var e := Bridge.WsBinary(f, Bridge.Sent);
      && Enabled(s, Arm(Peer(from), e))
      && var s' := Apply(s, Arm(Peer(from), e));
         && End(s', from) == End(s, from) && From(s', Peer(from)) == From(s, Peer(from))
         && End(s', Peer(from)).bridge == b.(wsIn := b.wsIn + [f], tcpOut := b.tcpOut + f)
         && End(s', Peer(from)).(bridge := b) == End(s, Peer(from))
         && From(s', from) == From(s, from).(down := From(s, from).down[1..])
  {
  }

  lemma ReceivedMoves(s: System, from: Side)
    requires From(s, from).down != [] && End(s, Peer(from)).bridge.phase in {Bridge.Relay, Bridge.Drain}
    ensures var receive := Arm(Peer(from), Bridge.WsBinary(From(s, from).down[0], Bridge.Sent));
      && Enabled(s, receive) && Moved(s, Apply(s, receive), from)
      && Hops(From(Apply(s, receive), from)) < Hops(From(s, from))
  {
    Received(s, from);
    var b, w := End(s, Peer(from)).bridge, From(s, from);
    var rest := InFlight(w.(down := w.down[1..]));
    assert InFlight(w) == [w.down[0]] + rest;
    DeliveredBytes(b.tcpOut, w.down[0], rest, InFlight(w));
  }

  lemma ReceiveOne(acts: seq<Action>, from: Side) returns (acts': seq<Action>)
    requires Legal(acts) && End(After(acts), Peer(from)).bridge.phase in {Bridge.Relay, Bridge.Drain}
    requires From(After(acts), from).down != []
    ensures Legal(acts') && acts <= acts' && Moved(After(acts), After(acts'), from)
    ensures Hops(From(After(acts'), from)) < Hops(From(After(acts), from))
  {
    ReceivedMoves(After(acts), from);
    acts' := Extend(acts, Arm(Peer(from), Bridge.WsBinary(From(After(acts), from).down[0], Bridge.Sent)));
  }

  lemma DeliveredBytes(out: seq<Byte>, f: seq<Byte>, rest: seq<seq<Byte>>, all: seq<seq<Byte>>)
    requires all == [f] + rest
    ensures out + f + Flat(rest) == out + Flat(all)
  {
    assert all[1..] == rest;
  }

  /** The relay passes a frame on without changing what is on the way. */
  lemma SentOn(s: System, from: Side)
    requires From(s, from).queue != []
    ensures Moved(s, Apply(s, RelaySend(from)), from)
    ensures Hops(From(Apply(s, RelaySend(from)), from)) < Hops(From(s, from))
  {
    assert InFlight(From(Apply(s, RelaySend(from)), from)) == InFlight(From(s, from));
  }

  lemma TakenIn(s: System, from: Side)
    requires From(s, from).queue == [] && From(s, from).up != []
    ensures Moved(s, Apply(s, RelayTake(from)), from)
    ensures Hops(From(Apply(s, RelayTake(from)), from)) < Hops(From(s, from))
  {
    assert InFlight(From(Apply(s, RelayTake(from)), from)) == InFlight(From(s, from));
  }

  lemma RelayOne(acts: seq<Action>, from: Side) returns (acts': seq<Action>)
    requires Legal(acts) && From(After(acts), from).down == [] && InFlight(From(After(acts), from)) != []
    ensures Legal(acts') && acts <= acts' && Moved(After(acts), After(acts'), from)
    ensures Hops(From(After(acts'), from)) < Hops(From(After(acts), from))
  {
    if From(After(acts), from).queue != [] {
      SentOn(After(acts), from);
      acts' := Extend(acts, RelaySend(from));
    } else {
      TakenIn(After(acts), from);
      acts' := Extend(acts, RelayTake(from));
    }
  }

  /** As long as the receiver reads its WebSocket, all that is on its way can be delivered:
      in order, whole, and without dropping a frame. */
  lemma {:induction false} FramesCanArrive(acts: seq<Action>, from: Side) returns (acts': seq<Action>)
    requires Legal(acts) && End(After(acts), Peer(from)).bridge.phase in {Bridge.Relay, Bridge.Drain}
    ensures Legal(acts') && acts <= acts' && Moved(After(acts), After(acts'), from)
    ensures InFlight(From(After(acts'), from)) == []
    decreases Hops(From(After(acts), from))
  {
    if InFlight(From(After(acts), from)) == [] {
      acts' := acts;
    } else {
      if From(After(acts), from).down != [] {
        acts' := ReceiveOne(acts, from);
      } else {
        acts' := RelayOne(acts, from);
      }
      acts' := FramesCanArrive(acts', from);
    }
  }

  // ------------------------------------------------------------ a whole swap

  /** Both bridges relay and no handshake has begun. */
  predicate BeforeSwap(s: System) {
    && s.joiner.bridge.phase == Bridge.Relay && s.host.bridge.phase == Bridge.Relay
    && s.joiner.shake == Waiting && s.host.shake == Waiting
  }

  /** Both bridges drain, with nothing set aside and nothing on the QUIC streams. */
  predicate Draining(s: System, side: Side) {
    var b := End(s, side).bridge;
    b.phase == Bridge.Drain && b.quicBuffer == [] && b.tcpOutboundBuffer == [] && From(s, side).quic == []
  }

  /** The sender's input and the drops; no drain, flush or delivery changes them. */
  predicate SameSource(s: System, s': System) {
    && s'.joiner.bridge.tcpIn == s.joiner.bridge.tcpIn && s'.host.bridge.tcpIn == s.host.bridge.tcpIn
    && s'.toHost.dropped == s.toHost.dropped && s'.toJoiner.dropped == s.toJoiner.dropped
  }

  predicate NothingAside(b: Bridge.State) {
    b.quicBuffer == [] && b.tcpOutboundBuffer == []
  }

  /** The system after both handshakes and both swaps. */
  function BothSwapped(s: System): System {
    InPhase(InPhase(Shaken(s), Joiner, Bridge.Drain), Host, Bridge.Drain)
  }

  lemma SwappedDrains(s: System)
    requires Unused(s) && NothingAside(s.joiner.bridge) && NothingAside(s.host.bridge)
    ensures SameSource(s, BothSwapped(s)) && Draining(BothSwapped(s), Joiner) && Draining(BothSwapped(s), Host)
  {
  }

  lemma UnusedStreams(acts: seq<Action>)
    requires Legal(acts) && BeforeSwap(After(acts))
    ensures Unused(After(acts)) && NothingAside(After(acts).joiner.bridge) && NothingAside(After(acts).host.bridge)
  {
    RunInv(acts);
    UnusedQuic(acts);
  }

  lemma BothSwap(acts: seq<Action>) returns (acts': seq<Action>)
    requires Legal(acts) && After(acts).joiner.shake == Done && After(acts).host.shake == Done
    requires After(acts).joiner.bridge.phase == Bridge.Relay && After(acts).host.bridge.phase == Bridge.Relay
    ensures Legal(acts') && acts <= acts'
    ensures After(acts') == InPhase(InPhase(After(acts), Joiner, Bridge.Drain), Host, Bridge.Drain)
  {
    acts' := SilentArm(acts, Joiner, Bridge.SwapReady);
    acts' := SilentArm(acts', Host, Bridge.SwapReady);
  }

  lemma BothDrain(acts: seq<Action>) returns (acts': seq<Action>)
    requires Legal(acts) && BeforeSwap(After(acts))
    ensures Legal(acts') && acts <= acts' && SameSource(After(acts), After(acts'))
    ensures Draining(After(acts'), Joiner) && Draining(After(acts'), Host)
  {
    UnusedStreams(acts);
    SwappedDrains(After(acts));
    acts' := HandshakeAndSwap(acts);
  }

  lemma HandshakeAndSwap(acts: seq<Action>) returns (acts': seq<Action>)
    requires Legal(acts) && BeforeSwap(After(acts))
    ensures Legal(acts') && acts <= acts' && After(acts') == BothSwapped(After(acts))
  {
    acts' := HandshakeCanComplete(acts);
    acts' := BothSwap(acts');
  }

  lemma BothDeliver(acts: seq<Action>) returns (acts': seq<Action>)
    requires Legal(acts) && Draining(After(acts), Joiner) && Draining(After(acts), Host)
    ensures Legal(acts') && acts <= acts' && SameSource(After(acts), After(acts'))
    ensures Draining(After(acts'), Joiner) && Draining(After(acts'), Host)
    ensures InFlight(After(acts').toHost) == [] && InFlight(After(acts').toJoiner) == []
  {
    acts' := FramesCanArrive(acts, Joiner);
    acts' := FramesCanArrive(acts', Host);
  }

  lemma LeaveDrain(acts: seq<Action>, side: Side) returns (acts': seq<Action>)
    requires Legal(acts) && Draining(After(acts), side)
    ensures Legal(acts') && acts <= acts' && After(acts') == InPhase(After(acts), side, Bridge.Direct)
  {
    acts' := SilentArm(acts, side, Bridge.DrainDeadline);
    acts' := FlushNothing(acts', side);
  }

  lemma BothLeaveDrain(acts: seq<Action>) returns (acts': seq<Action>)
    requires Legal(acts) && Draining(After(acts), Joiner) && Draining(After(acts), Host)
    requires InFlight(After(acts).toHost) == [] && InFlight(After(acts).toJoiner) == []
    ensures Legal(acts') && acts <= acts' && SameSource(After(acts), After(acts'))
    ensures OnQuic(After(acts'), Joiner) && OnQuic(After(acts'), Host)
  {
    acts' := LeaveDrain(acts, Joiner);
    acts' := LeaveDrain(acts', Host);
  }

  /** The sender is on QUIC with nothing of it anywhere between the two games. */
  predicate OnQuic(s: System, from: Side) {
    && End(s, from).bridge.phase == Bridge.Direct && End(s, Peer(from)).bridge.phase == Bridge.Direct
    && Settled(s, from) && InFlight(From(s, from)) == []
  }

  /** All that the relay did not drop has arrived. */
  predicate Arrived(s: System, from: Side) {
    var input, output := End(s, from).bridge.tcpIn, End(s, Peer(from)).bridge.tcpOut;
    |input| == |output| + From(s, from).dropped && (From(s, from).dropped == 0 ==> output == input)
  }

  lemma OnQuicArrived(acts: seq<Action>, from: Side)
    requires Legal(acts) && OnQuic(After(acts), from)
    ensures Arrived(After(acts), from)
  {
    LosslessIff(acts, from);
  }

  /** From every reachable moment at which both sides relay and no handshake has begun, the
      swap can be completed: both sides end up on QUIC with every byte that the relay had not
      already dropped delivered, both ways, and nothing left behind. */
  lemma SwapCanComplete(acts: seq<Action>) returns (acts': seq<Action>)
    requires Legal(acts) && BeforeSwap(After(acts))
    ensures Legal(acts') && acts <= acts' && SameSource(After(acts), After(acts'))
    ensures forall from :: OnQuic(After(acts'), from) && Arrived(After(acts'), from)
  {
    acts' := BothDrain(acts);
    acts' := BothDeliver(acts');
    acts' := BothLeaveDrain(acts');
    OnQuicArrived(acts', Joiner);
    OnQuicArrived(acts', Host);
  }

  /** And from there whatever one game writes reaches the other whole, over QUIC. */
  lemma DirectDelivers(acts: seq<Action>, from: Side, d: seq<Byte>) returns (acts': seq<Action>)
    requires Legal(acts) && OnQuic(After(acts), from) && 0 < |d| <= Bridge.RELAY_BUF_SIZE
    ensures Legal(acts') && acts <= acts' && OnQuic(After(acts'), from)
    ensures End(After(acts'), from).bridge.tcpIn == End(After(acts), from).bridge.tcpIn + d
    ensures End(After(acts'), Peer(from)).bridge.tcpOut == End(After(acts), Peer(from)).bridge.tcpOut + d
  {
    acts' := Extend(acts, Arm(from, Bridge.TcpData(d, Bridge.Sent)));
    assert From(After(acts'), from).quic == d;
    acts' := Extend(acts', Arm(Peer(from), Bridge.QuicData(d, Bridge.Sent)));
  }
}
