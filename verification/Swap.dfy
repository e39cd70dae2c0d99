/** Two bridges playing one game: joiner and host, the server's relay between their
    WebSockets, one QUIC stream each way, and the in-stream swap handshake. */
module Swap {
  import opened Basics
  import Bridge

  const SWAP_READY: Byte := 0x01
  const SWAP_ACK: Byte := 0x02
  const RELAY_CHANNEL_SIZE := 64

  datatype Side = Joiner | Host

  /** Half: the joiner has written SWAP_READY, or the host has read it. */
  datatype Shake = Waiting | Half | Done | Failed

  /** A bridge with its handshake task; shakeOut/shakeIn are the handshake bytes the
      task wrote to and read from the QUIC stream that the bridge later takes over. */
  datatype Endpoint = Endpoint(bridge: Bridge.State, shake: Shake,
                               shakeOut: seq<Byte>, shakeIn: seq<Byte>)

  /** One direction: frames on the sender's WebSocket, in the relay's channel and on the
      receiver's WebSocket; bytes on the QUIC stream; bytes the relay threw away. */
  datatype Wire = Wire(up: seq<seq<Byte>>, queue: seq<seq<Byte>>, down: seq<seq<Byte>>,
                       quic: seq<Byte>, dropped: nat)

  datatype System = System(joiner: Endpoint, host: Endpoint, toHost: Wire, toJoiner: Wire)

  const IDLE_END := Endpoint(Bridge.START, Waiting, [], [])
  const EMPTY_WIRE := Wire([], [], [], [], 0)
  const INIT := System(IDLE_END, IDLE_END, EMPTY_WIRE, EMPTY_WIRE)

  datatype Action =
    | Arm(side: Side, event: Bridge.Event)
    | RelayTake(from: Side)    // limiter passed, the frame enters the peer's channel
    | RelayDrop(from: Side)    // limiter or full channel: the frame is thrown away
    | RelaySend(from: Side)
    | SendReady | ReadReady | SendAck | ReadAck
    | ShakeTimeout(side: Side)

  function End(s: System, side: Side): Endpoint {
    if side == Joiner then s.joiner else s.host
  }

  function Peer(side: Side): Side {
    if side == Joiner then Host else Joiner
  }

  /** The wire that carries what `side` sends. */
  function From(s: System, side: Side): Wire {
    if side == Joiner then s.toHost else s.toJoiner
  }

  function SetWire(s: System, side: Side, w: Wire): System {
    if side == Joiner then s.(toHost := w) else s.(toJoiner := w)
  }

  function SetEnd(s: System, side: Side, e: Endpoint): System {
    if side == Joiner then s.(joiner := e) else s.(host := e)
  }

  /** What an arm can observe is what its incoming wire holds and its handshake allows. */
  predicate CanObserve(me: Endpoint, incoming: Wire, e: Bridge.Event) {
    && Bridge.Polls(me.bridge.phase, e)
    && (e.WsBinary? ==> incoming.down != [] && incoming.down[0] == e.frame)
    && (e.QuicData? ==> e.chunk <= incoming.quic)
    && (e.SwapReady? ==> me.shake == Done)
  }

  function Emit(w: Wire, b: Bridge.State, b': Bridge.State): Wire
    requires b.wsOut <= b'.wsOut && b.quicOut <= b'.quicOut
  {
    w.(up := w.up + b'.wsOut[|b.wsOut|..], quic := w.quic + b'.quicOut[|b.quicOut|..])
  }

  function Consume(w: Wire, e: Bridge.Event): Wire {
    if e.WsBinary? && w.down != [] then w.(down := w.down[1..])
    else if e.QuicData? && |e.chunk| <= |w.quic| then w.(quic := w.quic[|e.chunk|..])
    else w
  }

  predicate Enabled(s: System, a: Action) {
    match a
    case Arm(side, e) => CanObserve(End(s, side), From(s, Peer(side)), e)
    case RelayTake(d) => From(s, d).up != [] && |From(s, d).queue| < RELAY_CHANNEL_SIZE
    case RelayDrop(d) => From(s, d).up != []
    case RelaySend(d) => From(s, d).queue != []
    case SendReady => s.joiner.shake == Waiting
    case ReadReady => s.host.shake == Waiting && s.toHost.quic != []
    case SendAck => s.host.shake == Half
    case ReadAck => s.joiner.shake == Half && s.toJoiner.quic != []
    case ShakeTimeout(side) => End(s, side).shake in {Waiting, Half}
  }

  function Apply(s: System, a: Action): System
    requires Enabled(s, a)
  {
    match a
    case Arm(side, e) => ApplyArm(s, side, e)
    case RelayTake(d) =>
      var w := From(s, d);
      SetWire(s, d, w.(up := w.up[1..], queue := w.queue + [w.up[0]]))
    case RelayDrop(d) =>
      var w := From(s, d);
      SetWire(s, d, w.(up := w.up[1..], dropped := w.dropped + |w.up[0]|))
    case RelaySend(d) =>
      var w := From(s, d);
      SetWire(s, d, w.(queue := w.queue[1..], down := w.down + [w.queue[0]]))
    case SendReady =>
      s.(joiner := s.joiner.(shake := Half, shakeOut := s.joiner.shakeOut + [SWAP_READY]),
         toHost := s.toHost.(quic := s.toHost.quic + [SWAP_READY]))
    case ReadReady =>
      var signal := s.toHost.quic[0];
      s.(host := s.host.(shake := if signal == SWAP_READY then Half else Failed,
                         shakeIn := s.host.shakeIn + [signal]),
         toHost := s.toHost.(quic := s.toHost.quic[1..]))
    case SendAck =>
      s.(host := s.host.(shake := Done, shakeOut := s.host.shakeOut + [SWAP_ACK]),
         toJoiner := s.toJoiner.(quic := s.toJoiner.quic + [SWAP_ACK]))
    case ReadAck =>
      var signal := s.toJoiner.quic[0];
      s.(joiner := s.joiner.(shake := if signal == SWAP_ACK then Done else Failed,
                             shakeIn := s.joiner.shakeIn + [signal]),
         toJoiner := s.toJoiner.(quic := s.toJoiner.quic[1..]))
    case ShakeTimeout(side) => SetEnd(s, side, End(s, side).(shake := Failed))
  }

  function ApplyArm(s: System, side: Side, e: Bridge.Event): System
    requires CanObserve(End(s, side), From(s, Peer(side)), e)
  {
    var me := End(s, side);
    var b' := Bridge.Step(me.bridge, e);
    var s1 := SetEnd(s, side, me.(bridge := b'));
    var s2 := SetWire(s1, side, Emit(From(s, side), me.bridge, b'));
    SetWire(s2, Peer(side), Consume(From(s, Peer(side)), e))
  }

  /** A run of the whole system: every action is enabled where it happens. */
  ghost predicate Legal(acts: seq<Action>)
    decreases |acts|, 0
  {
    acts == [] || (Legal(Before(acts)) && Enabled(After(Before(acts)), Last(acts)))
  }

  ghost function After(acts: seq<Action>): System
    requires Legal(acts)
    decreases |acts|, 1
  {
    if acts == [] then INIT else Apply(After(Before(acts)), Last(acts))
  }

  function Before(acts: seq<Action>): seq<Action>
    requires acts != []
  {
    acts[..|acts| - 1]
  }

  function Last(acts: seq<Action>): Action
    requires acts != []
  {
    acts[|acts| - 1]
  }

  // ---------------------------------------------------------------- invariant

  /** Frames sent by src that the relay path still knows: received, or in flight. */
  function Carried(dst: Bridge.State, w: Wire): seq<seq<Byte>> {
    dst.wsIn + (w.down + w.queue + w.up)
  }

  function InFlight(w: Wire): seq<seq<Byte>> {
    w.down + w.queue + w.up
  }

  ghost predicate RelayInv(src: Bridge.State, dst: Bridge.State, w: Wire) {
    && IsSubsequence(Carried(dst, w), src.wsOut)
    && |Flat(src.wsOut)| == |Flat(Carried(dst, w))| + w.dropped
    && |w.queue| <= RELAY_CHANNEL_SIZE
  }

  /** The QUIC stream is first-in first-out, handshake bytes included. */
  ghost predicate QuicInv(src: Endpoint, dst: Endpoint, w: Wire) {
    dst.shakeIn + dst.bridge.quicIn + w.quic == src.shakeOut + src.bridge.quicOut
  }

  ghost predicate EndInv(e: Endpoint) {
    && Bridge.Inv(e.bridge)
    && |e.shakeIn| <= 1
    && (e.shake != Done ==> e.bridge.phase in {Bridge.Relay, Bridge.Closed})
    && (e.shake != Done ==> e.bridge.quicIn == [] && e.bridge.quicOut == [])
  }

  ghost predicate ShakeInv(j: Endpoint, h: Endpoint) {
    && (j.shakeOut == [] || j.shakeOut == [SWAP_READY])
    && (j.shake == Waiting ==> j.shakeOut == [] && j.shakeIn == [])
    && (j.shake == Half ==> j.shakeOut == [SWAP_READY] && j.shakeIn == [])
    && (j.shake == Done ==> j.shakeOut == [SWAP_READY] && j.shakeIn == [SWAP_ACK] && h.shake == Done)
    && (h.shake == Waiting ==> h.shakeIn == [])
    && (h.shake == Half ==> h.shakeIn == [SWAP_READY])
    && (h.shake == Done ==> h.shakeIn == [SWAP_READY] && j.shakeOut == [SWAP_READY])
    && h.shakeOut == (if h.shake == Done then [SWAP_ACK] else [])
  }

  ghost predicate Inv(s: System) {
    && EndInv(s.joiner) && EndInv(s.host)
    && ShakeInv(s.joiner, s.host)
    && RelayInv(s.joiner.bridge, s.host.bridge, s.toHost)
    && RelayInv(s.host.bridge, s.joiner.bridge, s.toJoiner)
    && QuicInv(s.joiner, s.host, s.toHost)
    && QuicInv(s.host, s.joiner, s.toJoiner)
  }

  // ---------------------------------------------------------------- preservation

  lemma TakeKeepsRelay(src: Bridge.State, dst: Bridge.State, w: Wire)
    requires RelayInv(src, dst, w) && w.up != [] && |w.queue| < RELAY_CHANNEL_SIZE
    ensures RelayInv(src, dst, w.(up := w.up[1..], queue := w.queue + [w.up[0]]))
  {
    var w' := w.(up := w.up[1..], queue := w.queue + [w.up[0]]);
    assert Carried(dst, w') == Carried(dst, w);
  }

  lemma SendKeepsRelay(src: Bridge.State, dst: Bridge.State, w: Wire)
    requires RelayInv(src, dst, w) && w.queue != []
    ensures RelayInv(src, dst, w.(queue := w.queue[1..], down := w.down + [w.queue[0]]))
  {
    var w' := w.(queue := w.queue[1..], down := w.down + [w.queue[0]]);
    assert Carried(dst, w') == Carried(dst, w);
  }

  lemma DropKeepsRelay(src: Bridge.State, dst: Bridge.State, w: Wire)
    requires RelayInv(src, dst, w) && w.up != []
    ensures RelayInv(src, dst, w.(up := w.up[1..], dropped := w.dropped + |w.up[0]|))
  {
    var w' := w.(up := w.up[1..], dropped := w.dropped + |w.up[0]|);
    var before := dst.wsIn + w.down + w.queue;
    assert Carried(dst, w) == before + [w.up[0]] + w.up[1..];
    assert Carried(dst, w') == before + w.up[1..];
    SubsequenceDrop(before, w.up[0], w.up[1..]);
    SubsequenceTrans(Carried(dst, w'), Carried(dst, w), src.wsOut);
    FlatSnoc(before, w.up[0]);
    FlatConcat(before + [w.up[0]], w.up[1..]);
    FlatConcat(before, w.up[1..]);
  }

  lemma ArmAsSource(src: Bridge.State, dst: Bridge.State, w: Wire, e: Bridge.Event)
    requires RelayInv(src, dst, w) && Bridge.Polls(src.phase, e)
    ensures RelayInv(Bridge.Step(src, e), dst, Emit(w, src, Bridge.Step(src, e)))
  {
    var src' := Bridge.Step(src, e);
    var w' := Emit(w, src, src');
    if src'.wsOut == src.wsOut {
      assert w'.up == w.up;
    } else {
      var f := e.tcp;
      assert src'.wsOut == src.wsOut + [f] && w'.up == w.up + [f];
      assert Carried(dst, w') == Carried(dst, w) + [f];
      SubsequenceRefl([f]);
      SubsequenceConcat(Carried(dst, w), src.wsOut, [f], [f]);
      FlatSnoc(Carried(dst, w), f);
      FlatSnoc(src.wsOut, f);
    }
  }

  lemma ArmAsReceiver(src: Bridge.State, dst: Endpoint, w: Wire, e: Bridge.Event)
    requires RelayInv(src, dst.bridge, w) && CanObserve(dst, w, e)
    ensures RelayInv(src, Bridge.Step(dst.bridge, e), Consume(w, e))
  {
    var dst' := Bridge.Step(dst.bridge, e);
    assert Carried(dst', Consume(w, e)) == Carried(dst.bridge, w);
  }

  lemma ArmQuicOut(src: Endpoint, dst: Endpoint, w: Wire, e: Bridge.Event)
    requires QuicInv(src, dst, w) && Bridge.Polls(src.bridge.phase, e)
    ensures var b' := Bridge.Step(src.bridge, e);
            QuicInv(src.(bridge := b'), dst, Emit(w, src.bridge, b'))
  {
    var b' := Bridge.Step(src.bridge, e);
    var more := b'.quicOut[|src.bridge.quicOut|..];
    assert b'.quicOut == src.bridge.quicOut + more;
    AppendBoth(dst.shakeIn + dst.bridge.quicIn, w.quic, src.shakeOut, src.bridge.quicOut, more);
  }

  lemma AppendBoth(read: seq<Byte>, ahead: seq<Byte>, signals: seq<Byte>, out: seq<Byte>, more: seq<Byte>)
    requires read + ahead == signals + out
    ensures read + (ahead + more) == signals + (out + more)
  {
    assert read + (ahead + more) == (read + ahead) + more;
    assert signals + (out + more) == (signals + out) + more;
  }

  lemma ArmQuicIn(src: Endpoint, dst: Endpoint, w: Wire, e: Bridge.Event)
    requires QuicInv(src, dst, w) && CanObserve(dst, w, e)
    ensures QuicInv(src, dst.(bridge := Bridge.Step(dst.bridge, e)), Consume(w, e))
  {
    if e.QuicData? {
      assert w.quic == e.chunk + w.quic[|e.chunk|..];
    }
  }

  lemma ArmEnd(me: Endpoint, w: Wire, e: Bridge.Event)
    requires EndInv(me) && CanObserve(me, w, e)
    ensures EndInv(me.(bridge := Bridge.Step(me.bridge, e)))
  {
    Bridge.StepInv(me.bridge, e);
  }

  lemma ArmInv(s: System, side: Side, e: Bridge.Event)
    requires Inv(s) && Enabled(s, Arm(side, e))
    ensures Inv(Apply(s, Arm(side, e)))
  {
    var me, peer := End(s, side), End(s, Peer(side));
    ArmEnd(me, From(s, Peer(side)), e);
    ArmAsSource(me.bridge, peer.bridge, From(s, side), e);
    ArmAsReceiver(peer.bridge, me, From(s, Peer(side)), e);
    ArmQuicOut(me, peer, From(s, side), e);
    ArmQuicIn(peer, me, From(s, Peer(side)), e);
  }

  lemma TakeInv(s: System, d: Side)
    requires Inv(s) && Enabled(s, RelayTake(d))
    ensures Inv(Apply(s, RelayTake(d)))
  {
    TakeKeepsRelay(End(s, d).bridge, End(s, Peer(d)).bridge, From(s, d));
  }

  lemma DropInv(s: System, d: Side)
    requires Inv(s) && Enabled(s, RelayDrop(d))
    ensures Inv(Apply(s, RelayDrop(d)))
  {
    DropKeepsRelay(End(s, d).bridge, End(s, Peer(d)).bridge, From(s, d));
  }

  lemma SendInv(s: System, d: Side)
    requires Inv(s) && Enabled(s, RelaySend(d))
    ensures Inv(Apply(s, RelaySend(d)))
  {
    SendKeepsRelay(End(s, d).bridge, End(s, Peer(d)).bridge, From(s, d));
  }

  lemma SendReadyInv(s: System)
    requires Inv(s) && Enabled(s, SendReady)
    ensures Inv(Apply(s, SendReady))
  {
  }

  /** The only byte a handshake can read is the signal the other one wrote. */
  lemma OnlyAck(j: Endpoint, h: Endpoint, w: Wire)
    requires EndInv(j) && EndInv(h) && ShakeInv(j, h) && QuicInv(h, j, w)
    ensures j.shake == Half && w.quic != [] ==> w.quic[0] == SWAP_ACK
  {
    if j.shake == Half {
      assert j.shakeIn == [] && j.bridge.quicIn == [];
      assert w.quic == h.shakeOut + h.bridge.quicOut;
    }
  }

  lemma OnlyReady(j: Endpoint, h: Endpoint, w: Wire)
    requires EndInv(j) && EndInv(h) && ShakeInv(j, h) && QuicInv(j, h, w)
    ensures h.shake == Waiting && w.quic != [] ==> w.quic[0] == SWAP_READY
  {
    if h.shake == Waiting {
      assert h.shakeIn == [] && h.bridge.quicIn == [];
      assert w.quic == j.shakeOut + j.bridge.quicOut;
    }
  }

  lemma ReadReadyInv(s: System)
    requires Inv(s) && Enabled(s, ReadReady)
    ensures Inv(Apply(s, ReadReady))
  {
    OnlyReady(s.joiner, s.host, s.toHost);
    assert s.toHost.quic == [s.toHost.quic[0]] + s.toHost.quic[1..];
  }

  lemma SendAckInv(s: System)
    requires Inv(s) && Enabled(s, SendAck)
    ensures Inv(Apply(s, SendAck))
  {
    assert (s.host.shakeIn + s.host.bridge.quicIn + s.toHost.quic)[0] == SWAP_READY;
  }

  lemma ReadAckInv(s: System)
    requires Inv(s) && Enabled(s, ReadAck)
    ensures Inv(Apply(s, ReadAck))
  {
    OnlyAck(s.joiner, s.host, s.toJoiner);
    assert s.toJoiner.quic == [s.toJoiner.quic[0]] + s.toJoiner.quic[1..];
  }

  lemma ShakeTimeoutInv(s: System, side: Side)
    requires Inv(s) && Enabled(s, ShakeTimeout(side))
    ensures Inv(Apply(s, ShakeTimeout(side)))
  {
  }

  lemma StepInv(s: System, a: Action)
    requires Inv(s) && Enabled(s, a)
    ensures Inv(Apply(s, a))
  {
    match a {
      case Arm(side, e) => ArmInv(s, side, e);
      case RelayTake(d) => TakeInv(s, d);
      case RelayDrop(d) => DropInv(s, d);
      case RelaySend(d) => SendInv(s, d);
      case SendReady => SendReadyInv(s);
      case ReadReady => ReadReadyInv(s);
      case SendAck => SendAckInv(s);
      case ReadAck => ReadAckInv(s);
      case ShakeTimeout(side) => ShakeTimeoutInv(s, side);
    }
  }

  lemma {:induction false} RunInv(acts: seq<Action>)
    requires Legal(acts)
    ensures Inv(After(acts))
  {
    if acts != [] {
      RunInv(Before(acts));
      StepInv(After(Before(acts)), Last(acts));
    }
  }

  // ---------------------------------------------------------------- main results

  lemma SkipSignal(a: seq<Byte>, x: seq<Byte>, rest: seq<Byte>, b: seq<Byte>, y: seq<Byte>)
    requires |a| == |b| && a + x + rest == b + y
    ensures x <= y
  {
    assert (a + x + rest)[|a|..] == x + rest && (b + y)[|a|..] == y;
  }

  /** Handshake bytes never mix with game bytes: what `to` read of the game from QUIC is
      a prefix of what `from` wrote of it. */
  lemma QuicPrefix(s: System, from: Side)
    requires Inv(s)
    ensures End(s, Peer(from)).bridge.quicIn <= End(s, from).bridge.quicOut
  {
    var src, dst := End(s, from), End(s, Peer(from));
    if dst.shake == Done {
      SkipSignal(dst.shakeIn, dst.bridge.quicIn, From(s, from).quic, src.shakeOut, src.bridge.quicOut);
    }
  }

  /** Swap agreement: the joiner's success implies the host's, a bridge only leaves the
      relay by swap after its own handshake succeeded. */
  lemma SwapAgreement(acts: seq<Action>)
    requires Legal(acts)
    ensures var s := After(acts);
            s.joiner.shake == Done ==>
              s.host.shake == Done && s.host.shakeIn == [0x01] && s.host.shakeOut == [0x02]
    ensures forall side ::
              End(After(acts), side).bridge.phase !in {Bridge.Relay, Bridge.Closed} ==>
                End(After(acts), side).shake == Done
  {
    RunInv(acts);
  }

  /** How many swaps the bridge of one side received. */
  function Swaps(acts: seq<Action>, side: Side): nat {
    if acts == [] then 0
    else Swaps(Before(acts), side) + if Last(acts) == Arm(side, Bridge.SwapReady) then 1 else 0
  }

  lemma SwapLeavesRelay(s: System, a: Action, side: Side)
    requires Enabled(s, a)
    ensures a == Arm(side, Bridge.SwapReady) ==>
              End(s, side).bridge.phase == Bridge.Relay && End(Apply(s, a), side).bridge.phase == Bridge.Drain
    ensures End(s, side).bridge.phase != Bridge.Relay ==> End(Apply(s, a), side).bridge.phase != Bridge.Relay
  {
    if a.Arm? && a.side == side {
      ArmMovesBridge(s, side, a.event);
    } else {
      OthersKeepReceiver(s, a, side);
    }
  }

  /** A bridge swaps at most once per run, and not at all while it is still relaying. */
  lemma {:induction false} SwapsAtMostOnce(acts: seq<Action>, side: Side)
    requires Legal(acts)
    ensures Swaps(acts, side) <= if End(After(acts), side).bridge.phase == Bridge.Relay then 0 else 1
  {
    if acts != [] {
      SwapsAtMostOnce(Before(acts), side);
      SwapLeavesRelay(After(Before(acts)), Last(acts), side);
    }
  }

  /** What reaches the receiver's game is a subsequence of what the sender's game wrote. */
  lemma EndToEnd(s: System, from: Side)
    requires Inv(s)
    ensures IsSubsequence(End(s, Peer(from)).bridge.tcpOut, End(s, from).bridge.tcpIn)
  {
    var a, b, w := End(s, from).bridge, End(s, Peer(from)).bridge, From(s, from);
    QuicPrefix(s, from);
    PrefixIsSubsequence(b.wsIn, Carried(b, w));
    SubsequenceTrans(b.wsIn, Carried(b, w), a.wsOut);
    SubsequenceFlat(b.wsIn, a.wsOut);
    PrefixIsSubsequence(b.quicIn, a.quicOut);
    SubsequenceConcat(Flat(b.wsIn), Flat(a.wsOut), b.quicIn, a.quicOut);
    PrefixIsSubsequence(b.tcpOut, Flat(b.wsIn) + b.quicIn);
    PrefixIsSubsequence(Flat(a.wsOut) + a.quicOut, a.tcpIn);
    SubsequenceTrans(b.tcpOut, Flat(b.wsIn) + b.quicIn, Flat(a.wsOut) + a.quicOut);
    SubsequenceTrans(b.tcpOut, Flat(a.wsOut) + a.quicOut, a.tcpIn);
  }

  /** In every interleaving, both ways, whatever the relay drops and however far apart
      the two sides swap: nothing is reordered, duplicated or invented. */
  lemma NoReorder(acts: seq<Action>, from: Side)
    requires Legal(acts)
    ensures IsSubsequence(End(After(acts), Peer(from)).bridge.tcpOut, End(After(acts), from).bridge.tcpIn)
  {
    RunInv(acts);
    EndToEnd(After(acts), from);
  }

  /** The receiver has stopped reading its WebSocket and is still live. */
  predicate PastDrain(s: System, side: Side) {
    End(s, side).bridge.phase in {Bridge.FlushTcp, Bridge.FlushQuic, Bridge.Direct}
  }

  predicate LeavesDrain(s: System, s': System, side: Side) {
    End(s, side).bridge.phase == Bridge.Drain && End(s', side).bridge.phase == Bridge.FlushTcp
  }

  /** A step strands bytes: the receiver leaves its drain with frames still on their way, or
      the sender sends a frame to a receiver that has left it. */
  predicate Strands(s: System, s': System, from: Side) {
    || (LeavesDrain(s, s', Peer(from)) && InFlight(From(s, from)) != [])
    || (PastDrain(s, Peer(from)) && End(s', from).bridge.wsOut != End(s, from).bridge.wsOut)
  }

  ghost predicate EverStrands(acts: seq<Action>, from: Side)
    requires Legal(acts)
    decreases |acts|
  {
    acts != [] && (EverStrands(Before(acts), from) || Strands(After(Before(acts)), After(acts), from))
  }

  /** The sender no longer writes WebSocket frames and none is on its way. */
  predicate Quiet(s: System, from: Side) {
    End(s, from).bridge.phase != Bridge.Relay && InFlight(From(s, from)) == []
  }

  /** Whenever the receiver left its drain, the sender's WebSocket path was quiet. */
  ghost predicate DrainsFully(acts: seq<Action>, from: Side)
    requires Legal(acts)
    decreases |acts|
  {
    acts != [] ==>
      && DrainsFully(Before(acts), from)
      && (LeavesDrain(After(Before(acts)), After(acts), Peer(from)) ==> Quiet(After(Before(acts)), from))
  }

  /** Either the receiver has written WebSocket bytes only, or no WebSocket byte can follow. */
  ghost predicate Ordered(s: System, from: Side) {
    Quiet(s, from) || End(s, Peer(from)).bridge.tcpOut <= Flat(End(s, Peer(from)).bridge.wsIn)
  }

  lemma PastRelay(b: Bridge.State, e: Bridge.Event)
    requires Bridge.Polls(b.phase, e) && b.phase != Bridge.Relay
    ensures Bridge.Step(b, e).phase != Bridge.Relay && Bridge.Step(b, e).wsOut == b.wsOut
  {
  }

  lemma QuietStays(s: System, a: Action, from: Side)
    requires Enabled(s, a) && Quiet(s, from)
    ensures Quiet(Apply(s, a), from)
  {
    assert From(s, from).up == [] && From(s, from).queue == [] && From(s, from).down == [];
    if a.Arm? && a.side == from {
      PastRelay(End(s, from).bridge, a.event);
    }
  }

  /** What one step does to the WebSocket path. */
  lemma PathStep(s: System, a: Action, from: Side)
    requires Enabled(s, a)
    ensures var w, w', b, b' := From(s, from), From(Apply(s, a), from),
                               End(s, from).bridge, End(Apply(s, a), from).bridge;
      && (InFlight(w) == [] && b'.wsOut == b.wsOut ==> InFlight(w') == [])
      && (b'.wsOut != b.wsOut ==> InFlight(w') != [])
      && w.dropped <= w'.dropped
  {
    if a.Arm? {
      ArmPath(s, a.side, a.event, from);
    }
  }

  lemma ArmPath(s: System, side: Side, e: Bridge.Event, from: Side)
    requires Enabled(s, Arm(side, e))
    ensures var s' := Apply(s, Arm(side, e));
      && From(s', from).dropped == From(s, from).dropped
      && (side != from ==> From(s', from).up == From(s, from).up && From(s', from).queue == From(s, from).queue)
      && (side != from && !e.WsBinary? ==> From(s', from).down == From(s, from).down)
      && (side != from ==> End(s', from).bridge == End(s, from).bridge)
      && (side == from ==> From(s', from).down == From(s, from).down && From(s', from).queue == From(s, from).queue)
      && (side == from && End(s', from).bridge.wsOut == End(s, from).bridge.wsOut ==>
            From(s', from).up == From(s, from).up)
      && (side == from && End(s', from).bridge.wsOut != End(s, from).bridge.wsOut ==> From(s', from).up != [])
      && (e.WsBinary? && side != from ==> From(s, from).down != [] && From(s', from).down == From(s, from).down[1..])
  {
  }

  /** A receiver that stays on relay and drain, or closes from there, writes WebSocket bytes only. */
  lemma EarlyOutput(b: Bridge.State, e: Bridge.Event)
    requires Bridge.Inv(b) && Bridge.Polls(b.phase, e) && b.phase in {Bridge.Relay, Bridge.Drain}
    ensures Bridge.Step(b, e).tcpOut <= Flat(Bridge.Step(b, e).wsIn)
    ensures Bridge.Step(b, e).phase in {Bridge.Relay, Bridge.Drain, Bridge.FlushTcp, Bridge.Closed}
  {
    assert b.tcpOut + [] == b.tcpOut && Flat(b.wsIn) + [] == Flat(b.wsIn);
    if e.WsBinary? {
      FlatSnoc(b.wsIn, e.frame);
    }
  }

  /** A sender still relaying has sent nothing on QUIC, so its peer wrote WebSocket bytes only. */
  lemma RelayingSender(s: System, from: Side)
    requires Inv(s) && End(s, from).bridge.phase == Bridge.Relay
    ensures Ordered(s, from)
  {
    QuicPrefix(s, from);
    var b := End(s, Peer(from)).bridge;
    assert b.quicIn == [];
    assert Flat(b.wsIn) + [] == Flat(b.wsIn);
  }

  /** A live receiver past its drain moves on or closes, and touches no frame. */
  lemma PastDrainArm(s: System, a: Action, from: Side)
    requires Enabled(s, a) && PastDrain(s, Peer(from)) && InFlight(From(s, from)) == []
    requires !Strands(s, Apply(s, a), from)
    ensures InFlight(From(Apply(s, a), from)) == []
  {
    PathStep(s, a, from);
  }

  lemma LeavingDrain(s: System, a: Action, from: Side)
    requires Enabled(s, a) && !PastDrain(s, Peer(from)) && PastDrain(Apply(s, a), Peer(from))
    ensures LeavesDrain(s, Apply(s, a), Peer(from)) && InFlight(From(Apply(s, a), from)) == InFlight(From(s, from))
    ensures End(Apply(s, a), from).bridge == End(s, from).bridge
  {
    if a.Arm? && a.side == Peer(from) {
      ArmMovesBridge(s, Peer(from), a.event);
      ArmPath(s, Peer(from), a.event, from);
    } else {
      OthersKeepReceiver(s, a, Peer(from));
    }
  }

  lemma OrderedStep(s: System, a: Action, from: Side)
    requires Inv(s) && Enabled(s, a) && Ordered(s, from) && Inv(Apply(s, a))
    requires PastDrain(s, Peer(from)) ==> InFlight(From(s, from)) == []
    requires !Strands(s, Apply(s, a), from)
    ensures Ordered(Apply(s, a), from)
    ensures PastDrain(Apply(s, a), Peer(from)) ==> InFlight(From(Apply(s, a), from)) == []
  {
    if PastDrain(s, Peer(from)) {
      PastDrainArm(s, a, from);
    } else if PastDrain(Apply(s, a), Peer(from)) {
      LeavingDrain(s, a, from);
    }
    if End(Apply(s, a), from).bridge.phase == Bridge.Relay {
      RelayingSender(Apply(s, a), from);
    } else if InFlight(From(Apply(s, a), from)) != [] {
      StillEarly(s, a, from);
    }
  }

  lemma StillEarly(s: System, a: Action, from: Side)
    requires Inv(s) && Enabled(s, a) && Ordered(s, from) && !PastDrain(s, Peer(from))
    requires InFlight(From(Apply(s, a), from)) != []
    ensures Ordered(Apply(s, a), from)
  {
    if Quiet(s, from) {
      QuietStays(s, a, from);
    } else if a.Arm? && a.side == Peer(from) {
      EarlyOutput(End(s, Peer(from)).bridge, a.event);
      ArmMovesBridge(s, Peer(from), a.event);
    } else {
      OthersKeepReceiver(s, a, Peer(from));
    }
  }

  lemma ArmMovesBridge(s: System, side: Side, e: Bridge.Event)
    requires Enabled(s, Arm(side, e))
    ensures End(Apply(s, Arm(side, e)), side).bridge == Bridge.Step(End(s, side).bridge, e)
  {
  }

  lemma OthersKeepReceiver(s: System, a: Action, side: Side)
    requires Enabled(s, a) && !(a.Arm? && a.side == side)
    ensures End(Apply(s, a), side).bridge == End(s, side).bridge
  {
  }

  lemma {:induction false} OrderedRun(acts: seq<Action>, from: Side)
    requires Legal(acts) && !EverStrands(acts, from)
    ensures Ordered(After(acts), from)
    ensures PastDrain(After(acts), Peer(from)) ==> InFlight(From(After(acts), from)) == []
  {
    if acts != [] {
      OrderedRun(Before(acts), from);
      RunInv(Before(acts));
      RunInv(acts);
      OrderedStep(After(Before(acts)), Last(acts), from);
    }
  }

  /** Leaving the drain only on a quiet path strands nothing. */
  lemma {:induction false} FullDrainStrandsNothing(acts: seq<Action>, from: Side)
    requires Legal(acts) && DrainsFully(acts, from)
    ensures !EverStrands(acts, from)
    ensures PastDrain(After(acts), Peer(from)) ==> Quiet(After(acts), from)
  {
    if acts != [] {
      FullDrainStrandsNothing(Before(acts), from);
      var s, a := After(Before(acts)), Last(acts);
      if Quiet(s, from) {
        QuietStays(s, a, from);
        PathStep(s, a, from);
      } else if PastDrain(After(acts), Peer(from)) {
        LeavingDrain(s, a, from);
      }
    }
  }

  /** With nothing dropped, received frames plus frames in flight are the frames sent. */
  lemma NothingDropped(s: System, from: Side)
    requires Inv(s) && From(s, from).dropped == 0
    ensures Flat(End(s, Peer(from)).bridge.wsIn) + Flat(InFlight(From(s, from))) == Flat(End(s, from).bridge.wsOut)
  {
    var a, b, w := End(s, from).bridge, End(s, Peer(from)).bridge, From(s, from);
    SubsequenceFlat(Carried(b, w), a.wsOut);
    SubsequenceLength(Flat(Carried(b, w)), Flat(a.wsOut));
    FlatConcat(b.wsIn, InFlight(w));
  }

  lemma StreamPrefixes(a: Bridge.State, b: Bridge.State)
    requires Bridge.Inv(a) && Bridge.Inv(b)
    ensures b.tcpOut <= Flat(b.wsIn) + b.quicIn
    ensures Flat(a.wsOut) <= a.tcpIn && Flat(a.wsOut) + a.quicOut <= a.tcpIn
  {
  }

  lemma PrefixThrough(out: seq<Byte>, ws: seq<Byte>, p: seq<Byte>, q: seq<Byte>, input: seq<Byte>)
    requires out <= ws + p && p <= q && ws + q <= input
    ensures out <= input
  {
  }

  lemma PrefixFromOrder(s: System, from: Side)
    requires Inv(s) && Ordered(s, from) && From(s, from).dropped == 0
    ensures End(s, Peer(from)).bridge.tcpOut <= End(s, from).bridge.tcpIn
  {
    NothingDropped(s, from);
    var a, b := End(s, from).bridge, End(s, Peer(from)).bridge;
    StreamPrefixes(a, b);
    if Quiet(s, from) {
      QuicPrefix(s, from);
      QuietPath(s, from);
      PrefixThrough(b.tcpOut, Flat(a.wsOut), b.quicIn, a.quicOut, a.tcpIn);
    } else {
      PrefixThrough(b.tcpOut, [], Flat(b.wsIn), Flat(a.wsOut), a.tcpIn);
    }
  }

  lemma QuietPath(s: System, from: Side)
    requires Inv(s) && Quiet(s, from) && From(s, from).dropped == 0
    ensures Flat(End(s, Peer(from)).bridge.wsIn) == Flat(End(s, from).bridge.wsOut)
  {
    NothingDropped(s, from);
  }

  /** Lossless order: if the relay dropped nothing and no step stranded a frame, the output
      is a prefix of the input, at every moment and in every phase. */
  lemma OutputIsPrefix(acts: seq<Action>, from: Side)
    requires Legal(acts) && !EverStrands(acts, from) && From(After(acts), from).dropped == 0
    ensures End(After(acts), Peer(from)).bridge.tcpOut <= End(After(acts), from).bridge.tcpIn
  {
    RunInv(acts);
    OrderedRun(acts, from);
    PrefixFromOrder(After(acts), from);
  }

  /** Both bridges live, no side buffer in use, nothing left on the QUIC stream. */
  predicate Settled(s: System, from: Side) {
    && End(s, from).bridge.phase != Bridge.Closed && End(s, Peer(from)).bridge.phase != Bridge.Closed
    && End(s, from).bridge.tcpOutboundBuffer == [] && End(s, Peer(from)).bridge.quicBuffer == []
    && From(s, from).quic == []
  }

  lemma SettledQuic(s: System, from: Side)
    requires Inv(s) && From(s, from).quic == []
    ensures End(s, Peer(from)).bridge.quicIn == End(s, from).bridge.quicOut
  {
    var src, dst := End(s, from), End(s, Peer(from));
    QuicPrefix(s, from);
    assert |dst.shakeIn| + |dst.bridge.quicIn| == |src.shakeOut| + |src.bridge.quicOut|;
  }

  lemma SettledBalance(s: System, from: Side)
    requires Inv(s) && Settled(s, from)
    ensures var sent, got, w := End(s, from).bridge, End(s, Peer(from)).bridge, From(s, from);
            && |sent.tcpIn| == |got.tcpOut| + |Flat(InFlight(w))| + w.dropped
            && (w.dropped == 0 && Flat(InFlight(w)) == [] ==> got.tcpOut == sent.tcpIn)
  {
    SettledQuic(s, from);
    var a, b, w := End(s, from).bridge, End(s, Peer(from)).bridge, From(s, from);
    FlatConcat(b.wsIn, InFlight(w));
    assert a.tcpIn == Flat(a.wsOut) + a.quicOut && Flat(b.wsIn) + b.quicIn == b.tcpOut;
    if w.dropped == 0 && Flat(InFlight(w)) == [] {
      NothingDropped(s, from);
      assert Flat(b.wsIn) == Flat(a.wsOut);
    }
  }

  /** Exactly when a settled swap lost nothing: the missing bytes are the ones the relay
      dropped and the ones stranded on the WebSocket path, no more and no fewer. */
  lemma LosslessIff(acts: seq<Action>, from: Side)
    requires Legal(acts) && Settled(After(acts), from)
    ensures var sent, got, w := End(After(acts), from).bridge, End(After(acts), Peer(from)).bridge,
                                 From(After(acts), from);
            && |sent.tcpIn| == |got.tcpOut| + |Flat(InFlight(w))| + w.dropped
            && (got.tcpOut == sent.tcpIn <==> w.dropped == 0 && Flat(InFlight(w)) == [])
  {
    RunInv(acts);
    SettledBalance(After(acts), from);
  }

  // ---------------------------------------------------------------- the exact condition

  predicate OnPath(w: Wire, f: seq<Byte>) {
    f in w.down || f in w.queue || f in w.up
  }

  /** No empty frame is ever on its way. */
  ghost predicate FullPath(w: Wire) {
    forall f | OnPath(w, f) :: f != []
  }

  lemma FullFlat(w: Wire)
    requires FullPath(w) && InFlight(w) != []
    ensures Flat(InFlight(w)) != []
  {
    assert OnPath(w, InFlight(w)[0]);
  }

  lemma RelayFrames(s: System, a: Action, from: Side, f: seq<Byte>)
    requires Enabled(s, a) && !a.Arm? && OnPath(From(Apply(s, a), from), f)
    ensures OnPath(From(s, from), f)
  {
    var w := From(s, from);
    assert w.up != [] ==> w.up[0] in w.up;
    assert w.queue != [] ==> w.queue[0] in w.queue;
  }

  lemma ArmFrames(s: System, side: Side, e: Bridge.Event, from: Side, f: seq<Byte>)
    requires Enabled(s, Arm(side, e)) && OnPath(From(Apply(s, Arm(side, e)), from), f)
    ensures OnPath(From(s, from), f) || f != []
  {
    if side == from {
      SentFrames(s, from, e);
    } else {
      ArmPath(s, side, e, from);
    }
  }

  lemma FullStep(s: System, a: Action, from: Side)
    requires Enabled(s, a) && FullPath(From(s, from))
    ensures FullPath(From(Apply(s, a), from))
  {
    forall f | OnPath(From(Apply(s, a), from), f) ensures f != [] {
      if a.Arm? { ArmFrames(s, a.side, a.event, from, f); } else { RelayFrames(s, a, from, f); }
    }
  }

  /** A bridge sends at most one frame a step, and no empty one. */
  lemma SentFrames(s: System, from: Side, e: Bridge.Event)
    requires Enabled(s, Arm(from, e))
    ensures var w, w' := From(s, from), From(Apply(s, Arm(from, e)), from);
      w'.down == w.down && w'.queue == w.queue &&
      (w'.up == w.up || (e.TcpData? && e.tcp != [] && w'.up == w.up + [e.tcp]))
  {
  }

  lemma {:induction false} FullRun(acts: seq<Action>, from: Side)
    requires Legal(acts)
    ensures FullPath(From(After(acts), from))
  {
    if acts != [] {
      FullRun(Before(acts), from);
      FullStep(After(Before(acts)), Last(acts), from);
    }
  }

  /** Behind a receiver past its drain no frame leaves the path but by being dropped. */
  lemma PastDrainKeeps(s: System, a: Action, from: Side)
    requires Enabled(s, a) && PastDrain(s, Peer(from)) && FullPath(From(s, from))
    requires From(Apply(s, a), from).dropped == From(s, from).dropped
    ensures InFlight(From(Apply(s, a), from)) == [] ==> InFlight(From(s, from)) == []
  {
    var w := From(s, from);
    if a.Arm? {
      ArmPath(s, a.side, a.event, from);
    } else if w.up != [] {
      assert OnPath(w, w.up[0]);
    }
  }

  /** So there they pile up exactly when one was stranded. */
  lemma {:induction false} StrandedIffInFlight(acts: seq<Action>, from: Side)
    requires Legal(acts) && From(After(acts), from).dropped == 0
    ensures PastDrain(After(acts), Peer(from)) ==>
              (InFlight(From(After(acts), from)) != [] <==> EverStrands(acts, from))
    ensures End(After(acts), Peer(from)).bridge.phase in {Bridge.Relay, Bridge.Drain} ==> !EverStrands(acts, from)
  {
    if acts != [] {
      var s, a := After(Before(acts)), Last(acts);
      PathStep(s, a, from);
      StrandedIffInFlight(Before(acts), from);
      if PastDrain(s, Peer(from)) {
        FullRun(Before(acts), from);
        PastDrainKeeps(s, a, from);
      } else if PastDrain(After(acts), Peer(from)) {
        LeavingDrain(s, a, from);
      }
      PhasesAdvance(s, a, Peer(from));
    }
  }

  lemma PhasesAdvance(s: System, a: Action, side: Side)
    requires Enabled(s, a)
    ensures var p, q := End(s, side).bridge.phase, End(Apply(s, a), side).bridge.phase;
      && (q in {Bridge.Relay, Bridge.Drain} ==> p in {Bridge.Relay, Bridge.Drain})
      && (q in {Bridge.FlushTcp, Bridge.FlushQuic, Bridge.Direct} ==> p != Bridge.Closed && p != Bridge.Relay)
  {
    if a.Arm? && a.side == side {
      ArmMovesBridge(s, side, a.event);
    } else {
      OthersKeepReceiver(s, a, side);
    }
  }

  /** The exact condition of a lossless swap, at the branch that can fail: a settled receiver
      past its drain got everything if and only if the relay dropped nothing, the drain was
      left with no frame on its way, and no frame was sent after that. */
  lemma LosslessIffNoneStranded(acts: seq<Action>, from: Side)
    requires Legal(acts) && Settled(After(acts), from) && PastDrain(After(acts), Peer(from))
    ensures End(After(acts), Peer(from)).bridge.tcpOut == End(After(acts), from).bridge.tcpIn <==>
              From(After(acts), from).dropped == 0 && !EverStrands(acts, from)
  {
    LosslessIff(acts, from);
    if From(After(acts), from).dropped == 0 {
      FullRun(acts, from);
      StrandedIffInFlight(acts, from);
      if InFlight(From(After(acts), from)) != [] {
        FullFlat(From(After(acts), from));
      }
    }
  }

  // ---------------------------------------------------------------- a run that loses a byte

  lemma Extend(acts: seq<Action>, a: Action) returns (acts': seq<Action>)
    requires Legal(acts) && Enabled(After(acts), a)
    ensures Legal(acts') && After(acts') == Apply(After(acts), a) && acts <= acts'
  {
    acts' := acts + [a];
    assert Before(acts') == acts;
  }

  lemma FirstByteRun() returns (acts: seq<Action>)
    ensures Legal(acts)
    ensures After(acts) == INIT.(joiner := IDLE_END.(bridge := Bridge.START.(tcpIn := [1], wsOut := [[1]])),
                                 toHost := EMPTY_WIRE.(up := [[1]]))
  {
    acts := Extend([], Arm(Joiner, Bridge.TcpData([1], Bridge.Sent)));
  }

  lemma HalfHandshakeRun() returns (acts: seq<Action>)
    ensures Legal(acts)
    ensures After(acts) == System(
              Endpoint(Bridge.START.(tcpIn := [1], wsOut := [[1]]), Half, [SWAP_READY], []),
              Endpoint(Bridge.START, Half, [], [SWAP_READY]),
              EMPTY_WIRE.(up := [[1]]), EMPTY_WIRE)
  {
    acts := FirstByteRun();
    acts := Extend(acts, SendReady);
    acts := Extend(acts, ReadReady);
  }

  /** The joiner sends a byte on the relay, then both handshakes succeed. */
  lemma HandshakeRun() returns (acts: seq<Action>)
    ensures Legal(acts)
    ensures After(acts) == System(
              Endpoint(Bridge.START.(tcpIn := [1], wsOut := [[1]]), Done, [SWAP_READY], [SWAP_ACK]),
              Endpoint(Bridge.START, Done, [SWAP_ACK], [SWAP_READY]),
              EMPTY_WIRE.(up := [[1]]), EMPTY_WIRE)
  {
    acts := HalfHandshakeRun();
    acts := Extend(acts, SendAck);
    acts := Extend(acts, ReadAck);
  }

  /** An arm that neither sends nor receives only changes its own bridge. */
  lemma SilentArm(acts: seq<Action>, side: Side, e: Bridge.Event) returns (acts': seq<Action>)
    requires Legal(acts) && Enabled(After(acts), Arm(side, e)) && !e.WsBinary? && !e.QuicData?
    requires var b := End(After(acts), side).bridge;
             Bridge.Step(b, e).wsOut == b.wsOut && Bridge.Step(b, e).quicOut == b.quicOut
    ensures Legal(acts') && acts <= acts'
    ensures var me := End(After(acts), side);
            After(acts') == SetEnd(After(acts), side, me.(bridge := Bridge.Step(me.bridge, e)))
  {
    acts' := Extend(acts, Arm(side, e));
  }

  /** The bridge of one side, moved to another phase and otherwise unchanged. */
  function InPhase(s: System, side: Side, p: Bridge.Phase): System {
    SetEnd(s, side, End(s, side).(bridge := End(s, side).bridge.(phase := p)))
  }

  lemma DrainNothing(acts: seq<Action>, side: Side) returns (acts': seq<Action>)
    requires Legal(acts) && End(After(acts), side).shake == Done
    requires End(After(acts), side).bridge.phase == Bridge.Relay
    ensures Legal(acts') && acts <= acts' && After(acts') == InPhase(After(acts), side, Bridge.FlushTcp)
  {
    acts' := SilentArm(acts, side, Bridge.SwapReady);
    acts' := SilentArm(acts', side, Bridge.DrainDeadline);
  }

  lemma FlushNothing(acts: seq<Action>, side: Side) returns (acts': seq<Action>)
    requires Legal(acts) && End(After(acts), side).bridge.phase == Bridge.FlushTcp
    requires End(After(acts), side).bridge.quicBuffer == [] && End(After(acts), side).bridge.tcpOutboundBuffer == []
    ensures Legal(acts') && acts <= acts' && After(acts') == InPhase(After(acts), side, Bridge.Direct)
  {
    acts' := SilentArm(acts, side, Bridge.Flushed(Bridge.Sent));
    acts' := SilentArm(acts', side, Bridge.Flushed(Bridge.Sent));
  }

  /** Both sides swap and let their drain deadlines pass with the joiner's frame in flight. */
  lemma EarlySwapRun() returns (acts: seq<Action>)
    ensures Legal(acts)
    ensures After(acts) == System(
              Endpoint(Bridge.START.(phase := Bridge.Direct, tcpIn := [1], wsOut := [[1]]), Done,
                       [SWAP_READY], [SWAP_ACK]),
              Endpoint(Bridge.START.(phase := Bridge.Direct), Done, [SWAP_ACK], [SWAP_READY]),
              EMPTY_WIRE.(up := [[1]]), EMPTY_WIRE)
  {
    acts := HandshakeRun();
    acts := DrainNothing(acts, Host);
    acts := FlushNothing(acts, Host);
    acts := DrainNothing(acts, Joiner);
    acts := FlushNothing(acts, Joiner);
  }

  lemma LateByteRun() returns (acts: seq<Action>)
    ensures Legal(acts)
    ensures After(acts) == System(
              Endpoint(Bridge.START.(phase := Bridge.Direct, tcpIn := [1, 2], wsOut := [[1]], quicOut := [2]),
                       Done, [SWAP_READY], [SWAP_ACK]),
              Endpoint(Bridge.START.(phase := Bridge.Direct), Done, [SWAP_ACK], [SWAP_READY]),
              EMPTY_WIRE.(up := [[1]], quic := [2]), EMPTY_WIRE)
  {
    acts := EarlySwapRun();
    acts := Extend(acts, Arm(Joiner, Bridge.TcpData([2], Bridge.Sent)));
  }

  /** The unconditional claim is false: the drain deadline can pass while a frame is still
      on its way, and then a later byte is delivered without the earlier one. */
  lemma PrefixCanFail() returns (acts: seq<Action>)
    ensures Legal(acts) && Settled(After(acts), Joiner) && After(acts).toHost.dropped == 0
    ensures After(acts).joiner.bridge.tcpIn == [1, 2] && After(acts).host.bridge.tcpOut == [2]
  {
    acts := LateByteRun();
    acts := Extend(acts, Arm(Host, Bridge.QuicData([2], Bridge.Sent)));
  }
}
