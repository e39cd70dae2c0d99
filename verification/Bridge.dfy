/** The client's TCP bridge: it starts on the WebSocket relay and may move the live
    game to a QUIC stream (relay, drain with two side buffers, flush, direct). */
module Bridge {
  import opened Basics

  const RELAY_BUF_SIZE := 8192

  datatype Phase = Relay | Drain | FlushTcp | FlushQuic | Direct | Closed

  /** A write sends everything, or breaks after `out` bytes. */
  datatype Write = Sent | Broke(out: nat)

  /** What one completed `select!` arm (or one flush) observed. */
  datatype Event =
    | TcpData(tcp: seq<Byte>, forwarded: Write)
    | TcpEof
    | TcpError
    | WsBinary(frame: seq<Byte>, delivered: Write)
    | WsControl               // Ping, Pong, Text
    | WsClosed                // Close frame, receive error or end of stream
    | SwapReady
    | SwapAbandoned           // the background QUIC task ended without a stream
    | PingTick
    | QuicData(chunk: seq<Byte>, written: Write)
    | QuicClosed
    | DrainDeadline
    | Flushed(flush: Write)

  /** The bridge, with every byte it has moved on each of its four streams. */
  datatype State = State(
    phase: Phase,
    tcpIn: seq<Byte>,         // read from the local TCP connection
    wsOut: seq<seq<Byte>>,    // Binary frames sent to the relay
    quicOut: seq<Byte>,
    wsIn: seq<seq<Byte>>,     // Binary frames received from the relay
    quicIn: seq<Byte>,
    tcpOut: seq<Byte>,        // written to the local TCP connection
    quicBuffer: seq<Byte>,
    tcpOutboundBuffer: seq<Byte>)

  const START := State(Relay, [], [], [], [], [], [], [], [])

  function Written(data: seq<Byte>, w: Write): (r: seq<Byte>)
    ensures r <= data
    ensures |r| == if w.Broke? && w.out < |data| then w.out else |data|
  {
    if w.Sent? || w.out >= |data| then data else data[..w.out]
  }

  /** Which arms are polled in which phase; reads return 1..=RELAY_BUF_SIZE bytes. */
  predicate Polls(phase: Phase, e: Event) {
    match e
    case TcpData(d, _) => phase in {Relay, Drain, Direct} && 0 < |d| <= RELAY_BUF_SIZE
    case TcpEof => phase in {Relay, Drain, Direct}
    case TcpError => phase in {Relay, Drain, Direct}
    case WsBinary(_, _) => phase in {Relay, Drain}
    case WsControl => phase in {Relay, Drain}
    case WsClosed => phase in {Relay, Drain}
    case SwapReady => phase == Relay
    case SwapAbandoned => phase == Relay
    case PingTick => phase == Relay
    case QuicData(d, _) => phase in {Drain, Direct} && 0 < |d| <= RELAY_BUF_SIZE
    case QuicClosed => phase in {Drain, Direct}
    case DrainDeadline => phase == Drain
    case Flushed(_) => phase in {FlushTcp, FlushQuic}
  }

  /** A failing write ends the bridge; a frame only counts as sent when it went out whole. */
  function Step(b: State, e: Event): State
    requires Polls(b.phase, e)
  {
    match e
    case TcpData(d, w) =>
      var read := b.(tcpIn := b.tcpIn + d);
      if b.phase == Drain then
        read.(tcpOutboundBuffer := b.tcpOutboundBuffer + d)
      else if b.phase == Relay then
        read.(wsOut := if Written(d, w) == d then b.wsOut + [d] else b.wsOut,
              phase := if w.Sent? then Relay else Closed)
      else
        read.(quicOut := b.quicOut + Written(d, w), phase := if w.Sent? then Direct else Closed)
    case TcpEof => b.(phase := if b.phase == Drain then FlushTcp else Closed)
    case TcpError => b.(phase := if b.phase == Drain then FlushTcp else Closed)
    case WsBinary(d, w) =>
      b.(wsIn := b.wsIn + [d], tcpOut := b.tcpOut + Written(d, w),
         phase := if w.Sent? then b.phase else Closed)
    case WsControl => b.(phase := if b.phase == Drain then FlushTcp else Relay)
    case WsClosed => b.(phase := if b.phase == Drain then FlushTcp else Closed)
    case SwapReady => b.(phase := Drain)
    case SwapAbandoned => b
    case PingTick => b
    case QuicData(d, w) =>
      var read := b.(quicIn := b.quicIn + d);
      if b.phase == Drain then
        read.(quicBuffer := b.quicBuffer + d)
      else
        read.(tcpOut := b.tcpOut + Written(d, w), phase := if w.Sent? then Direct else Closed)
    case QuicClosed => b.(phase := Closed)
    case DrainDeadline => b.(phase := FlushTcp)
    case Flushed(w) =>
      if b.phase == FlushTcp then
        b.(tcpOut := b.tcpOut + Written(b.quicBuffer, w), quicBuffer := [],
           phase := if w.Sent? || b.quicBuffer == [] then FlushQuic else Closed)
      else
        b.(quicOut := b.quicOut + Written(b.tcpOutboundBuffer, w), tcpOutboundBuffer := [],
           phase := if w.Sent? || b.tcpOutboundBuffer == [] then Direct else Closed)
  }

  /** The streams of a live bridge balance exactly; a closed one has only lost tails. */
  ghost predicate Conserves(b: State) {
    if b.phase == Closed then
      && Flat(b.wsOut) + b.quicOut <= b.tcpIn
      && b.tcpOut <= Flat(b.wsIn) + b.quicIn
    else
      && b.tcpIn == Flat(b.wsOut) + b.quicOut + b.tcpOutboundBuffer
      && Flat(b.wsIn) + b.quicIn == b.tcpOut + b.quicBuffer
  }

  /** Conservation together with what each phase still keeps apart. */
  ghost predicate Inv(b: State) {
    && Conserves(b)
    && (b.phase == Relay ==> b.quicIn == [] && b.quicOut == [] && b.tcpOutboundBuffer == [])
    && (b.phase in {Drain, FlushTcp} ==> b.tcpOut == Flat(b.wsIn) && b.quicBuffer == b.quicIn)
    && (b.phase in {Drain, FlushTcp, FlushQuic} ==> b.quicOut == [])
    && (b.phase in {Relay, FlushQuic, Direct} ==> b.quicBuffer == [])
    && (b.phase == Direct ==> b.tcpOutboundBuffer == [])
  }

  lemma RelayStepInv(b: State, e: Event)
    requires Inv(b) && Polls(b.phase, e) && b.phase == Relay
    ensures Inv(Step(b, e))
  {
    assert b.tcpIn == Flat(b.wsOut) && Flat(b.wsIn) == b.tcpOut by {
      assert Flat(b.wsOut) + b.quicOut + b.tcpOutboundBuffer == Flat(b.wsOut);
      assert Flat(b.wsIn) + b.quicIn == Flat(b.wsIn) && b.tcpOut + b.quicBuffer == b.tcpOut;
    }
    if e.TcpData? {
      FlatSnoc(b.wsOut, e.tcp);
    } else if e.WsBinary? {
      FlatSnoc(b.wsIn, e.frame);
    }
  }

  lemma DrainStepInv(b: State, e: Event)
    requires Inv(b) && Polls(b.phase, e) && b.phase == Drain
    ensures Inv(Step(b, e))
  {
    if e.WsBinary? {
      FlatSnoc(b.wsIn, e.frame);
    } else if e.TcpData? {
      assert b.tcpIn == Flat(b.wsOut) + b.quicOut + b.tcpOutboundBuffer;
    }
  }

  lemma FlushStepInv(b: State, e: Event)
    requires Inv(b) && Polls(b.phase, e) && b.phase in {FlushTcp, FlushQuic}
    ensures Inv(Step(b, e))
  {
    if b.phase == FlushTcp {
      assert Flat(b.wsIn) + b.quicIn == b.tcpOut + b.quicBuffer;
    } else {
      assert b.tcpIn == Flat(b.wsOut) + (b.quicOut + b.tcpOutboundBuffer);
    }
  }

  lemma DirectStepInv(b: State, e: Event)
    requires Inv(b) && Polls(b.phase, e) && b.phase == Direct
    ensures Inv(Step(b, e))
  {
    assert b.tcpIn == Flat(b.wsOut) + b.quicOut && Flat(b.wsIn) + b.quicIn == b.tcpOut;
    if e.TcpData? {
      assert b.tcpIn + e.tcp == Flat(b.wsOut) + (b.quicOut + e.tcp);
    } else if e.QuicData? {
      assert Flat(b.wsIn) + (b.quicIn + e.chunk) == b.tcpOut + e.chunk;
    }
  }

  lemma StepInv(b: State, e: Event)
    requires Inv(b) && Polls(b.phase, e)
    ensures Inv(Step(b, e))
  {
    if b.phase == Relay { RelayStepInv(b, e); }
    else if b.phase == Drain { DrainStepInv(b, e); }
    else if b.phase == Direct { DirectStepInv(b, e); }
    else { FlushStepInv(b, e); }
  }

  /** A run: every event is one its phase polls. */
  predicate Legal(es: seq<Event>)
    decreases |es|, 0
  {
    es == [] || (Legal(es[..|es| - 1]) && Polls(Run(es[..|es| - 1]).phase, es[|es| - 1]))
  }

  function Run(es: seq<Event>): State
    requires Legal(es)
    decreases |es|, 1
  {
    if es == [] then START else Step(Run(es[..|es| - 1]), es[|es| - 1])
  }

  /** Conservation at every point of every run, so no QUIC byte reaches TCP ahead of a
      WebSocket byte and nothing read from TCP is sent twice or out of order. */
  lemma {:induction false} RunConserves(es: seq<Event>)
    requires Legal(es)
    ensures Inv(Run(es))
    ensures Run(es).tcpOut <= Flat(Run(es).wsIn) + Run(es).quicIn
    ensures Flat(Run(es).wsOut) + Run(es).quicOut <= Run(es).tcpIn
  {
    if es != [] {
      RunConserves(es[..|es| - 1]);
      StepInv(Run(es[..|es| - 1]), es[|es| - 1]);
    }
  }

  lemma {:induction false} LegalPrefix(es: seq<Event>, k: nat)
    requires Legal(es) && k <= |es|
    ensures Legal(es[..k])
  {
    if k == |es| {
      assert es[..k] == es;
    } else {
      LegalPrefix(es[..|es| - 1], k);
      assert es[..|es| - 1][..k] == es[..k];
    }
  }

  /** One more event of a legal run. */
  lemma RunNext(es: seq<Event>, i: nat)
    requires Legal(es) && i < |es|
    ensures Legal(es[..i]) && Legal(es[..i + 1])
    ensures Polls(Run(es[..i]).phase, es[i])
    ensures Run(es[..i + 1]) == Step(Run(es[..i]), es[i])
  {
    LegalPrefix(es, i);
    LegalPrefix(es, i + 1);
    assert es[..i + 1][..i] == es[..i];
  }

  /** bridge_tcp_ws_with_swap: three loops over what `select!` reports, in place. */
  class TcpBridge {
    var phase: Phase
    var tcpIn: seq<Byte>
    var wsOut: seq<seq<Byte>>
    var quicOut: seq<Byte>
    var wsIn: seq<seq<Byte>>
    var quicIn: seq<Byte>
    var tcpOut: seq<Byte>
    var quicBuffer: seq<Byte>
    var tcpOutboundBuffer: seq<Byte>

    function View(): State
      reads this
    {
      State(phase, tcpIn, wsOut, quicOut, wsIn, quicIn, tcpOut, quicBuffer, tcpOutboundBuffer)
    }

    constructor ()
      ensures View() == START
    {
      phase := Relay;
      tcpIn, wsOut, quicOut, wsIn, quicIn, tcpOut := [], [], [], [], [], [];
      quicBuffer, tcpOutboundBuffer := [], [];
    }

    /** Write to TCP, reporting whether the whole of `data` went out. */
    method WriteTcp(data: seq<Byte>, w: Write) returns (ok: bool)
      modifies this`tcpOut
      ensures ok == w.Sent? && tcpOut == old(tcpOut) + Written(data, w)
    {
      tcpOut := tcpOut + Written(data, w);
      ok := w.Sent?;
    }

    method WriteQuic(data: seq<Byte>, w: Write) returns (ok: bool)
      modifies this`quicOut
      ensures ok == w.Sent? && quicOut == old(quicOut) + Written(data, w)
    {
      quicOut := quicOut + Written(data, w);
      ok := w.Sent?;
    }

    /** One arm of the first loop. */
    method RelayArm(e: Event)
      requires phase == Relay && Polls(phase, e)
      modifies this
      ensures View() == Step(old(View()), e)
      ensures e.WsControl? || e.PingTick? || e.SwapAbandoned? ==> View() == old(View())
      ensures e.SwapReady? ==> View() == old(View()).(phase := Drain)
      ensures e.TcpEof? || e.TcpError? || e.WsClosed? ==> View() == old(View()).(phase := Closed)
      ensures e.TcpData? && e.forwarded.Sent? ==>
                phase == Relay && wsOut == old(wsOut) + [e.tcp] && tcpOut == old(tcpOut)
      ensures e.WsBinary? && e.delivered.Sent? ==>
                phase == Relay && tcpOut == old(tcpOut) + e.frame && wsOut == old(wsOut)
    {
      match e {
        case TcpData(d, w) =>
          tcpIn := tcpIn + d;
          if Written(d, w) == d { wsOut := wsOut + [d]; }
          if !w.Sent? { phase := Closed; }
        case WsBinary(d, w) =>
          wsIn := wsIn + [d];
          var ok := WriteTcp(d, w);
          if !ok { phase := Closed; }
        case SwapReady => phase := Drain;
        case TcpEof => phase := Closed;
        case TcpError => phase := Closed;
        case WsClosed => phase := Closed;
        case _ =>
      }
    }

    /** One arm of the drain loop. */
    method DrainArm(e: Event)
      requires phase == Drain && Polls(phase, e)
      modifies this
      ensures View() == Step(old(View()), e)
    {
      if e.WsBinary? {
        wsIn := wsIn + [e.frame];
        var ok := WriteTcp(e.frame, e.delivered);
        if !ok { phase := Closed; }
      } else if e.QuicData? {
        quicIn := quicIn + e.chunk;
        quicBuffer := quicBuffer + e.chunk;
      } else if e.QuicClosed? {
        phase := Closed;
      } else if e.TcpData? {
        tcpIn := tcpIn + e.tcp;
        tcpOutboundBuffer := tcpOutboundBuffer + e.tcp;
      } else {
        phase := FlushTcp;
      }
    }

    /** One arm of the direct loop. */
    method DirectArm(e: Event)
      requires phase == Direct && Polls(phase, e)
      modifies this
      ensures View() == Step(old(View()), e)
    {
      if e.TcpData? {
        tcpIn := tcpIn + e.tcp;
        var ok := WriteQuic(e.tcp, e.forwarded);
        if !ok { phase := Closed; }
      } else if e.QuicData? {
        quicIn := quicIn + e.chunk;
        var ok := WriteTcp(e.chunk, e.written);
        if !ok { phase := Closed; }
      } else {
        phase := Closed;
      }
    }

    /** Phase 1: TCP <-> WebSocket relay until it ends or a swap arrives. */
    method RelayPhase(es: seq<Event>) returns (i: nat)
      requires Legal(es) && View() == START
      modifies this
      ensures i <= |es| && Legal(es[..i]) && View() == Run(es[..i])
      ensures i == |es| || phase == Drain
    {
      i := 0;
      while i < |es| && phase == Relay
        invariant i <= |es| && Legal(es[..i]) && View() == Run(es[..i])
        invariant phase in {Relay, Drain, Closed}
        decreases |es| - i
      {
        RunNext(es, i);
        RelayArm(es[i]);
        i := i + 1;
      }
      if i < |es| { RunNext(es, i); }
    }

    /** Phase 2: empty the WebSocket into TCP while QUIC and TCP input is set aside. */
    method DrainPhase(es: seq<Event>, from: nat) returns (i: nat)
      requires Legal(es) && from <= |es| && Legal(es[..from]) && View() == Run(es[..from])
      requires from < |es| ==> phase == Drain
      modifies this
      ensures from <= i <= |es| && Legal(es[..i]) && View() == Run(es[..i])
      ensures i == |es| || phase == FlushTcp
    {
      i := from;
      while i < |es| && phase == Drain
        invariant from <= i <= |es| && Legal(es[..i]) && View() == Run(es[..i])
        invariant i < |es| ==> phase in {Drain, FlushTcp, Closed}
        decreases |es| - i
      {
        RunNext(es, i);
        DrainArm(es[i]);
        i := i + 1;
      }
      if i < |es| { RunNext(es, i); }
    }

    /** After the loop: buffered QUIC bytes go to TCP first, */
    method FlushQuicBuffer(w: Write)
      requires phase == FlushTcp
      modifies this
      ensures View() == Step(old(View()), Flushed(w))
    {
      phase := FlushQuic;
      if quicBuffer != [] {
        var ok := WriteTcp(quicBuffer, w);
        quicBuffer := [];
        if !ok { phase := Closed; }
      }
    }

    /** then the TCP bytes read meanwhile go to QUIC. */
    method FlushTcpBuffer(w: Write)
      requires phase == FlushQuic
      modifies this
      ensures View() == Step(old(View()), Flushed(w))
    {
      phase := Direct;
      if tcpOutboundBuffer != [] {
        var ok := WriteQuic(tcpOutboundBuffer, w);
        tcpOutboundBuffer := [];
        if !ok { phase := Closed; }
      }
    }

    method FlushPhase(es: seq<Event>, from: nat) returns (i: nat)
      requires Legal(es) && from <= |es| && Legal(es[..from]) && View() == Run(es[..from])
      requires from < |es| ==> phase == FlushTcp
      modifies this
      ensures from <= i <= |es| && Legal(es[..i]) && View() == Run(es[..i])
      ensures i == |es| || phase == Direct
    {
      i := from;
      if i < |es| {
        RunNext(es, i);
        FlushQuicBuffer(es[i].flush);
        i := i + 1;
        if i < |es| {
          RunNext(es, i);
          FlushTcpBuffer(es[i].flush);
          i := i + 1;
          if i < |es| { RunNext(es, i); }
        }
      }
    }

    /** Phase 3: TCP <-> QUIC. */
    method DirectPhase(es: seq<Event>, from: nat) returns (i: nat)
      requires Legal(es) && from <= |es| && Legal(es[..from]) && View() == Run(es[..from])
      requires from < |es| ==> phase == Direct
      modifies this
      ensures i == |es| && View() == Run(es)
    {
      i := from;
      while i < |es|
        invariant from <= i <= |es| && Legal(es[..i]) && View() == Run(es[..i])
        invariant i < |es| ==> phase in {Direct, Closed}
      {
        RunNext(es, i);
        DirectArm(es[i]);
        i := i + 1;
      }
      assert es[..i] == es;
    }

    /** The whole bridge over everything it observed. */
    method BridgeTcpWsWithSwap(es: seq<Event>)
      requires Legal(es) && View() == START
      modifies this
      ensures View() == Run(es)
      ensures Conserves(View())
    {
      RunConserves(es);
      var i := RelayPhase(es);
      i := DrainPhase(es, i);
      i := FlushPhase(es, i);
      i := DirectPhase(es, i);
    }
  }
}
