/** Where a bridge stands, told from what it observed alone: a bridge leaves a phase exactly
    when something it observed ends that phase, and never for any other reason. */
module BridgePhases {
  import opened Basics
  import opened Bridge

  /** The relay goes on: nothing ended and every write went out whole. */
  predicate KeepsRelaying(e: Event) {
    match e
    case TcpData(_, w) => w.Sent?
    case WsBinary(_, w) => w.Sent?
    case WsControl => true
    case SwapAbandoned => true
    case PingTick => true
    case _ => false
  }

  /** Reads from TCP and QUIC are set aside during the drain, so only a write to TCP can fail. */
  predicate KeepsDraining(e: Event) {
    e.TcpData? || e.QuicData? || (e.WsBinary? && e.delivered.Sent?)
  }

  /** The deadline, the end of TCP, and anything on the WebSocket that is not a frame. */
  predicate EndsDrain(e: Event) {
    e.DrainDeadline? || e.TcpEof? || e.TcpError? || e.WsControl? || e.WsClosed?
  }

  predicate KeepsDirect(e: Event) {
    (e.TcpData? && e.forwarded.Sent?) || (e.QuicData? && e.written.Sent?)
  }

  predicate FlushedWhole(e: Event) {
    e.Flushed? && e.flush.Sent?
  }

  function Front(es: seq<Event>): seq<Event>
    requires es != []
  {
    es[..|es| - 1]
  }

  function Last(es: seq<Event>): Event
    requires es != []
  {
    es[|es| - 1]
  }

  // --- The language of each phase, over the events alone ---

  predicate InRelay(es: seq<Event>) {
    es == [] || (InRelay(Front(es)) && KeepsRelaying(Last(es)))
  }

  predicate InDrain(es: seq<Event>) {
    es != [] && ((InRelay(Front(es)) && Last(es).SwapReady?) || (InDrain(Front(es)) && KeepsDraining(Last(es))))
  }

  predicate AtFirstFlush(es: seq<Event>) {
    es != [] && InDrain(Front(es)) && EndsDrain(Last(es))
  }

  /** An empty buffer needs no write, so its flush cannot fail. */
  predicate AtSecondFlush(es: seq<Event>) {
    es != [] && AtFirstFlush(Front(es)) && (FlushedWhole(Last(es)) || QuicRead(es) == [])
  }

  predicate InDirect(es: seq<Event>) {
    es != [] &&
    ((AtSecondFlush(Front(es)) && (FlushedWhole(Last(es)) || SetAside(es) == [])) ||
     (InDirect(Front(es)) && KeepsDirect(Last(es))))
  }

  /** Everything read so far, from each side. */
  function TcpRead(es: seq<Event>): seq<Byte> {
    if es == [] then [] else TcpRead(Front(es)) + if Last(es).TcpData? then Last(es).tcp else []
  }

  function QuicRead(es: seq<Event>): seq<Byte> {
    if es == [] then [] else QuicRead(Front(es)) + if Last(es).QuicData? then Last(es).chunk else []
  }

  function WsRead(es: seq<Event>): seq<seq<Byte>> {
    if es == [] then [] else WsRead(Front(es)) + if Last(es).WsBinary? then [Last(es).frame] else []
  }

  /** TCP reads that were sent as frames: those of the relay phase that went out whole. */
  function Framed(es: seq<Event>): seq<seq<Byte>> {
    if es == [] then []
    else
      Framed(Front(es)) +
      if InRelay(Front(es)) && Last(es).TcpData? && Written(Last(es).tcp, Last(es).forwarded) == Last(es).tcp
      then [Last(es).tcp] else []
  }

  /** TCP bytes read during the drain. */
  function SetAside(es: seq<Event>): seq<Byte> {
    if es == [] then []
    else SetAside(Front(es)) + if InDrain(Front(es)) && Last(es).TcpData? then Last(es).tcp else []
  }

  /** What was written to TCP: frames as they come, then all of QUIC; the write that breaks
      leaves its first bytes. */
  function TcpWritten(es: seq<Event>): seq<Byte> {
    if es == [] then []
    else
      var e := Last(es);
      TcpWritten(Front(es)) +
      if e.WsBinary? then Written(e.frame, e.delivered)
      else if e.Flushed? && AtFirstFlush(Front(es)) then Written(QuicRead(es), e.flush)
      else if e.QuicData? && InDirect(Front(es)) then Written(e.chunk, e.written)
      else []
  }

  /** What was written to QUIC: the bytes set aside, then TCP as it comes. */
  function QuicWritten(es: seq<Event>): seq<Byte> {
    if es == [] then []
    else
      var e := Last(es);
      QuicWritten(Front(es)) +
      if e.Flushed? && AtSecondFlush(Front(es)) then Written(SetAside(es), e.flush)
      else if e.TcpData? && InDirect(Front(es)) then Written(e.tcp, e.forwarded)
      else []
  }

  // --- The bridge is where its events say ---

  /** The phase of a run, by the languages; a run in none of them is closed. */
  predicate Located(p: Phase, es: seq<Event>) {
    && (p == Relay <==> InRelay(es))
    && (p == Drain <==> InDrain(es))
    && (p == FlushTcp <==> AtFirstFlush(es))
    && (p == FlushQuic <==> AtSecondFlush(es))
    && (p == Direct <==> InDirect(es))
  }

  /** What was read and written, and what the buffers hold for the coming flushes. */
  ghost predicate Accounted(b: State, es: seq<Event>) {
    && b.tcpOut == TcpWritten(es) && b.quicOut == QuicWritten(es)
    && b.tcpIn == TcpRead(es) && b.quicIn == QuicRead(es) && b.wsIn == WsRead(es) && b.wsOut == Framed(es)
    && (b.phase in {Relay, Drain, FlushTcp} ==> b.quicBuffer == QuicRead(es))
    && (b.phase in {Relay, Drain, FlushTcp, FlushQuic} ==> b.tcpOutboundBuffer == SetAside(es))
  }

  lemma StepLocated(b: State, es: seq<Event>, e: Event)
    requires Located(b.phase, es) && Accounted(b, es) && Polls(b.phase, e)
    ensures Located(Step(b, e).phase, es + [e])
  {
    assert Front(es + [e]) == es;
    if e.Flushed? {
      assert QuicRead(es + [e]) == QuicRead(es) && SetAside(es + [e]) == SetAside(es);
    }
  }

  lemma StepAccounted(b: State, es: seq<Event>, e: Event)
    requires Located(b.phase, es) && Accounted(b, es) && Polls(b.phase, e)
    requires b.phase == Relay ==> b.quicBuffer == [] && b.tcpOutboundBuffer == []
    ensures Accounted(Step(b, e), es + [e])
  {
    assert Front(es + [e]) == es;
    if e.Flushed? {
      FlushAccounted(b, es, e);
    }
  }

  lemma FlushAccounted(b: State, es: seq<Event>, e: Event)
    requires Located(b.phase, es) && Accounted(b, es) && Polls(b.phase, e) && e.Flushed?
    ensures Accounted(Step(b, e), es + [e])
  {
    assert Front(es + [e]) == es;
    assert QuicRead(es + [e]) == QuicRead(es) && SetAside(es + [e]) == SetAside(es);
    assert TcpRead(es + [e]) == TcpRead(es) && WsRead(es + [e]) == WsRead(es) && Framed(es + [e]) == Framed(es);
  }

  /** In every run each phase is entered and left exactly as the events say, and every
      stream carries exactly what the events say. */
  lemma {:induction false} PhaseFromEvents(es: seq<Event>)
    requires Legal(es)
    ensures Located(Run(es).phase, es) && Accounted(Run(es), es)
  {
    if es != [] {
      PhaseFromEvents(Front(es));
      RunConserves(Front(es));
      OneMore(Run(Front(es)), Front(es), Last(es));
      assert Front(es) + [Last(es)] == es;
    }
  }

  lemma OneMore(b: State, es: seq<Event>, e: Event)
    requires Located(b.phase, es) && Accounted(b, es) && Polls(b.phase, e) && Inv(b)
    ensures Located(Step(b, e).phase, es + [e]) && Accounted(Step(b, e), es + [e])
  {
    StepLocated(b, es, e);
    StepAccounted(b, es, e);
  }

  /** TCP is read except between drain and direct copying, the WebSocket until the drain ends,
      QUIC from the swap on. */
  predicate Next(es: seq<Event>, e: Event) {
    match e
    case TcpData(d, _) => (InRelay(es) || InDrain(es) || InDirect(es)) && 1 <= |d| <= 8192
    case TcpEof => InRelay(es) || InDrain(es) || InDirect(es)
    case TcpError => InRelay(es) || InDrain(es) || InDirect(es)
    case WsBinary(_, _) => InRelay(es) || InDrain(es)
    case WsControl => InRelay(es) || InDrain(es)
    case WsClosed => InRelay(es) || InDrain(es)
    case SwapReady => InRelay(es)
    case SwapAbandoned => InRelay(es)
    case PingTick => InRelay(es)
    case QuicData(d, _) => (InDrain(es) || InDirect(es)) && 1 <= |d| <= 8192
    case QuicClosed => InDrain(es) || InDirect(es)
    case DrainDeadline => InDrain(es)
    case Flushed(_) => AtFirstFlush(es) || AtSecondFlush(es)
  }

  /** What can happen next, after any run. */
  lemma NextEvents(es: seq<Event>, e: Event)
    requires Legal(es)
    ensures Legal(es + [e]) <==> Next(es, e)
  {
    PhaseFromEvents(es);
    assert (es + [e])[..|es + [e]| - 1] == es;
  }

  /** An event that can end a bridge. */
  predicate CanClose(e: Event) {
    match e
    case TcpEof => true
    case TcpError => true
    case WsClosed => true
    case QuicClosed => true
    case TcpData(_, w) => w.Broke?
    case WsBinary(_, w) => w.Broke?
    case QuicData(_, w) => w.Broke?
    case Flushed(w) => w.Broke?
    case _ => false
  }

  lemma StaysOpen(b: State, e: Event)
    requires Polls(b.phase, e) && b.phase != Closed && !CanClose(e)
    ensures Step(b, e).phase != Closed
  {
  }

  /** Without such an event the bridge lives on, through a swap or not. */
  lemma {:induction false} NeverClosesUnprompted(es: seq<Event>)
    requires Legal(es) && forall e | e in es :: !CanClose(e)
    ensures Run(es).phase != Closed
  {
    if es != [] {
      assert Last(es) in es;
      assert forall e | e in Front(es) :: e in es;
      NeverClosesUnprompted(Front(es));
      StaysOpen(Run(Front(es)), Last(es));
    }
  }

  lemma {:induction false} RelayIffAllKeep(es: seq<Event>)
    ensures InRelay(es) <==> forall e | e in es :: KeepsRelaying(e)
  {
    if es != [] {
      RelayIffAllKeep(Front(es));
      assert es == Front(es) + [Last(es)];
    }
  }

  /** The bridge is still relaying if and only if all it observed were whole writes, control
      frames, an abandoned swap and pings. */
  lemma StillRelaying(es: seq<Event>)
    requires Legal(es)
    ensures Run(es).phase == Relay <==> forall e | e in es :: KeepsRelaying(e)
  {
    PhaseFromEvents(es);
    RelayIffAllKeep(es);
  }
}
