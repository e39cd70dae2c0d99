/** One direction of the server's tunnel relay: frames read from one WebSocket pass the
    byte limiter, enter the peer's bounded channel and leave on the peer's WebSocket. */
module RelayHop {
  import opened Basics
  import opened Limiter
  import Bridge
  import Swap

  type Frame = seq<Byte>

  datatype Event =
    | Binary(frame: Frame, now: nat, restamp: nat)
    | Forward            // the peer's loop takes a frame from its channel and sends it
    | ReceiverGone       // the peer's loop ended: its channel refuses frames

  datatype Hop = Hop(window: Window, queue: seq<Frame>, open: bool,
                     received: seq<Frame>, passed: seq<Frame>, delivered: seq<Frame>)

  function Start(now: nat): Hop {
    Hop(Window(now, 0), [], true, [], [], [])
  }

  function ToCall(e: Event): Call
    requires e.Binary?
  {
    Call(e.now, e.restamp, |e.frame|)
  }

  /** The frame passes the limiter; whether it also fits the channel is another matter. */
  predicate Passes(h: Hop, e: Event)
    requires e.Binary?
  {
    Accepts(RATE_LIMIT_BYTES_PER_SEC, h.window, ToCall(e))
  }

  predicate Enabled(h: Hop, e: Event) {
    match e
    case Binary(_, now, restamp) => h.window.start <= now <= restamp
    case Forward => h.queue != []
    case ReceiverGone => true
  }

  function Step(h: Hop, e: Event): Hop
    requires Enabled(h, e)
  {
    match e
    case Binary(f, _, _) =>
      var seen := h.(window := Charge(h.window, ToCall(e)), received := h.received + [f]);
      if !Passes(h, e) then seen
      else if h.open && |h.queue| < Swap.RELAY_CHANNEL_SIZE then
        seen.(passed := h.passed + [f], queue := h.queue + [f])
      else
        seen.(passed := h.passed + [f])
    case Forward => h.(queue := h.queue[1..], delivered := h.delivered + [h.queue[0]])
    case ReceiverGone => h.(open := false)
  }

  ghost predicate Inv(h: Hop) {
    && IsSubsequence(h.delivered + h.queue, h.passed)
    && IsSubsequence(h.passed, h.received)
    && |h.queue| <= Swap.RELAY_CHANNEL_SIZE
  }

  lemma StepInv(h: Hop, e: Event)
    requires Inv(h) && Enabled(h, e)
    ensures Inv(Step(h, e))
  {
    match e {
      case Binary(f, _, _) =>
        SubsequenceRefl([f]);
        PrefixIsSubsequence([], [f]);
        SubsequenceConcat(h.passed, h.received, [f], [f]);
        SubsequenceConcat(h.passed, h.received, [], [f]);
        SubsequenceConcat(h.delivered + h.queue, h.passed, [f], [f]);
        SubsequenceConcat(h.delivered + h.queue, h.passed, [], [f]);
        assert h.passed + [] == h.passed && h.delivered + h.queue + [] == h.delivered + h.queue;
        assert h.delivered + (h.queue + [f]) == h.delivered + h.queue + [f];
      case Forward =>
        assert h.delivered + [h.queue[0]] + h.queue[1..] == h.delivered + h.queue;
      case ReceiverGone =>
    }
  }

  ghost predicate Legal(start: nat, es: seq<Event>)
    decreases |es|, 0
  {
    es == [] || (Legal(start, es[..|es| - 1]) && Enabled(Run(start, es[..|es| - 1]), es[|es| - 1]))
  }

  ghost function Run(start: nat, es: seq<Event>): Hop
    requires Legal(start, es)
    decreases |es|, 1
  {
    if es == [] then Start(start) else Step(Run(start, es[..|es| - 1]), es[|es| - 1])
  }

  /** Delivered frames are whole frames the sender sent, in order; the channel is bounded. */
  lemma {:induction false} RunInv(start: nat, es: seq<Event>)
    requires Legal(start, es)
    ensures Inv(Run(start, es))
    ensures IsSubsequence(Run(start, es).delivered, Run(start, es).received)
    ensures |Run(start, es).queue| <= 64
  {
    if es != [] {
      RunInv(start, es[..|es| - 1]);
      StepInv(Run(start, es[..|es| - 1]), es[|es| - 1]);
    } else {
      SubsequenceRefl<Frame>([]);
    }
    var h := Run(start, es);
    PrefixIsSubsequence(h.delivered, h.delivered + h.queue);
    SubsequenceTrans(h.delivered, h.delivered + h.queue, h.passed);
    SubsequenceTrans(h.delivered, h.passed, h.received);
  }

  /** Bytes that passed so far: full limits of the windows already over, plus this one. */
  lemma {:induction false} ByteBudget(start: nat, es: seq<Event>)
    requires Legal(start, es)
    ensures var h := Run(start, es);
            && start <= h.window.start
            && |Flat(h.passed)| <= 51200 * ((h.window.start - start) / SECOND) +
                                  (if h.window.used <= 51200 then h.window.used else 51200)
  {
    if es != [] {
      ByteBudget(start, es[..|es| - 1]);
      var h, e := Run(start, es[..|es| - 1]), es[|es| - 1];
      if e.Binary? {
        FlatSnoc(h.passed, e.frame);
        if e.now - h.window.start >= SECOND {
          ScaleMono(51200, (h.window.start - start) / SECOND + 1, (e.restamp - start) / SECOND);
        }
      }
    }
  }

  function Total(calls: seq<Call>): nat {
    if calls == [] then 0 else calls[0].weight + Total(calls[1..])
  }

  /** Within one window the frames that pass are the longest prefix that fits the limit:
      a frame passes exactly when it and everything before it in the window fit. */
  lemma {:induction false} WindowPrefix(w: Window, calls: seq<Call>, i: nat)
    requires i < |calls| && forall c :: c in calls ==> c.now - w.start < SECOND
    ensures Accepts(RATE_LIMIT_BYTES_PER_SEC, ChargeAll(w, calls[..i]), calls[i]) <==>
              w.used + Total(calls[..i + 1]) <= 51200
    decreases calls
  {
    if i == 0 {
      assert calls[..1][1..] == [];
    } else {
      WindowPrefix(Charge(w, calls[0]), calls[1..], i - 1);
      assert calls[..i][1..] == calls[1..][..i - 1];
      assert calls[..i + 1][1..] == calls[1..][..i];
    }
  }

  /** Every hop step is an action of the two-bridge system on the same wire. */
  function AsAction(h: Hop, e: Event, from: Swap.Side): Swap.Action
    requires e.Binary? || e.Forward?
  {
    if e.Forward? then Swap.RelaySend(from)
    else if Passes(h, e) && h.open && |h.queue| < Swap.RELAY_CHANNEL_SIZE then Swap.RelayTake(from)
    else Swap.RelayDrop(from)
  }

  lemma HopIsRelayAction(s: Swap.System, from: Swap.Side, h: Hop, e: Event)
    requires Enabled(h, e) && (e.Binary? || e.Forward?)
    requires Swap.From(s, from).queue == h.queue
    requires e.Binary? ==> Swap.From(s, from).up != [] && Swap.From(s, from).up[0] == e.frame
    ensures Swap.Enabled(s, AsAction(h, e, from))
    ensures var w, w' := Swap.From(s, from), Swap.From(Swap.Apply(s, AsAction(h, e, from)), from);
            && w'.queue == Step(h, e).queue
            && (e.Forward? ==> Step(h, e).delivered == h.delivered + w'.down[|w.down|..])
            && (e.Binary? ==> w'.up == w.up[1..] && w'.down == w.down)
            && (e.Binary? ==> w'.dropped == w.dropped + if Step(h, e).queue == h.queue then |e.frame| else 0)
  {
  }

  // ------------------------------------------------------------ whole runs

  function Calls(es: seq<Event>): seq<Call> {
    if es == [] then []
    else
      var e := es[|es| - 1];
      Calls(es[..|es| - 1]) + if e.Binary? then [ToCall(e)] else []
  }

  /** Bytes of the frames that passed at times in [lo, hi]. */
  ghost function PassedBytes(start: nat, es: seq<Event>, lo: nat, hi: nat): nat
    requires Legal(start, es)
    decreases |es|
  {
    if es == [] then 0
    else
      var h, e := Run(start, es[..|es| - 1]), es[|es| - 1];
      PassedBytes(start, es[..|es| - 1], lo, hi) +
      if e.Binary? && Passes(h, e) && lo <= e.now <= hi then |e.frame| else 0
  }

  lemma {:induction false} HopIsLimiterTrace(start: nat, es: seq<Event>, lo: nat, hi: nat)
    requires Legal(start, es)
    ensures Run(start, es).window == ChargeAll(Window(start, 0), Calls(es))
    ensures PassedBytes(start, es, lo, hi) == Accepted(RATE_LIMIT_BYTES_PER_SEC, Window(start, 0), Calls(es), lo, hi)
  {
    if es != [] {
      var init, e := es[..|es| - 1], es[|es| - 1];
      HopIsLimiterTrace(start, init, lo, hi);
      if e.Binary? {
        AcceptedSnoc(RATE_LIMIT_BYTES_PER_SEC, Window(start, 0), Calls(init), ToCall(e), lo, hi);
      } else {
        assert Calls(es) == Calls(init);
      }
    }
  }

  /** Of the frames of any relay run whose clock never goes back, those that pass within any
      closed interval total at most 51200 bytes times two more than its whole seconds. */
  lemma PassedBound(start: nat, es: seq<Event>, lo: nat, hi: nat)
    requires Legal(start, es) && Trace(start, Calls(es)) && lo <= hi
    ensures PassedBytes(start, es, lo, hi) <= 51200 * ((hi - lo) / SECOND + 2)
  {
    HopIsLimiterTrace(start, es, lo, hi);
    RelayBound(start, Calls(es), lo, hi);
  }

  /** The receiver never goes, and its channel is never full when a frame comes. */
  ghost predicate NeverBlocked(start: nat, es: seq<Event>)
    requires Legal(start, es)
    decreases |es|
  {
    es != [] ==>
      var init, e := es[..|es| - 1], es[|es| - 1];
      NeverBlocked(start, init) && !e.ReceiverGone? && (e.Binary? ==> |Run(start, init).queue| < 64)
  }

  /** A relay within its byte rate, with room in the channel, loses nothing. */
  lemma {:induction false} HopLossless(start: nat, es: seq<Event>)
    requires Legal(start, es) && Timed(start, Calls(es)) && Gentle(51200, Calls(es)) && NeverBlocked(start, es)
    ensures var h := Run(start, es); h.open && h.passed == h.received == h.delivered + h.queue
  {
    if es != [] {
      var init, e := es[..|es| - 1], es[|es| - 1];
      FrontIsGentle(start, es);
      HopLossless(start, init);
      var h := Run(start, init);
      if e.Binary? {
        LastPasses(start, es);
        assert h.delivered + (h.queue + [e.frame]) == h.delivered + h.queue + [e.frame];
      } else {
        assert h.delivered + [h.queue[0]] + h.queue[1..] == h.delivered + h.queue;
      }
    }
  }

  lemma FrontIsGentle(start: nat, es: seq<Event>)
    requires es != [] && Timed(start, Calls(es)) && Gentle(51200, Calls(es))
    ensures Timed(start, Calls(es[..|es| - 1])) && Gentle(51200, Calls(es[..|es| - 1]))
  {
    var init, all := Calls(es[..|es| - 1]), Calls(es);
    assert init == all[..|init|];
    TimedPrefix(start, all, |init|);
    GentlePrefix(51200, all, |init|);
  }

  lemma LastPasses(start: nat, es: seq<Event>)
    requires Legal(start, es) && es != [] && es[|es| - 1].Binary?
    requires Timed(start, Calls(es)) && Gentle(51200, Calls(es))
    ensures Passes(Run(start, es[..|es| - 1]), es[|es| - 1])
  {
    var init, all := Calls(es[..|es| - 1]), Calls(es);
    HopIsLimiterTrace(start, es[..|es| - 1], 0, 0);
    assert all[..|init|] == init && all[|init|] == ToCall(es[|es| - 1]);
    var lo := RefusedOnlyIfHeavy(51200, start, all, |init|);
  }

  /** The frames are ones a bridge sends: what it read from TCP at once. */
  ghost predicate FromBridge(es: seq<Event>) {
    forall e | e in es && e.Binary? :: 0 < |e.frame| <= Bridge.RELAY_BUF_SIZE
  }

  /** The wire of a two-bridge system shows what the hop has received, holds and delivered. */
  predicate Shows(s: Swap.System, from: Swap.Side, h: Hop) {
    var b, w := Swap.End(s, from).bridge, Swap.From(s, from);
    && b.phase == Bridge.Relay && b.wsOut == h.received
    && w.up == [] && w.queue == h.queue && w.down == h.delivered
    && |Flat(h.received)| == |Flat(h.delivered + h.queue)| + w.dropped
  }

  /** Every relay run is part of a run of the whole system: the sender's bridge sends the
      frames, and each is taken, dropped or sent on exactly where the relay does so. */
  lemma {:induction false} HopSimulated(start: nat, es: seq<Event>, from: Swap.Side) returns (acts: seq<Swap.Action>)
    requires Legal(start, es) && FromBridge(es)
    ensures Swap.Legal(acts) && Shows(Swap.After(acts), from, Run(start, es))
  {
    if es == [] {
      acts := [];
    } else {
      var init, e := es[..|es| - 1], es[|es| - 1];
      acts := HopSimulated(start, init, from);
      var h := Run(start, init);
      if e.Binary? {
        assert e in es;
        acts := SendFrame(acts, from, h, e.frame);
        HopIsRelayAction(Swap.After(acts), from, h, e);
        RelayActionShows(Swap.After(acts), from, h, e);
        acts := Swap.Extend(acts, AsAction(h, e, from));
      } else if e.Forward? {
        HopIsRelayAction(Swap.After(acts), from, h, e);
        ForwardShows(Swap.After(acts), from, h);
        acts := Swap.Extend(acts, Swap.RelaySend(from));
      }
    }
  }

  /** The frame has left the bridge and is the only one the relay has not read. */
  predicate Sending(s: Swap.System, from: Swap.Side, h: Hop, f: Frame) {
    var b, w := Swap.End(s, from).bridge, Swap.From(s, from);
    && b.phase == Bridge.Relay && b.wsOut == h.received + [f]
    && w.up == [f] && w.queue == h.queue && w.down == h.delivered
    && |Flat(h.received)| == |Flat(h.delivered + h.queue)| + w.dropped
  }

  lemma FrameSent(s: Swap.System, from: Swap.Side, h: Hop, f: Frame)
    requires Shows(s, from, h) && 0 < |f| <= Bridge.RELAY_BUF_SIZE
    ensures var send := Swap.Arm(from, Bridge.TcpData(f, Bridge.Sent));
      Swap.Enabled(s, send) && Sending(Swap.Apply(s, send), from, h, f)
  {
  }

  lemma SendFrame(acts: seq<Swap.Action>, from: Swap.Side, h: Hop, f: Frame) returns (acts': seq<Swap.Action>)
    requires Swap.Legal(acts) && Shows(Swap.After(acts), from, h) && 0 < |f| <= Bridge.RELAY_BUF_SIZE
    ensures Swap.Legal(acts') && Sending(Swap.After(acts'), from, h, f)
  {
    FrameSent(Swap.After(acts), from, h, f);
    acts' := Swap.Extend(acts, Swap.Arm(from, Bridge.TcpData(f, Bridge.Sent)));
  }

  lemma RelayActionShows(s: Swap.System, from: Swap.Side, h: Hop, e: Event)
    requires e.Binary? && Enabled(h, e) && Sending(s, from, h, e.frame)
    ensures Swap.Enabled(s, AsAction(h, e, from)) && Shows(Swap.Apply(s, AsAction(h, e, from)), from, Step(h, e))
  {
    FlatSnoc(h.received, e.frame);
    FlatSnoc(h.delivered + h.queue, e.frame);
    assert h.delivered + (h.queue + [e.frame]) == h.delivered + h.queue + [e.frame];
  }

  lemma ForwardShows(s: Swap.System, from: Swap.Side, h: Hop)
    requires Enabled(h, Forward) && Shows(s, from, h)
    ensures Shows(Swap.Apply(s, Swap.RelaySend(from)), from, Step(h, Forward))
  {
    assert h.delivered + [h.queue[0]] + h.queue[1..] == h.delivered + h.queue;
  }

  /** The relay loops as written, on shared mutable state. */
  class RelayChannel {
    var bytesThisSecond: nat
    var rateWindowStart: nat
    var queue: seq<Frame>
    var open: bool
    ghost var received: seq<Frame>
    ghost var passed: seq<Frame>
    ghost var delivered: seq<Frame>

    ghost function View(): Hop
      reads this
    {
      Hop(Window(rateWindowStart, bytesThisSecond), queue, open, received, passed, delivered)
    }

    ghost predicate Valid()
      reads this
    {
      Inv(View())
    }

    constructor (now: nat)
      ensures Valid() && View() == Start(now)
    {
      bytesThisSecond, rateWindowStart, queue, open := 0, now, [], true;
      received, passed, delivered := [], [], [];
    }

    method TrySend(f: Frame) returns (ok: bool)
      modifies this`queue
      ensures ok == (open && |old(queue)| < Swap.RELAY_CHANNEL_SIZE)
      ensures queue == if ok then old(queue) + [f] else old(queue)
    {
      ok := open && |queue| < Swap.RELAY_CHANNEL_SIZE;
      if ok { queue := queue + [f]; }
    }

    method OnBinary(data: Frame, now: nat, restamp: nat)
      requires Valid() && Enabled(View(), Binary(data, now, restamp))
      modifies this
      ensures Valid() && View() == Step(old(View()), Binary(data, now, restamp))
      ensures rateWindowStart == if now - old(rateWindowStart) >= 1_000_000_000 then restamp else old(rateWindowStart)
      ensures bytesThisSecond ==
                (if now - old(rateWindowStart) >= 1_000_000_000 then 0 else old(bytesThisSecond)) + |data|
      ensures queue == if bytesThisSecond <= 51200 && open && |old(queue)| < 64 then old(queue) + [data] else old(queue)
    {
      StepInv(View(), Binary(data, now, restamp));
      received := received + [data];
      if now - rateWindowStart >= SECOND {
        bytesThisSecond := 0;
        rateWindowStart := restamp;
      }
      bytesThisSecond := bytesThisSecond + |data|;
      if bytesThisSecond > RATE_LIMIT_BYTES_PER_SEC {
        return;
      }
      passed := passed + [data];
      var _ := TrySend(data);
    }

    /** The peer's loop ended and dropped its receiver. */
    method Close()
      requires Valid()
      modifies this`open
      ensures Valid() && View() == Step(old(View()), ReceiverGone)
    {
      StepInv(View(), ReceiverGone);
      open := false;
    }

    method OnRecv() returns (sent: Frame)
      requires Valid() && Enabled(View(), Forward)
      modifies this
      ensures Valid() && View() == Step(old(View()), Forward) && sent == old(queue)[0]
    {
      StepInv(View(), Forward);
      sent, queue := queue[0], queue[1..];
      delivered := delivered + [sent];
    }
  }
}
