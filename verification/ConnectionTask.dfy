/** The network task of the client: the order in which it tells the UI about connecting,
    server messages, losing the connection and trying again. */
module ConnectionTask {
  import opened Basics

  datatype Room = Room(id: nat, host: nat, current: nat, max: nat)

  datatype PlayerEntry = PlayerEntry(id: nat, hosting: bool)

  /** Addresses are None when they do not parse. Pong is answered inside the network task
      and never forwarded. */
  datatype Message =
    | Welcome(id: nat)
    | ObservedAddr(observed: Option<nat>)
    | PlayerUpdate(players: seq<PlayerEntry>)
    | RoomUpdate(rooms: seq<Room>)
    | JoinResult(success: bool, tunnelToken: Option<nat>, gameinfo: Option<seq<Byte>>)
    | PlayerJoined(token: nat)
    | TunnelReady(token: nat)
    | StunInfo(ip: Option<nat>)
    | PeerUpnpAddr(safe: bool)
    | ErrorMessage
    | Unknown

  datatype NetEvent = Connected | Disconnected | Reconnecting(attempt: nat) | FromServer(message: Message)

  /** Where the event stream stands: trying to connect, in a session, or just out of one. */
  datatype Phase = Idle | Live | Dropped

  function Follow(p: Phase, e: NetEvent): Option<Phase> {
    match e
    case Connected => if p.Idle? then Some(Live) else None
    case FromServer(_) => if p.Live? then Some(Live) else None
    case Disconnected => if p.Live? then Some(Dropped) else None
    case Reconnecting(_) => if p.Live? then None else Some(Idle)
  }

  /** The event language: None once an event came out of order. */
  function PhaseAfter(events: seq<NetEvent>): Option<Phase> {
    if events == [] then Some(Idle)
    else
      match PhaseAfter(events[..|events| - 1])
      case None => None
      case Some(p) => Follow(p, events[|events| - 1])
  }

  datatype Task = Task(phase: Phase, attempt: nat, emitted: seq<NetEvent>)

  const INIT := Task(Idle, 0, [])

  datatype Step =
    | ConnectFails
    | ConnectSucceeds
    | Receive(message: Message)
    | SessionEnds(again: bool)

  predicate Enabled(t: Task, st: Step) {
    if st.ConnectFails? || st.ConnectSucceeds? then t.phase.Idle? else t.phase.Live?
  }

  /** One turn of run_connection or of handle_session; `again` is handle_session's result. */
  function Apply(t: Task, st: Step): Task
    requires Enabled(t, st)
  {
    match st
    case ConnectFails => t.(attempt := t.attempt + 1, emitted := t.emitted + [Reconnecting(t.attempt + 1)])
    case ConnectSucceeds => t.(phase := Live, attempt := 0, emitted := t.emitted + [Connected])
    case Receive(m) => t.(emitted := t.emitted + [FromServer(m)])
    case SessionEnds(again) =>
      if again then t.(phase := Idle, emitted := t.emitted + [Disconnected] + [Reconnecting(t.attempt)])
      else t.(phase := Dropped, emitted := t.emitted + [Disconnected])
  }

  /** Connection failures in a row at the end of the stream; the Reconnecting that follows
      a lost session is not one. */
  function Failures(events: seq<NetEvent>): nat {
    if events == [] || !events[|events| - 1].Reconnecting? then 0
    else if |events| >= 2 && events[|events| - 2].Disconnected? then 0
    else 1 + Failures(events[..|events| - 1])
  }

  ghost predicate Announced(events: seq<NetEvent>, i: nat)
    requires i < |events|
  {
    events[i].Reconnecting? ==> events[i].attempt == Failures(events[..i + 1])
  }

  ghost predicate Inv(t: Task) {
    && PhaseAfter(t.emitted) == Some(t.phase)
    && t.attempt == Failures(t.emitted)
    && forall i: nat | i < |t.emitted| :: Announced(t.emitted, i)
  }

  lemma PhaseSnoc(events: seq<NetEvent>, e: NetEvent)
    requires PhaseAfter(events).Some?
    ensures PhaseAfter(events + [e]) == Follow(PhaseAfter(events).value, e)
  {
    assert (events + [e])[..|events|] == events;
  }

  /** An event sent with the right attempt number keeps every announcement right. */
  lemma AnnounceSnoc(events: seq<NetEvent>, e: NetEvent)
    requires forall i: nat | i < |events| :: Announced(events, i)
    requires e.Reconnecting? ==>
      e.attempt == if events != [] && events[|events| - 1].Disconnected? then 0 else 1 + Failures(events)
    ensures forall i: nat | i < |events + [e]| :: Announced(events + [e], i)
    ensures Failures(events + [e]) == if e.Reconnecting? then e.attempt else 0
  {
    var all := events + [e];
    assert all[..|events|] == events;
    forall i: nat | i < |all| ensures Announced(all, i) {
      if i < |events| {
        assert Announced(events, i);
        assert all[..i + 1] == events[..i + 1];
      } else {
        assert all[..i + 1] == all;
      }
    }
  }

  /** Dropped is the phase right after a Disconnected; a session has no failures. */
  lemma LastEvent(events: seq<NetEvent>)
    requires PhaseAfter(events).Some?
    ensures PhaseAfter(events) == Some(Dropped) <==> events != [] && events[|events| - 1].Disconnected?
    ensures PhaseAfter(events) == Some(Live) ==> Failures(events) == 0
  {
  }

  /** Sending one event in turn. */
  lemma SendInv(t: Task, e: NetEvent, next: Task)
    requires Inv(t) && Follow(t.phase, e).Some?
    requires e.Reconnecting? ==> e.attempt == if t.phase.Dropped? then 0 else t.attempt + 1
    requires next == Task(Follow(t.phase, e).value, if e.Reconnecting? then e.attempt else 0, t.emitted + [e])
    ensures Inv(next)
  {
    LastEvent(t.emitted);
    PhaseSnoc(t.emitted, e);
    AnnounceSnoc(t.emitted, e);
  }

  lemma EndInv(t: Task, again: bool)
    requires Inv(t) && t.phase.Live?
    ensures Inv(Apply(t, SessionEnds(again)))
  {
    LastEvent(t.emitted);
    var dropped := Task(Dropped, 0, t.emitted + [Disconnected]);
    SendInv(t, Disconnected, dropped);
    if again {
      SendInv(dropped, Reconnecting(0), Apply(t, SessionEnds(again)));
    }
  }

  lemma StepInv(t: Task, st: Step)
    requires Inv(t) && Enabled(t, st)
    ensures Inv(Apply(t, st))
  {
    match st {
      case ConnectFails => SendInv(t, Reconnecting(t.attempt + 1), Apply(t, st));
      case ConnectSucceeds => SendInv(t, Connected, Apply(t, st));
      case Receive(m) =>
        LastEvent(t.emitted);
        SendInv(t, FromServer(m), Apply(t, st));
      case SessionEnds(again) => EndInv(t, again);
    }
  }

  /** The network task as written, one method per await point. */
  class NetworkTask {
    var phase: Phase
    var attempt: nat
    var emitted: seq<NetEvent>

    function View(): Task
      reads this
    {
      Task(phase, attempt, emitted)
    }

    ghost predicate Valid()
      reads this
    {
      Inv(View())
    }

    constructor ()
      ensures Valid() && View() == INIT
    {
      phase, attempt, emitted := Idle, 0, [];
    }

    method Send(e: NetEvent)
      modifies this`emitted
      ensures emitted == old(emitted) + [e]
    {
      emitted := emitted + [e];
    }

    method Connect(success: bool)
      requires Valid() && phase.Idle?
      modifies this
      ensures Valid() && View() == Apply(old(View()), if success then ConnectSucceeds else ConnectFails)
      ensures success ==> emitted == old(emitted) + [Connected] && phase == Live && attempt == 0
      ensures !success ==> emitted == old(emitted) + [Reconnecting(attempt)] && phase == Idle
      ensures !success ==> attempt == old(attempt) + 1
    {
      StepInv(View(), if success then ConnectSucceeds else ConnectFails);
      TryOnce(success);
    }

    /** One turn of the loop. */
    method TryOnce(success: bool)
      requires phase.Idle?
      modifies this
      ensures View() == Apply(old(View()), if success then ConnectSucceeds else ConnectFails)
    {
      attempt := attempt + 1;
      if success {
        attempt := 0;
        Send(Connected);
        phase := Live;
      } else {
        Send(Reconnecting(attempt));
      }
    }

    method ForwardMessage(m: Message)
      requires Valid() && phase.Live?
      modifies this
      ensures Valid() && View() == Apply(old(View()), Receive(m))
      ensures emitted == old(emitted) + [FromServer(m)] && phase.Live? && attempt == old(attempt)
    {
      StepInv(View(), Receive(m));
      Send(FromServer(m));
    }

    method EndSession(again: bool)
      requires Valid() && phase.Live?
      modifies this
      ensures Valid() && View() == Apply(old(View()), SessionEnds(again))
      ensures again ==> emitted == old(emitted) + [Disconnected] + [Reconnecting(0)] && phase == Idle
      ensures !again ==> emitted == old(emitted) + [Disconnected] && phase == Dropped
      ensures attempt == 0
    {
      LastEvent(emitted);
      StepInv(View(), SessionEnds(again));
      Send(Disconnected);
      phase := Dropped;
      if !again {
        return;
      }
      Send(Reconnecting(attempt));
      phase := Idle;
    }
  }
}
