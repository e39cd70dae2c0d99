/** The fixed-window limiter behind both the per-connection message limit and the
    tunnel relay's byte limit. Times are ticks of a clock that never goes back. */
module Limiter {

  const SECOND := 1_000_000_000          // Instant counts nanoseconds
  const MAX_MESSAGES_PER_SECOND := 10
  const RATE_LIMIT_BYTES_PER_SEC := 50 * 1024

  /** One request: the clock read at the window test, the clock read when a new window
      is opened, and what the request weighs. */
  datatype Call = Call(now: nat, restamp: nat, weight: nat)

  datatype Window = Window(start: nat, used: nat)

  /** The window in force for a call, before the call is charged. */
  function Roll(w: Window, c: Call): Window {
    if c.now - w.start >= SECOND then Window(c.restamp, 0) else w
  }

  /** Rejected calls are charged too. */
  function Charge(w: Window, c: Call): Window {
    Roll(w, c).(used := Roll(w, c).used + c.weight)
  }

  predicate Accepts(cap: nat, w: Window, c: Call) {
    Charge(w, c).used <= cap
  }

  /** Calls at non-decreasing times, none before `from`. */
  predicate Trace(from: nat, calls: seq<Call>)
    decreases calls
  {
    calls == [] ||
    (from <= calls[0].now <= calls[0].restamp && Trace(calls[0].restamp, calls[1..]))
  }

  /** Weight accepted at times in [lo, hi] when the trace starts in window w. */
  function Accepted(cap: nat, w: Window, calls: seq<Call>, lo: nat, hi: nat): nat
    decreases calls
  {
    if calls == [] then 0
    else
      (if lo <= calls[0].now <= hi && Accepts(cap, w, calls[0]) then calls[0].weight else 0)
      + Accepted(cap, Charge(w, calls[0]), calls[1..], lo, hi)
  }

  lemma TraceFrom(a: nat, b: nat, calls: seq<Call>)
    requires a <= b && Trace(b, calls)
    ensures Trace(a, calls)
  {
  }

  lemma {:induction false} NothingLate(cap: nat, w: Window, calls: seq<Call>, from: nat, lo: nat, hi: nat)
    requires Trace(from, calls) && hi < from
    ensures Accepted(cap, w, calls, lo, hi) == 0
    decreases calls
  {
    if calls != [] {
      NothingLate(cap, Charge(w, calls[0]), calls[1..], calls[0].restamp, lo, hi);
    }
  }

  lemma {:induction false} WiderInterval(cap: nat, w: Window, calls: seq<Call>, lo: nat, hi: nat)
    ensures Accepted(cap, w, calls, lo, hi) <= Accepted(cap, w, calls, 0, hi)
    decreases calls
  {
    if calls != [] {
      WiderInterval(cap, Charge(w, calls[0]), calls[1..], lo, hi);
    }
  }

  /** Windows that can still be opened by time hi after one that opened at `start`. */
  function WindowsAfter(start: nat, hi: nat): nat {
    if hi < start then 0 else (hi - start) / SECOND
  }

  function Left(cap: nat, w: Window): nat {
    if w.used <= cap then cap - w.used else 0
  }

  lemma ScaleMono(cap: nat, a: nat, b: nat)
    requires a <= b
    ensures cap * a <= cap * b
  {
  }

  lemma OneWindowMore(cap: nat, a: nat, b: nat)
    requires a < b
    ensures cap + cap * a <= cap * b
  {
    ScaleMono(cap, a + 1, b);
    assert cap * (a + 1) == cap * a + cap;
  }

  /** What a trace can still get accepted: the rest of this window, plus full windows
      that open at least a second apart. */
  lemma {:induction false} Budget(cap: nat, w: Window, calls: seq<Call>, hi: nat)
    requires Trace(w.start, calls)
    ensures Accepted(cap, w, calls, 0, hi) <= Left(cap, w) + cap * WindowsAfter(w.start, hi)
    decreases calls, 1
  {
    if calls != [] {
      var c := calls[0];
      if hi < c.now {
        TraceFrom(c.now, c.restamp, calls[1..]);
        NothingLate(cap, w, calls, c.now, 0, hi);
      } else {
        FirstCall(cap, w, calls, hi);
        if Roll(w, c) != w {
          OneWindowMore(cap, WindowsAfter(c.restamp, hi), WindowsAfter(w.start, hi));
        }
      }
    }
  }

  lemma {:induction false} FirstCall(cap: nat, w: Window, calls: seq<Call>, hi: nat)
    requires Trace(w.start, calls) && calls != []
    ensures var r := Roll(w, calls[0]);
            Accepted(cap, w, calls, 0, hi) <= Left(cap, r) + cap * WindowsAfter(r.start, hi)
    decreases calls, 0
  {
    var next := Charge(w, calls[0]);
    TraceFrom(next.start, calls[0].restamp, calls[1..]);
    Budget(cap, next, calls[1..], hi);
  }

  /** Sliding-interval bound of the fixed window: in any closed interval, at most the
      cap times two more than the whole seconds it spans. */
  lemma {:induction false} IntervalBound(cap: nat, w: Window, calls: seq<Call>, lo: nat, hi: nat)
    requires Trace(w.start, calls) && lo <= hi
    ensures Accepted(cap, w, calls, lo, hi) <= cap * ((hi - lo) / SECOND + 2)
    decreases calls
  {
    if calls != [] {
      var c := calls[0];
      if c.now < lo {
        TraceFrom(Charge(w, c).start, c.restamp, calls[1..]);
        IntervalBound(cap, Charge(w, c), calls[1..], lo, hi);
      } else {
        WiderInterval(cap, w, calls, lo, hi);
        FirstCall(cap, w, calls, hi);
        var r := Roll(w, c);
        var seconds := (hi - lo) / SECOND;
        assert WindowsAfter(r.start, hi) <= seconds + 1;
        ScaleMono(cap, WindowsAfter(r.start, hi), seconds + 1);
        assert cap * (seconds + 1) + cap == cap * (seconds + 2);
      }
    }
  }

  /** The two limiters of the server. */
  lemma MessageBound(start: nat, calls: seq<Call>, lo: nat, hi: nat)
    requires Trace(start, calls) && lo <= hi
    requires forall c :: c in calls ==> c.weight == 1
    ensures var n := Accepted(MAX_MESSAGES_PER_SECOND, Window(start, 0), calls, lo, hi);
            n <= 10 * ((hi - lo) / SECOND + 2) && (hi - lo < SECOND ==> n <= 20)
  {
    IntervalBound(MAX_MESSAGES_PER_SECOND, Window(start, 0), calls, lo, hi);
  }

  lemma RelayBound(start: nat, calls: seq<Call>, lo: nat, hi: nat)
    requires Trace(start, calls) && lo <= hi
    ensures Accepted(RATE_LIMIT_BYTES_PER_SEC, Window(start, 0), calls, lo, hi) <= 51200 * ((hi - lo) / SECOND + 2)
  {
    IntervalBound(RATE_LIMIT_BYTES_PER_SEC, Window(start, 0), calls, lo, hi);
  }

  // ------------------------------------------------------------ nothing is refused needlessly

  function ChargeAll(w: Window, calls: seq<Call>): Window
    decreases calls
  {
    if calls == [] then w else ChargeAll(Charge(w, calls[0]), calls[1..])
  }

  lemma {:induction false} AcceptedSnoc(cap: nat, w: Window, calls: seq<Call>, c: Call, lo: nat, hi: nat)
    ensures Accepted(cap, w, calls + [c], lo, hi) == Accepted(cap, w, calls, lo, hi) +
              if lo <= c.now <= hi && Accepts(cap, ChargeAll(w, calls), c) then c.weight else 0
    ensures ChargeAll(w, calls + [c]) == Charge(ChargeAll(w, calls), c)
    decreases calls
  {
    if calls == [] {
      assert [c][1..] == [] && calls + [c] == [c];
    } else {
      assert (calls + [c])[1..] == calls[1..] + [c];
      AcceptedSnoc(cap, Charge(w, calls[0]), calls[1..], c, lo, hi);
    }
  }

  /** Total weight of the calls at times in [lo, hi]. */
  function Weight(calls: seq<Call>, lo: nat, hi: nat): nat {
    if calls == [] then 0
    else
      var c := calls[|calls| - 1];
      Weight(calls[..|calls| - 1], lo, hi) + if lo <= c.now <= hi then c.weight else 0
  }

  /** Calls in the order of time, none before `start`; the clock does not move during a call. */
  ghost predicate Timed(start: nat, calls: seq<Call>) {
    && (forall i | 0 <= i < |calls| :: start <= calls[i].now == calls[i].restamp)
    && (forall i, j | 0 <= i < j < |calls| :: calls[i].now <= calls[j].now)
  }

  /** No interval shorter than a second carries more than the cap. */
  ghost predicate Gentle(cap: nat, calls: seq<Call>) {
    forall lo: nat, hi: nat | lo <= hi && hi - lo < SECOND :: Weight(calls, lo, hi) <= cap
  }

  lemma {:induction false} WeightMono(calls: seq<Call>, i: nat, lo: nat, hi: nat)
    requires i <= |calls|
    ensures Weight(calls[..i], lo, hi) <= Weight(calls, lo, hi)
    decreases |calls|
  {
    if i < |calls| {
      WeightMono(calls[..|calls| - 1], i, lo, hi);
      assert calls[..|calls| - 1][..i] == calls[..i];
    } else {
      assert calls[..i] == calls;
    }
  }

  /** The first calls of a timed, gentle trace are timed and gentle. */
  lemma TimedPrefix(start: nat, calls: seq<Call>, i: nat)
    requires Timed(start, calls) && i <= |calls|
    ensures Timed(start, calls[..i])
  {
    assert forall k | 0 <= k < i :: calls[..i][k] == calls[k];
  }

  lemma GentlePrefix(cap: nat, calls: seq<Call>, i: nat)
    requires Gentle(cap, calls) && i <= |calls|
    ensures Gentle(cap, calls[..i])
  {
    forall lo: nat, hi: nat | lo <= hi && hi - lo < SECOND ensures Weight(calls[..i], lo, hi) <= cap {
      WeightMono(calls, i, lo, hi);
    }
  }

  /** No call is later than hi. */
  predicate Until(calls: seq<Call>, hi: nat) {
    forall i | 0 <= i < |calls| :: calls[i].now <= hi
  }

  lemma UntilFront(calls: seq<Call>, hi: nat)
    requires calls != [] && Until(calls, hi)
    ensures Until(calls[..|calls| - 1], hi) && calls[|calls| - 1].now <= hi
  {
    var init := calls[..|calls| - 1];
    forall i | 0 <= i < |init| ensures init[i].now <= hi {
      assert init[i] == calls[i];
    }
  }

  /** Moving the end beyond the last call, or the start past all of them. */
  lemma {:induction false} WeightEnds(calls: seq<Call>, lo: nat, hi: nat, later: nat, t: nat)
    requires Until(calls, hi) && hi <= later && hi < t
    ensures Weight(calls, lo, hi) == Weight(calls, lo, later)
    ensures Weight(calls, t, later) == 0
  {
    if calls != [] {
      UntilFront(calls, hi);
      WeightEnds(calls[..|calls| - 1], lo, hi, later, t);
    }
  }

  /** The window in force has been charged exactly the calls since it opened, and spans less
      than a second up to the latest of them. */
  ghost predicate Tracks(w: Window, start: nat, calls: seq<Call>) {
    && start <= w.start
    && (calls == [] ==> w == Window(start, 0))
    && (calls != [] ==> var last := calls[|calls| - 1].now;
          w.start <= last < w.start + SECOND && w.used == Weight(calls, w.start, last))
  }

  lemma {:induction false} WindowTracks(start: nat, calls: seq<Call>)
    requires Timed(start, calls)
    ensures Tracks(ChargeAll(Window(start, 0), calls), start, calls)
  {
    if calls != [] {
      var init, c := calls[..|calls| - 1], calls[|calls| - 1];
      assert calls == init + [c];
      TimedPrefix(start, calls, |calls| - 1);
      WindowTracks(start, init);
      AcceptedSnoc(0, Window(start, 0), init, c, 0, 0);
      TracksNext(ChargeAll(Window(start, 0), init), start, init, c);
    }
  }

  lemma TracksNext(w: Window, start: nat, calls: seq<Call>, c: Call)
    requires Timed(start, calls + [c]) && Tracks(w, start, calls)
    ensures Tracks(Charge(w, c), start, calls + [c])
  {
    var all := calls + [c];
    assert all[..|calls|] == calls && all[|calls|] == c;
    if calls != [] {
      var last := calls[|calls| - 1].now;
      assert forall i | 0 <= i < |calls| :: all[i] == calls[i] && calls[i].now <= last;
      if c.now > last {
        WeightEnds(calls, w.start, last, c.now, c.now);
      }
    }
  }

  /** A call is refused only when the calls of some interval shorter than a second, ending
      with it, weigh more than the cap. */
  lemma RefusedOnlyIfHeavy(cap: nat, start: nat, calls: seq<Call>, i: nat) returns (lo: nat)
    requires Timed(start, calls) && i < |calls|
    ensures lo <= calls[i].now < lo + SECOND
    ensures !Accepts(cap, ChargeAll(Window(start, 0), calls[..i]), calls[i]) ==> Weight(calls, lo, calls[i].now) > cap
  {
    var upTo := calls[..i + 1];
    TimedPrefix(start, calls, i + 1);
    WindowTracks(start, upTo);
    assert upTo == calls[..i] + [calls[i]];
    AcceptedSnoc(cap, Window(start, 0), calls[..i], calls[i], 0, 0);
    var w := ChargeAll(Window(start, 0), upTo);
    lo := w.start;
    WeightMono(calls, i + 1, lo, calls[i].now);
  }

  /** So a client that never exceeds the cap within a second has every call accepted. */
  lemma {:induction false} GentleAccepted(cap: nat, start: nat, calls: seq<Call>, lo: nat, hi: nat)
    requires Timed(start, calls) && Gentle(cap, calls)
    ensures Accepted(cap, Window(start, 0), calls, lo, hi) == Weight(calls, lo, hi)
  {
    if calls != [] {
      var n := |calls| - 1;
      var init := calls[..n];
      assert calls == init + [calls[n]];
      TimedPrefix(start, calls, n);
      GentlePrefix(cap, calls, n);
      GentleAccepted(cap, start, init, lo, hi);
      AcceptedSnoc(cap, Window(start, 0), init, calls[n], lo, hi);
      var from := RefusedOnlyIfHeavy(cap, start, calls, n);
    }
  }

  /** Both limiters of the server: ten messages, 51200 bytes. */
  lemma GentleClients(start: nat, calls: seq<Call>, lo: nat, hi: nat)
    requires Timed(start, calls)
    ensures Gentle(10, calls) ==>
              Accepted(MAX_MESSAGES_PER_SECOND, Window(start, 0), calls, lo, hi) == Weight(calls, lo, hi)
    ensures Gentle(51200, calls) ==>
              Accepted(RATE_LIMIT_BYTES_PER_SEC, Window(start, 0), calls, lo, hi) == Weight(calls, lo, hi)
  {
    if Gentle(10, calls) {
      GentleAccepted(10, start, calls, lo, hi);
    }
    if Gentle(51200, calls) {
      GentleAccepted(51200, start, calls, lo, hi);
    }
  }

  // ------------------------------------------------------------ the bound is met

  function Burst(n: nat, t: nat): seq<Call> {
    seq(n, _ => Call(t, t, 1))
  }

  lemma {:induction false} BurstFits(w: Window, n: nat, t: nat, rest: seq<Call>, lo: nat, hi: nat)
    requires w.start <= t < w.start + SECOND && w.used + n <= MAX_MESSAGES_PER_SECOND && lo <= t <= hi
    ensures Accepted(MAX_MESSAGES_PER_SECOND, w, Burst(n, t) + rest, lo, hi) ==
              n + Accepted(MAX_MESSAGES_PER_SECOND, w.(used := w.used + n), rest, lo, hi)
    decreases n
  {
    if n == 0 {
      assert Burst(n, t) + rest == rest;
    } else {
      assert (Burst(n, t) + rest)[1..] == Burst(n - 1, t) + rest;
      BurstFits(w.(used := w.used + 1), n - 1, t, rest, lo, hi);
    }
  }

  lemma {:induction false} BurstTrace(from: nat, n: nat, t: nat, rest: seq<Call>)
    requires from <= t && Trace(t, rest)
    ensures Trace(from, Burst(n, t) + rest)
    decreases n
  {
    if n == 0 {
      assert Burst(n, t) + rest == rest;
      TraceFrom(from, t, rest);
    } else {
      assert (Burst(n, t) + rest)[1..] == Burst(n - 1, t) + rest;
      BurstTrace(t, n - 1, t, rest);
    }
  }

  /** The double burst across a window boundary that the limiter is documented to allow:
      twenty messages within 60 milliseconds, so 20 cannot be lowered. */
  lemma DoubleBurst() returns (calls: seq<Call>, lo: nat, hi: nat)
    ensures Trace(0, calls) && lo <= hi && hi - lo < SECOND
    ensures Accepted(MAX_MESSAGES_PER_SECOND, Window(0, 0), calls, lo, hi) == 20
  {
    lo, hi := 950_000_000, 1_010_000_000;
    var second := [Call(hi, hi, 1)] + (Burst(9, hi) + []);
    calls := Burst(10, lo) + second;
    assert second[1..] == Burst(9, hi) + [];
    BurstTrace(hi, 9, hi, []);
    BurstTrace(0, 10, lo, second);
    BurstFits(Window(0, 0), 10, lo, second, lo, hi);
    BurstFits(Window(hi, 1), 9, hi, [], lo, hi);
  }

  /** The message limiter as written: tokens left and the time of the last refill. */
  class RateLimiter {
    var tokens: nat
    var lastRefill: nat
    ghost var window: Window

    ghost predicate Valid()
      reads this
    {
      lastRefill == window.start && tokens == Left(MAX_MESSAGES_PER_SECOND, window)
    }

    constructor (now: nat)
      ensures Valid() && window == Window(now, 0)
    {
      tokens := MAX_MESSAGES_PER_SECOND;
      lastRefill := now;
      window := Window(now, 0);
    }

    method Allow(now: nat, restamp: nat) returns (ok: bool)
      requires Valid() && lastRefill <= now <= restamp
      modifies this
      ensures Valid() && window == Charge(old(window), Call(now, restamp, 1))
      ensures ok <==> Accepts(MAX_MESSAGES_PER_SECOND, old(window), Call(now, restamp, 1))
      ensures ok <==> now - old(lastRefill) >= 1_000_000_000 || old(tokens) > 0
      ensures now - old(lastRefill) >= 1_000_000_000 ==> lastRefill == restamp && tokens == 9
      ensures now - old(lastRefill) < 1_000_000_000 ==>
                lastRefill == old(lastRefill) && tokens == if ok then old(tokens) - 1 else 0
    {
      if now - lastRefill >= SECOND {
        tokens := MAX_MESSAGES_PER_SECOND;
        lastRefill := restamp;
      }
      if tokens > 0 {
        tokens := tokens - 1;
        ok := true;
      } else {
        ok := false;
      }
      window := Charge(window, Call(now, restamp, 1));
    }
  }
}
