/** The heartbeat watchdog of the exam client: ticks every 30 s, and gives up after three missed acknowledgements. */
module Heartbeat {

  const HEARTBEAT_INTERVAL: int := 30000
  const GRACE: int := 5000
  const MAX_MISSED_HEARTBEATS: nat := 3

  /** `running`: the interval is set. `redirected`: the user was sent back to the login page. */
  datatype Watch = Watch(lastAck: int, missed: nat, running: bool, redirected: bool)

  function Start(now: int): Watch {
    Watch(now, 0, true, false)
  }

  function Miss(w: Watch): Watch {
    if w.missed + 1 >= MAX_MISSED_HEARTBEATS then Watch(w.lastAck, w.missed + 1, false, true)
    else w.(missed := w.missed + 1)
  }

  function Beat(w: Watch, now: int, watched: bool, connected: bool): Watch {
    if !watched then w
    else if !connected || now - w.lastAck > HEARTBEAT_INTERVAL + GRACE then Miss(w)
    else w
  }

  function Acknowledge(w: Watch, now: int): Watch {
    w.(lastAck := now, missed := 0)
  }

  class Watchdog {
    var lastHeartbeatAck: int
    var missedHeartbeats: nat
    var intervalSet: bool
    var redirected: bool

    function View(): Watch
      reads this
    {
      Watch(lastHeartbeatAck, missedHeartbeats, intervalSet, redirected)
    }

    constructor StartHeartbeat(now: int)
      ensures View() == Start(now)
    {
      lastHeartbeatAck, missedHeartbeats, intervalSet, redirected := now, 0, true, false;
    }

    /** One tick; `watched`: a session id is set and there was no kick. */
    method OnTick(now: int, watched: bool, connected: bool)
      modifies this
      ensures View() == Beat(old(View()), now, watched, connected)
    {
      if !watched {
        return;
      }
      if connected {
        var timeSinceAck := now - lastHeartbeatAck;
        if timeSinceAck > HEARTBEAT_INTERVAL + GRACE {
          missedHeartbeats := missedHeartbeats + 1;
          if missedHeartbeats >= MAX_MISSED_HEARTBEATS {
            intervalSet, redirected := false, true;
          }
        }
      } else {
        missedHeartbeats := missedHeartbeats + 1;
        if missedHeartbeats >= MAX_MISSED_HEARTBEATS {
          intervalSet, redirected := false, true;
        }
      }
    }

    method OnHeartbeatAck(now: int)
      modifies this
      ensures View() == Acknowledge(old(View()), now)
    {
      lastHeartbeatAck := now;
      missedHeartbeats := 0;
    }
  }

  // ----- What counts as a miss -----

  /**
   While the exam is watched, a tick counts a miss when the socket is down, or up without an
   acknowledgement for more than 35 s; the third miss stops the ticks and redirects.
   */
  lemma BeatIs(w: Watch, now: int, watched: bool, connected: bool)
    ensures var next, misses := Beat(w, now, watched, connected), watched && (!connected || now - w.lastAck > 35000);
      && next.lastAck == w.lastAck
      && next.missed == w.missed + (if misses then 1 else 0)
      && next.running == (w.running && !(misses && w.missed >= 2))
      && next.redirected == (w.redirected || (misses && w.missed >= 2))
  {
  }

  /** `n` ticks while the socket is down. */
  function Down(w: Watch, n: nat): Watch {
    if n == 0 then w else Beat(Down(w, n - 1), 0, true, false)
  }

  /** An outage redirects at its third tick, or sooner by the misses before it. */
  lemma {:induction false} OutageRedirects(w: Watch, n: nat)
    requires w.running && !w.redirected && w.missed < 3 && n <= 3 - w.missed
    ensures Down(w, n).missed == w.missed + n
    ensures Down(w, n).redirected <==> n == 3 - w.missed
    ensures Down(w, n).running <==> n < 3 - w.missed
  {
    if n > 0 {
      OutageRedirects(w, n - 1);
      BeatIs(Down(w, n - 1), 0, true, false);
    }
  }

  // ----- Bounds, with ideal ticks on a socket that stays connected -----

  datatype Signal = Tick | Ack(at: int)

  /** `next`: when the next tick is due. */
  datatype Clock = Clock(watch: Watch, now: int, next: int)

  function Begin(now: int): Clock {
    Clock(Start(now), now, now + HEARTBEAT_INTERVAL)
  }

  /** Ticks come exactly when due, and every acknowledgement between two ticks. */
  predicate Timely(c: Clock, s: Signal) {
    match s
    case Tick => c.watch.running
    case Ack(at) => c.now <= at <= c.next && c.watch.running
  }

  function Advance(c: Clock, s: Signal): Clock {
    match s
    case Tick => Clock(Beat(c.watch, c.next, true, true), c.next, c.next + HEARTBEAT_INTERVAL)
    case Ack(at) => Clock(Acknowledge(c.watch, at), at, c.next)
  }

  predicate AllTimely(c: Clock, ss: seq<Signal>)
    decreases |ss|
  {
    ss == [] || (Timely(c, ss[0]) && AllTimely(Advance(c, ss[0]), ss[1..]))
  }

  function After(c: Clock, ss: seq<Signal>): Clock
    decreases |ss|
  {
    if ss == [] then c else After(Advance(c, ss[0]), ss[1..])
  }

  /** The ticks that found the last acknowledgement more than 35 s old, when it is `gap` old at the last tick. */
  function MissedAfter(gap: int): nat {
    if gap <= HEARTBEAT_INTERVAL + GRACE then 0 else (gap - GRACE - 1) / HEARTBEAT_INTERVAL
  }

  ghost predicate Counted(c: Clock) {
    var lastTick := c.next - HEARTBEAT_INTERVAL;
    && lastTick <= c.now <= c.next && c.watch.lastAck <= c.now
    && c.watch.missed == MissedAfter(lastTick - c.watch.lastAck)
    && (c.watch.running <==> c.watch.missed < MAX_MISSED_HEARTBEATS)
    && (c.watch.redirected <==> !c.watch.running)
    && (c.watch.redirected ==> c.now == lastTick && c.watch.missed == MAX_MISSED_HEARTBEATS)
  }

  lemma AdvanceKeepsCount(c: Clock, s: Signal)
    requires Counted(c) && Timely(c, s)
    ensures Counted(Advance(c, s))
  {
    var gap := c.next - HEARTBEAT_INTERVAL - c.watch.lastAck;
    assert gap > GRACE ==> MissedAfter(gap + HEARTBEAT_INTERVAL) == MissedAfter(gap) + 1;
  }

  lemma {:induction false} RunKeepsCount(c: Clock, ss: seq<Signal>)
    requires Counted(c) && AllTimely(c, ss)
    ensures Counted(After(c, ss))
    decreases |ss|
  {
    if ss != [] {
      AdvanceKeepsCount(c, ss[0]);
      RunKeepsCount(Advance(c, ss[0]), ss[1..]);
    }
  }

  /**
   However acknowledgements arrive, the redirect comes only more than 95 s after the last
   one, and until it comes the last one is at most 125 s old.
   */
  lemma RedirectWindow(start: int, ss: seq<Signal>)
    requires AllTimely(Begin(start), ss)
    ensures var c := After(Begin(start), ss);
      && c.now - c.watch.lastAck <= 125000
      && (c.watch.redirected ==> c.now - c.watch.lastAck > 95000)
  {
    RunKeepsCount(Begin(start), ss);
  }

  /** The window is exact: an acknowledgement `late` ms after a tick leads to a redirect this many ms later. */
  lemma RedirectDelay(start: int, late: int)
    requires 0 <= late < HEARTBEAT_INTERVAL
    ensures var ticks := if late < HEARTBEAT_INTERVAL - GRACE then 4 else 5;
      var c := After(Begin(start), [Ack(start + late)] + seq(ticks, _ => Tick));
      && AllTimely(Begin(start), [Ack(start + late)] + seq(ticks, _ => Tick))
      && c.watch.redirected && c.now - c.watch.lastAck == ticks * HEARTBEAT_INTERVAL - late
  {
    var c0 := Advance(Begin(start), Ack(start + late));
    var c1 := Advance(c0, Tick);
    var c2 := Advance(c1, Tick);
    var c3 := Advance(c2, Tick);
    var c4 := Advance(c3, Tick);
    var c5 := Advance(c4, Tick);
    var ticks := if late < HEARTBEAT_INTERVAL - GRACE then 4 else 5;
    var ss := [Ack(start + late)] + seq(ticks, _ => Tick);
    assert ss[5..] == if ticks == 4 then [] else [Tick];
    assert [Tick][1..] == [];
    assert AllTimely(c4, ss[5..]) && After(c4, ss[5..]) == if ticks == 4 then c4 else c5;
    assert AllTimely(c3, ss[4..]) && After(c3, ss[4..]) == After(c4, ss[5..]);
    assert AllTimely(c2, ss[3..]) && After(c2, ss[3..]) == After(c3, ss[4..]);
    assert AllTimely(c1, ss[2..]) && After(c1, ss[2..]) == After(c2, ss[3..]);
    assert AllTimely(c0, ss[1..]) && After(c0, ss[1..]) == After(c1, ss[2..]);
  }
}
