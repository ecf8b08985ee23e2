/**
 The client together with the server it talks to. The environment is as hostile as the
 transport allows: packets are lost, delivered late, stored without the acknowledgement
 arriving, or refused. It keeps two promises: each socket delivers in order, and once a
 replacement connects, the sockets before it deliver nothing more.
 */
module ExamServer {
  import opened Wrappers
  import opened ExamAnswers
  import opened ExamLink
  import opened ExamRuns

  /** A key in the server's record of one session. */
  datatype Entry = Entry(session: string, key: Key)

  /**
   `wire`: saves on their way, oldest first. `stored`: saves the server wrote. `store`: its
   value for each key of each session, and `writer` the save that wrote it.
   */
  datatype World = World(
    t: Traced,
    wire: seq<nat>,
    stored: set<nat>,
    store: map<Entry, Value>,
    writer: map<Entry, nat>)
  {
    ghost function Emitted(): seq<Save> { t.client.answers.emitted }
    ghost function Factory(): Factory { t.client.link.factory }
  }

  datatype WorldEvent =
    | AtClient(e: Event)
    | Deliver(p: nat, stores: bool)
    | Lose(p: nat)

  ghost predicate ConnectedSocket(w: World, id: nat)
    requires id < |w.Emitted()|
  {
    var i := w.Emitted()[id].socket;
    i < |w.Factory().sockets| && w.Factory().sockets[i].phase == Connected
  }

  /** The server's answers reach only a connected socket. */
  ghost predicate Happens(w: World, we: WorldEvent) {
    match we
    case AtClient(e) =>
      Enabled(w.t.client, e) &&
      (match e
       case SaveAcked(id) => id in w.stored && ConnectedSocket(w, id)
       case SaveRejected(id, _, _) => ConnectedSocket(w, id)
       case _ => true)
    case Deliver(p, _) =>
      && p < |w.wire| && (forall q :: 0 <= q <= p ==> w.wire[q] < |w.Emitted()|)
      && forall q :: 0 <= q < p ==> w.Emitted()[w.wire[q]].socket != w.Emitted()[w.wire[p]].socket
    case Lose(p) => p < |w.wire|
  }

  /** The saves of `wire` sent on socket `i`. */
  ghost function Surviving(wire: seq<nat>, emitted: seq<Save>, i: nat): seq<nat> {
    if wire == [] then []
    else
      var rest := Surviving(wire[1..], emitted, i);
      if wire[0] < |emitted| && emitted[wire[0]].socket == i then [wire[0]] + rest else rest
  }

  function From(lo: nat, hi: nat): (r: seq<nat>)
    requires lo <= hi
    ensures |r| == hi - lo && forall j :: 0 <= j < |r| ==> r[j] == lo + j
  {
    seq(hi - lo, j requires 0 <= j < hi - lo => lo + j)
  }

  ghost function Sent(w: World, e: Event): seq<nat>
    requires Enabled(w.t.client, e)
  {
    var before, after := |w.Emitted()|, |Step(w.t, e).client.answers.emitted|;
    if before <= after then From(before, after) else []
  }

  /** Once a socket connects, only its own saves are still delivered. */
  ghost function Remaining(w: World, e: Event): seq<nat> {
    if e.OnLink? && e.link.SocketConnects? then Surviving(w.wire, w.Emitted(), e.link.i) else w.wire
  }

  ghost function Taken(w: World, p: nat): World
    requires p < |w.wire|
  {
    w.(wire := w.wire[..p] + w.wire[p + 1..])
  }

  /** What a save writes into the record of its own session. */
  function Filed(save: Save): map<Entry, Value> {
    map k | k in save.answer :: Entry(save.session, k) := save.answer[k]
  }

  /** The server writes save `id`. */
  ghost function Stored(w: World, id: nat): World
    requires id < |w.Emitted()|
  {
    var filed := Filed(w.Emitted()[id]);
    w.(stored := w.stored + {id}, store := w.store + filed, writer := w.writer + map e | e in filed :: id)
  }

  ghost function Evolve(w: World, we: WorldEvent): World
    requires Happens(w, we)
  {
    match we
    case AtClient(e) => w.(t := Step(w.t, e), wire := Remaining(w, e) + Sent(w, e))
    case Lose(p) => Taken(w, p)
    case Deliver(p, stores) => if stores then Stored(Taken(w, p), w.wire[p]) else Taken(w, p)
  }

  ghost predicate Plays(w: World, es: seq<WorldEvent>)
    decreases |es|
  {
    es == [] || (Happens(w, es[0]) && Plays(Evolve(w, es[0]), es[1..]))
  }

  ghost function Play(w: World, es: seq<WorldEvent>): World
    requires Plays(w, es)
    decreases |es|
  {
    if es == [] then w else Play(Evolve(w, es[0]), es[1..])
  }

  function Opening(ready: bool, session: string): World {
    World(Mounted(ready, session), [], {}, map[], map[])
  }

  // ----- The transport -----

  ghost predicate WireInOrder(wire: seq<nat>, limit: nat) {
    && (forall p :: 0 <= p < |wire| ==> wire[p] < limit)
    && (forall p, q :: 0 <= p < q < |wire| ==> wire[p] < wire[q])
  }

  ghost predicate OneSocket(wire: seq<nat>, emitted: seq<Save>, live: Option<nat>)
    requires WireInOrder(wire, |emitted|)
  {
    && (forall x, y :: x in wire && y in wire ==> emitted[x].socket == emitted[y].socket)
    && (forall x :: x in wire && live.Some? ==> emitted[x].socket == live.value)
  }

  ghost predicate Transported(w: World) {
    && w.Factory().Valid()
    && WireInOrder(w.wire, |w.Emitted()|)
    && OneSocket(w.wire, w.Emitted(), w.Factory().Live())
    && (forall id, x :: id in w.stored && x in w.wire ==> id < x)
    && (forall id :: id in w.stored ==> id < |w.Emitted()|)
    && (forall id :: id in w.t.ledger.acked ==> id in w.stored)
  }

  /** The server's value for `e` was written by the last stored save of that session that carries the key. */
  ghost predicate WrittenLast(w: World, e: Entry) {
    && (e in w.store <==> e in w.writer)
    && (e in w.writer ==>
          && w.writer[e] in w.stored && w.writer[e] < |w.Emitted()|
          && Writes(w.Emitted()[w.writer[e]], e) && w.store[e] == w.Emitted()[w.writer[e]].answer[e.key])
    && (forall id :: id in w.stored && id < |w.Emitted()| && Writes(w.Emitted()[id], e)
          ==> e in w.writer && id <= w.writer[e])
  }

  predicate Writes(save: Save, e: Entry) {
    save.session == e.session && e.key in save.answer
  }

  predicate SentOn(save: Save, socket: nat, session: string) {
    save.socket == socket && save.session == session && session != ""
  }

  /** `after` extends `before` by saves emitted on `socket` in `session`. */
  ghost predicate Grew(before: seq<Save>, after: seq<Save>, socket: nat, session: string) {
    && before <= after
    && forall n :: |before| <= n < |after| ==> SentOn(after[n], socket, session)
  }

  lemma PrefixTwice(a: seq<Save>, b: seq<Save>, c: seq<Save>)
    requires a <= b <= c
    ensures a <= c && forall n :: 0 <= n < |b| ==> c[n] == b[n]
  {
    assert b == c[..|b|] && a == b[..|a|];
  }

  lemma GrewTwice(a: seq<Save>, b: seq<Save>, c: seq<Save>, socket: nat, session: string)
    requires Grew(a, b, socket, session) && Grew(b, c, socket, session)
    ensures Grew(a, c, socket, session)
  {
    PrefixTwice(a, b, c);
    forall n | |a| <= n < |c| ensures SentOn(c[n], socket, session) {
      if n < |b| {
        assert c[n] == b[n];
      }
    }
  }

  lemma {:induction false} EachOnSocket(a: Answers, session: string, socket: nat,
                                        answer: map<Key, Value>, keys: seq<Key>)
    requires forall k :: k in keys ==> k in answer
    ensures Grew(a.emitted, EmitEach(a, session, socket, answer, keys).emitted, socket, session)
    decreases |keys|
  {
    if keys != [] {
      var next := EmitSave(a, session, socket, map[keys[0] := answer[keys[0]]], false);
      EachOnSocket(next, session, socket, answer, keys[1..]);
      GrewTwice(a.emitted, next.emitted, EmitEach(a, session, socket, answer, keys).emitted, socket, session);
    }
  }

  /** Whatever a step emits goes out on the live socket in the current session, behind everything emitted before. */
  lemma EmitsOnLive(w: World, e: Event)
    requires Happens(w, AtClient(e)) && w.Factory().Valid()
    ensures var d := Step(w.t, e).client;
      var live := d.link.factory.Live();
      if live.Some? then Grew(w.Emitted(), d.answers.emitted, live.value, d.link.session)
      else d.answers.emitted == w.Emitted()
  {
    var c := w.t.client;
    match e
    case SaveRejected(id, reason, keys) =>
      var save := c.answers.emitted[id];
      assert c.link.factory.Live() == Some(save.socket);
      EachOnSocket(c.answers.(open := c.answers.open - {id}), c.link.session, save.socket, save.answer, keys);
    case OnLink(l) =>
      if l.SocketConnects? {
        c.link.factory.HeardKeeps(l.i, Connecting, Connected);
      }
    case _ =>
  }

  lemma {:induction false} SurvivingInOrder(wire: seq<nat>, emitted: seq<Save>, i: nat)
    requires WireInOrder(wire, |emitted|)
    ensures var r := Surviving(wire, emitted, i);
      && WireInOrder(r, |emitted|)
      && (forall p :: 0 <= p < |r| ==> emitted[r[p]].socket == i)
      && (forall x :: x in r ==> x in wire)
    decreases |wire|
  {
    if wire != [] {
      SurvivingInOrder(wire[1..], emitted, i);
      var r, rest := Surviving(wire, emitted, i), Surviving(wire[1..], emitted, i);
      forall p | 0 <= p < |rest| ensures wire[0] < rest[p] {
        assert rest[p] in wire[1..];
      }
    }
  }

  lemma AppendedInOrder(kept: seq<nat>, lo: nat, hi: nat)
    requires WireInOrder(kept, lo) && lo <= hi
    ensures WireInOrder(kept + From(lo, hi), hi)
    ensures forall x :: x in kept + From(lo, hi) <==> x in kept || lo <= x < hi
  {
    var all := kept + From(lo, hi);
    forall x | lo <= x < hi ensures x in all {
      assert all[|kept| + (x - lo)] == x;
    }
  }

  lemma RemovedInOrder(wire: seq<nat>, p: nat, limit: nat)
    requires WireInOrder(wire, limit) && p < |wire|
    ensures var r := wire[..p] + wire[p + 1..];
      && WireInOrder(r, limit)
      && (forall x :: x in r ==> x in wire)
      && (p == 0 ==> forall x :: x in r ==> wire[0] < x)
  {
  }

  /** What was kept stays in front of what the step emitted, and all of it is on one socket. */
  lemma WireStaysOrdered(wire: seq<nat>, kept: seq<nat>, emitted: seq<Save>, after: seq<Save>,
                         before: Option<nat>, live: Option<nat>)
    requires WireInOrder(wire, |emitted|) && OneSocket(wire, emitted, before)
    requires WireInOrder(kept, |emitted|) && forall x :: x in kept ==> x in wire
    requires forall x :: x in kept && live.Some? ==> emitted[x].socket == live.value
    requires emitted <= after
    requires forall n :: |emitted| <= n < |after| ==> live == Some(after[n].socket)
    ensures var all := kept + From(|emitted|, |after|);
      && WireInOrder(all, |after|) && OneSocket(all, after, live)
      && (forall x :: x in all ==> x in wire || |emitted| <= x)
  {
    AppendedInOrder(kept, |emitted|, |after|);
    assert forall x :: x in kept ==> emitted[x] == after[x];
  }

  /** Only the packets of the live socket are kept when there is one. */
  lemma KeptOnLive(w: World, e: Event)
    requires Happens(w, AtClient(e)) && Transported(w)
    ensures var kept, live := Remaining(w, e), Step(w.t, e).client.link.factory.Live();
      && WireInOrder(kept, |w.Emitted()|) && (forall x :: x in kept ==> x in w.wire)
      && (forall x :: x in kept && live.Some? ==> w.Emitted()[x].socket == live.value)
  {
    if e.OnLink? {
      if e.link.SocketConnects? {
        SurvivingInOrder(w.wire, w.Emitted(), e.link.i);
        w.Factory().HeardKeeps(e.link.i, Connecting, Connected);
      } else if LinkNext(w.t.client.link, e.link).factory.Live().Some? {
        LiveOnlyByConnecting(w.t.client.link, e.link);
      }
    }
  }

  lemma ClientStepKeepsTransport(w: World, e: Event)
    requires Happens(w, AtClient(e)) && Transported(w)
    ensures Transported(Evolve(w, AtClient(e)))
  {
    StepKeepsFactory(w.t, e);
    EmitsOnLive(w, e);
    KeptOnLive(w, e);
    var f := Step(w.t, e).client;
    WireStaysOrdered(w.wire, Remaining(w, e), w.Emitted(), f.answers.emitted,
                     w.Factory().Live(), f.link.factory.Live());
    AckedAreStored(w, e);
  }

  lemma AckedAreStored(w: World, e: Event)
    requires Happens(w, AtClient(e)) && Transported(w)
    ensures forall id :: id in LedgerNext(w.t, e).acked ==> id in w.stored
  {
  }

  /** Per-socket order makes the whole wire first in, first out. */
  lemma DeliversOldest(w: World, p: nat, stores: bool)
    requires Happens(w, Deliver(p, stores)) && Transported(w)
    ensures p == 0
  {
    assert w.wire[0] in w.wire && w.wire[p] in w.wire;
  }

  lemma LossKeepsTransport(w: World, p: nat)
    requires p < |w.wire| && Transported(w)
    ensures Transported(Taken(w, p))
    ensures p == 0 ==> forall x :: x in Taken(w, p).wire ==> w.wire[0] < x
  {
    RemovedInOrder(w.wire, p, |w.Emitted()|);
  }

  lemma StoringKeepsTransport(w: World, id: nat)
    requires Transported(w) && id < |w.Emitted()| && forall x :: x in w.wire ==> id < x
    ensures Transported(Stored(w, id))
  {
  }

  lemma DeliveryKeepsTransport(w: World, stores: bool)
    requires Happens(w, Deliver(0, stores)) && Transported(w)
    ensures Transported(Evolve(w, Deliver(0, stores)))
  {
    LossKeepsTransport(w, 0);
    if stores {
      StoringKeepsTransport(Taken(w, 0), w.wire[0]);
    }
  }

  // ----- Agreement -----

  ghost predicate Agreeing(w: World, k: Key) {
    && Transported(w) && PayloadsGiven(w.t) && KeyKept(w.t, k)
    && forall session :: WrittenLast(w, Entry(session, k))
  }

  lemma ClientStepKeepsWriter(w: World, e: Event, entry: Entry)
    requires Happens(w, AtClient(e)) && Transported(w) && WrittenLast(w, entry)
    ensures WrittenLast(Evolve(w, AtClient(e)), entry)
  {
    EmitsOnLive(w, e);
    var before, after := w.Emitted(), Step(w.t, e).client.answers.emitted;
    assert forall n :: 0 <= n < |before| ==> before[n] == after[n];
  }

  lemma DeliveryKeepsWriter(w: World, stores: bool, entry: Entry)
    requires Happens(w, Deliver(0, stores)) && Transported(w) && WrittenLast(w, entry)
    ensures WrittenLast(Evolve(w, Deliver(0, stores)), entry)
  {
    assert w.wire[0] in w.wire;
    FiledIs(w.Emitted()[w.wire[0]], entry);
  }

  lemma FiledIs(save: Save, e: Entry)
    ensures e in Filed(save) <==> Writes(save, e)
    ensures Writes(save, e) ==> Filed(save)[e] == save.answer[e.key]
  {
    if Writes(save, e) {
      assert Entry(save.session, e.key) in Filed(save);
    }
  }

  lemma EventKeepsAgreeing(w: World, we: WorldEvent, k: Key)
    requires Happens(w, we) && Agreeing(w, k)
    ensures Agreeing(Evolve(w, we), k)
  {
    match we
    case AtClient(e) =>
      ClientStepKeepsTransport(w, e);
      forall session ensures WrittenLast(Evolve(w, we), Entry(session, k)) {
        ClientStepKeepsWriter(w, e, Entry(session, k));
      }
      StepKeepsPayloads(w.t, e);
      StepKeepsKey(w.t, e, k);
    case Deliver(p, stores) =>
      DeliversOldest(w, p, stores);
      DeliveryKeepsTransport(w, stores);
      forall session ensures WrittenLast(Evolve(w, we), Entry(session, k)) {
        DeliveryKeepsWriter(w, stores, Entry(session, k));
      }
    case Lose(p) => LossKeepsTransport(w, p);
  }

  lemma {:induction false} PlayKeepsAgreeing(w: World, es: seq<WorldEvent>, k: Key)
    requires Plays(w, es) && Agreeing(w, k)
    ensures Agreeing(Play(w, es), k)
    decreases |es|
  {
    if es != [] {
      EventKeepsAgreeing(w, es[0], k);
      PlayKeepsAgreeing(Evolve(w, es[0]), es[1..], k);
    }
  }

  /** Key by key: nothing queued and no acknowledgement awaited. */
  ghost predicate Settled(w: World, k: Key) {
    && k !in w.t.client.answers.pending
    && forall n :: n in w.t.client.answers.open && n < |w.Emitted()| ==> k !in w.Emitted()[n].answer
  }

  /** The newest answer of `k` is settled: no kick, and since it was given no final rejection and no split over it. */
  ghost predicate Delivered(w: World, k: Key) {
    var h := w.t.ledger;
    && !w.t.client.link.kicked && Settled(w, k)
    && k in h.given && k !in h.rejected && k !in h.overtaken
  }

  lemma NewestIsWritten(w: World, k: Key)
    requires Agreeing(w, k) && Delivered(w, k)
    ensures var n := Last(w.Emitted(), k);
      && n >= 0
      && var e := Entry(w.Emitted()[n].session, k);
         e in w.store && w.store[e] == w.t.ledger.given[k] && e in w.writer && w.writer[e] == n
  {
    var n := Last(w.Emitted(), k);
    assert n in w.t.ledger.acked && n in w.stored;
    var e := Entry(w.Emitted()[n].session, k);
    assert WrittenLast(w, e);
  }

  /**
   Agreement at quiescence. In every run, for every key that is settled, the server's value in
   the session of the key's last save is the last answer the user gave; unless the client was
   kicked, or since that answer the server finally rejected it or a split batch put an older
   value over it.
   */
  lemma SettledAnswersAgree(ready: bool, mounted: string, es: seq<WorldEvent>, k: Key)
    requires Plays(Opening(ready, mounted), es)
    ensures var w := Play(Opening(ready, mounted), es);
      Delivered(w, k) ==>
        var n := Last(w.Emitted(), k);
        && n >= 0
        && var e := Entry(w.Emitted()[n].session, k);
           && e in w.store && w.store[e] == w.t.ledger.given[k]
           && e in w.writer && w.writer[e] == n
  {
    MountedKept(ready, mounted, k);
    PlayKeepsAgreeing(Opening(ready, mounted), es, k);
    var w := Play(Opening(ready, mounted), es);
    if Delivered(w, k) {
      NewestIsWritten(w, k);
    }
  }
}
