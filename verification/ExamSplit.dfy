/** The run in which splitting a rejected batch loses the newest answer. */
module ExamSplit {
  import opened Wrappers
  import opened ExamAnswers
  import opened ExamLink
  import opened ExamRuns

  ghost predicate Shows(t: Traced, s: string, f: Factory, a: Answers, given: map<Key, Value>) {
    && t.client.link.factory == f && t.client.link.session == s && !t.client.link.kicked
    && t.client.answers == a && t.ledger.given == given && t.ledger.rejected == {} && t.ledger.acked == {}
  }

  /** Two answers given before there is a socket. */
  function Offline(s: string, a: Key, x: Value, b: Key, y: Value): seq<Event> {
    [OnLink(Props(true, s, false, true))] + [Answer(a, x)] + [Answer(b, y)]
  }

  lemma OfflineQueues(s: string, a: Key, x: Value, b: Key, y: Value)
    requires a != b && s != ""
    ensures Legal(Mounted(true, s), Offline(s, a, x, b, y))
    ensures Shows(Run(Mounted(true, s), Offline(s, a, x, b, y)), s, Factory(1, {1}, [], None),
                  Answers(map[a := x, b := y], map[], false, [], {}), map[a := x, b := y])
  {
    var t0 := Mounted(true, s);
    assert Legal(t0, []) && Run(t0, []) == t0;
    var e1: seq<Event> := [OnLink(Props(true, s, false, true))];
    RunThen(t0, [], e1[0]);
    assert [] + e1 == e1;
    assert Shows(Run(t0, e1), s, Factory(1, {1}, [], None), Answers(map[], map[], false, [], {}), map[]);
    RunThen(t0, e1, Answer(a, x));
    RunThen(t0, e1 + [Answer(a, x)], Answer(b, y));
  }

  function Batch(s: string, a: Key, x: Value, b: Key, y: Value): Save {
    Save(0, s, map[a := x, b := y], true)
  }

  /** The queue just after the batch left, and after `a` was answered again. */
  function Flushed(s: string, a: Key, x: Value, b: Key, y: Value): Answers {
    Answers(map[], map[a := x, b := y], false, [Batch(s, a, x, b, y)], {0})
  }

  function Reanswered(s: string, a: Key, x: Value, b: Key, y: Value, z: Value): Answers {
    Answers(map[], map[a := z, b := y], false, [Batch(s, a, x, b, y), Save(0, s, map[a := z], false)], {0, 1})
  }

  lemma QueueSteps(s: string, a: Key, x: Value, b: Key, y: Value, z: Value)
    requires a != b && s != ""
    ensures Flush(Answers(map[a := x, b := y], map[], false, [], {}), s, 0) == Flushed(s, a, x, b, y)
    ensures QueueAnswer(Flushed(s, a, x, b, y), false, s, Some(0), a, z) == Reanswered(s, a, x, b, y, z)
  {
    assert map[] + map[a := x, b := y] == map[a := x, b := y];
    assert map[a := x, b := y] + map[a := z] == map[a := z, b := y];
    var none: map<Key, Value> := map[];
    assert none - {a} == none;
    assert {0} + {1} == {0, 1};
  }

  /** The socket connects, and both answers leave as one batch. */
  function Connection(s: string, a: Key, x: Value, b: Key, y: Value): seq<Event> {
    Offline(s, a, x, b, y) + [OnLink(Token(1))] + [OnLink(SocketConnects(0))]
  }

  lemma ConnectSends(s: string, a: Key, x: Value, b: Key, y: Value)
    requires a != b && s != ""
    ensures Legal(Mounted(true, s), Connection(s, a, x, b, y))
    ensures Shows(Run(Mounted(true, s), Connection(s, a, x, b, y)), s,
                  Factory(1, {}, [Socket(Connected, true, false)], Some(0)),
                  Flushed(s, a, x, b, y), map[a := x, b := y])
  {
    var t0, e0 := Mounted(true, s), Offline(s, a, x, b, y);
    OfflineQueues(s, a, x, b, y);
    QueueSteps(s, a, x, b, y, x);
    RunThen(t0, e0, OnLink(Token(1)));
    var e1 := e0 + [OnLink(Token(1))];
    assert Run(t0, e1).client.link.factory == Factory(1, {}, [Socket(Connecting, true, false)], Some(0));
    RunThen(t0, e1, OnLink(SocketConnects(0)));
  }

  /** Then `a` is answered again. */
  function Online(s: string, a: Key, x: Value, b: Key, y: Value, z: Value): seq<Event> {
    Connection(s, a, x, b, y) + [Answer(a, z)]
  }

  lemma OnlineSends(s: string, a: Key, x: Value, b: Key, y: Value, z: Value)
    requires a != b && s != ""
    ensures Legal(Mounted(true, s), Online(s, a, x, b, y, z))
    ensures Shows(Run(Mounted(true, s), Online(s, a, x, b, y, z)), s,
                  Factory(1, {}, [Socket(Connected, true, false)], Some(0)),
                  Reanswered(s, a, x, b, y, z), map[a := z, b := y])
  {
    ConnectSends(s, a, x, b, y);
    QueueSteps(s, a, x, b, y, z);
    RunThen(Mounted(true, s), Connection(s, a, x, b, y), Answer(a, z));
    assert map[a := x, b := y][a := z] == map[a := z, b := y];
  }

  function Split(s: string, a: Key, x: Value, b: Key, y: Value, z: Value): Answers {
    Rejected(Reanswered(s, a, x, b, y, z), false, s, 0, "TOO_MANY_ANSWERS", [a, b])
  }

  lemma BatchSplits(s: string, a: Key, x: Value, b: Key, y: Value)
    requires a != b
    ensures Splits(Batch(s, a, x, b, y), "TOO_MANY_ANSWERS")
  {
    var batch := Batch(s, a, x, b, y).answer;
    assert batch.Keys == {a, b} && |batch| == |batch.Keys| == 2;
  }

  /** The queue once the old value of `a` went out again, and then `b`. */
  function OldAgain(s: string, a: Key, x: Value, b: Key, y: Value, z: Value): Answers {
    Answers(map[], map[a := x, b := y], false,
            [Batch(s, a, x, b, y), Save(0, s, map[a := z], false), Save(0, s, map[a := x], false)], {1, 2})
  }

  function BothAgain(s: string, a: Key, x: Value, b: Key, y: Value, z: Value): Answers {
    Answers(map[], map[a := x, b := y], false,
            [Batch(s, a, x, b, y), Save(0, s, map[a := z], false),
             Save(0, s, map[a := x], false), Save(0, s, map[b := y], false)], {1, 2, 3})
  }

  lemma SplitSteps(s: string, a: Key, x: Value, b: Key, y: Value, z: Value)
    requires a != b && s != ""
    ensures EmitSave(Reanswered(s, a, x, b, y, z).(open := {1}), s, 0, map[a := x], false) == OldAgain(s, a, x, b, y, z)
    ensures EmitSave(OldAgain(s, a, x, b, y, z), s, 0, map[b := y], false) == BothAgain(s, a, x, b, y, z)
  {
    assert map[a := z, b := y] + map[a := x] == map[a := x, b := y];
    assert map[a := x, b := y] + map[b := y] == map[a := x, b := y];
    assert {1} + {2} == {1, 2} && {1, 2} + {3} == {1, 2, 3};
  }

  lemma SplitPutsOldOverNew(s: string, a: Key, x: Value, b: Key, y: Value, z: Value)
    requires a != b && s != ""
    ensures Split(s, a, x, b, y, z) == BothAgain(s, a, x, b, y, z)
  {
    BatchSplits(s, a, x, b, y);
    SplitSteps(s, a, x, b, y, z);
    var batch := Batch(s, a, x, b, y).answer;
    assert {0, 1} - {0} == {1};
    assert [a, b][1..] == [b] && [b][1..] == [];
    assert EmitEach(OldAgain(s, a, x, b, y, z), s, 0, batch, [b]) == BothAgain(s, a, x, b, y, z);
  }

  lemma TimeoutDropsNew(s: string, a: Key, x: Value, b: Key, y: Value, z: Value)
    requires a != b && s != "" && x != z
    ensures var r := Split(s, a, x, b, y, z);
      1 < |r.emitted| && Unanswered(r, false, 1) == r.(open := {2, 3}, retryArmed := true)
  {
    SplitPutsOldOverNew(s, a, x, b, y, z);
    assert Requeued(Split(s, a, x, b, y, z), map[a := z]) == map[];
    assert {1, 2, 3} - {1} == {2, 3};
  }

  /** Then the server refuses the batch. */
  function Refused(s: string, a: Key, x: Value, b: Key, y: Value, z: Value): seq<Event> {
    Online(s, a, x, b, y, z) + [SaveRejected(0, "TOO_MANY_ANSWERS", [a, b])]
  }

  lemma SplitRuns(s: string, a: Key, x: Value, b: Key, y: Value, z: Value)
    requires a != b && s != ""
    ensures Legal(Mounted(true, s), Refused(s, a, x, b, y, z))
    ensures Shows(Run(Mounted(true, s), Refused(s, a, x, b, y, z)), s,
                  Factory(1, {}, [Socket(Connected, true, false)], Some(0)),
                  Split(s, a, x, b, y, z), map[a := z, b := y])
  {
    OnlineSends(s, a, x, b, y, z);
    BatchSplits(s, a, x, b, y);
    RunThen(Mounted(true, s), Online(s, a, x, b, y, z), SaveRejected(0, "TOO_MANY_ANSWERS", [a, b]));
  }

  /**
   The server refuses the batch as too large and the save of the new answer times out. The
   split put the old value over the new one, so the staleness test of the timeout path now
   drops the new one: it is neither queued, nor in flight, nor acknowledged, nor reported
   as rejected, while the old value is on its way.
   */
  lemma SplitLosesNewestAnswer(s: string, a: Key, x: Value, b: Key, y: Value, z: Value)
    requires a != b && s != "" && x != z
    ensures var es := Refused(s, a, x, b, y, z) + [SaveUnanswered(1)];
      && Legal(Mounted(true, s), es)
      && var t := Run(Mounted(true, s), es);
         && a in t.ledger.given && t.ledger.given[a] == z && !t.client.link.kicked
         && a !in t.client.answers.pending && a !in t.ledger.rejected
         && (forall n :: !Delivers(t, n, a))
         && 2 in t.client.answers.open && |t.client.answers.emitted| > 2
         && t.client.answers.emitted[2] == Save(0, s, map[a := x], false)
  {
    SplitRuns(s, a, x, b, y, z);
    SplitPutsOldOverNew(s, a, x, b, y, z);
    TimeoutDropsNew(s, a, x, b, y, z);
    RunThen(Mounted(true, s), Refused(s, a, x, b, y, z), SaveUnanswered(1));
    var u := Run(Mounted(true, s), Refused(s, a, x, b, y, z) + [SaveUnanswered(1)]);
    assert u.client.answers.emitted[3] == Save(0, s, map[b := y], false);
  }
}
