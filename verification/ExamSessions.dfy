/** Which session's record has the answers that are settled, when the session id of the exam changes. */
module ExamSessions {
  import opened Wrappers
  import opened ExamAnswers
  import opened ExamLink
  import opened ExamReconnect
  import opened ExamRuns
  import opened ExamServer

  // ----- The records, session by session -----

  /** The record of `e` was written by save `n`. */
  ghost predicate WrittenBy(w: World, e: Entry, n: nat) {
    && e in w.writer && w.writer[e] == n
    && n < |w.Emitted()| && e.key in w.Emitted()[n].answer
    && e in w.store && w.store[e] == w.Emitted()[n].answer[e.key]
  }

  /**
   For a settled key the record of a session was last written by the save of the newest answer
   exactly when that save went out in the session. In the record of any other session the key is
   missing, or was written by an earlier save.
   */
  lemma SessionHasItsOwn(ready: bool, mounted: string, es: seq<WorldEvent>, k: Key, session: string)
    requires Plays(Opening(ready, mounted), es)
    ensures var w, e := Play(Opening(ready, mounted), es), Entry(session, k);
      Delivered(w, k) ==>
        var n := Last(w.Emitted(), k);
        && n >= 0 && w.Emitted()[n].answer[k] == w.t.ledger.given[k]
        && (WrittenBy(w, e, n) <==> w.Emitted()[n].session == session)
        && (w.Emitted()[n].session != session && e in w.store ==> exists m :: 0 <= m < n && WrittenBy(w, e, m))
        && (e !in w.store ==> forall m :: m in w.stored && m < |w.Emitted()| ==> !Writes(w.Emitted()[m], e))
  {
    SettledAnswersAgree(ready, mounted, es, k);
    MountedKept(ready, mounted, k);
    PlayKeepsAgreeing(Opening(ready, mounted), es, k);
    var w, e := Play(Opening(ready, mounted), es), Entry(session, k);
    if Delivered(w, k) {
      assert WrittenLast(w, e);
      if e in w.store {
        assert WrittenBy(w, e, w.writer[e]);
      }
    }
  }

  // ----- One session -----

  /** The props bring no other session id than `session`. */
  ghost predicate StaysIn(we: WorldEvent, session: string) {
    we.AtClient? && we.e.OnLink? && we.e.link.Props? ==> we.e.link.session in ["", session]
  }

  /** Every save so far names the session of the exam. */
  ghost predicate OneSession(w: World, session: string) {
    && w.t.client.link.session in ["", session]
    && forall n :: 0 <= n < |w.Emitted()| ==> w.Emitted()[n].session == session
  }

  lemma LinkKeepsSession(w: World, e: Event, session: string)
    requires Happens(w, AtClient(e)) && StaysIn(AtClient(e), session) && w.t.client.link.session in ["", session]
    ensures Step(w.t, e).client.link.session in ["", session]
  {
    if e.OnLink? {
      MemoryEffect(w.t.client.link, e.link);
      assert Step(w.t, e).client.link == LinkNext(w.t.client.link, e.link);
    }
  }

  lemma ClientStepKeepsSession(w: World, e: Event, session: string)
    requires Happens(w, AtClient(e)) && StaysIn(AtClient(e), session)
    requires w.Factory().Valid() && OneSession(w, session)
    ensures OneSession(Evolve(w, AtClient(e)), session)
  {
    EmitsOnLive(w, e);
    LinkKeepsSession(w, e, session);
    var before, after := w.Emitted(), Step(w.t, e).client.answers.emitted;
    forall n | 0 <= n < |after| ensures after[n].session == session {
      if n < |before| {
        assert before[n] == after[n];
      }
    }
  }

  lemma EventKeepsSession(w: World, we: WorldEvent, session: string)
    requires Happens(w, we) && StaysIn(we, session) && w.Factory().Valid() && OneSession(w, session)
    ensures OneSession(Evolve(w, we), session)
  {
    match we
    case AtClient(e) => ClientStepKeepsSession(w, e, session);
    case _ => assert Evolve(w, we).Emitted() == w.Emitted();
  }

  lemma {:induction false} PlayKeepsSession(w: World, es: seq<WorldEvent>, k: Key, session: string)
    requires Plays(w, es) && (forall we :: we in es ==> StaysIn(we, session))
    requires Agreeing(w, k) && OneSession(w, session)
    ensures OneSession(Play(w, es), session)
    decreases |es|
  {
    if es != [] {
      EventKeepsSession(w, es[0], session);
      EventKeepsAgreeing(w, es[0], k);
      PlayKeepsSession(Evolve(w, es[0]), es[1..], k, session);
    }
  }

  /** While the exam keeps its session id, the record of that session has every settled answer. */
  lemma OneSessionAgrees(ready: bool, mounted: string, es: seq<WorldEvent>, k: Key, session: string)
    requires mounted in ["", session] && Plays(Opening(ready, mounted), es)
    requires forall we :: we in es ==> StaysIn(we, session)
    ensures var w, e := Play(Opening(ready, mounted), es), Entry(session, k);
      Delivered(w, k) ==> e in w.store && w.store[e] == w.t.ledger.given[k]
  {
    MountedKept(ready, mounted, k);
    PlayKeepsSession(Opening(ready, mounted), es, k, session);
    SettledAnswersAgree(ready, mounted, es, k);
  }

  // ----- A change of session -----

  lemma {:induction false} PlayThen(w: World, es: seq<WorldEvent>, we: WorldEvent)
    requires Plays(w, es) && Happens(Play(w, es), we)
    ensures Plays(w, es + [we]) && Play(w, es + [we]) == Evolve(Play(w, es), we)
    decreases |es|
  {
    if es == [] {
      assert [we][1..] == [];
    } else {
      PlayThen(Evolve(w, es[0]), es[1..], we);
      assert (es + [we])[1..] == es[1..] + [we];
    }
  }

  ghost predicate Looks(w: World, session: string, f: Factory, a: Answers, given: map<Key, Value>) {
    && w.Factory() == f && w.t.client.link.session == session && !w.t.client.link.kicked
    && w.t.client.answers == a
    && w.t.ledger.given == given && w.t.ledger.rejected == {} && w.t.ledger.overtaken == {}
  }

  ghost predicate Server(w: World, wire: seq<nat>, stored: set<nat>, store: map<Entry, Value>) {
    w.wire == wire && w.stored == stored && w.store == store
  }

  function Joined(s: string): seq<WorldEvent> {
    [AtClient(OnLink(Props(true, s, false, true)))] + [AtClient(OnLink(Token(1)))]
    + [AtClient(OnLink(SocketConnects(0)))]
  }

  lemma JoinedLooks(s: string)
    requires s != ""
    ensures Plays(Opening(true, s), Joined(s))
    ensures var w := Play(Opening(true, s), Joined(s));
      && Looks(w, s, Factory(1, {}, [Socket(Connected, true, false)], Some(0)),
               Answers(map[], map[], false, [], {}), map[])
      && Server(w, [], {}, map[]) && w.t.client.link.active
  {
    var w0 := Opening(true, s);
    var e1: seq<WorldEvent> := [AtClient(OnLink(Props(true, s, false, true)))];
    assert Plays(w0, []) && Play(w0, []) == w0 && [] + e1 == e1;
    PlayThen(w0, [], e1[0]);
    assert Looks(Play(w0, e1), s, Factory(1, {1}, [], None), Answers(map[], map[], false, [], {}), map[]);
    PlayThen(w0, e1, AtClient(OnLink(Token(1))));
    var e2 := e1 + [AtClient(OnLink(Token(1)))];
    assert Looks(Play(w0, e2), s, Factory(1, {}, [Socket(Connecting, true, false)], Some(0)),
                 Answers(map[], map[], false, [], {}), map[]);
    PlayThen(w0, e2, AtClient(OnLink(SocketConnects(0))));
  }

  /** One answer is given, stored and acknowledged. */
  function Answered(s: string, k: Key, v: Value): seq<WorldEvent> {
    Joined(s) + [AtClient(Answer(k, v))]
  }

  function Received(s: string, k: Key, v: Value): seq<WorldEvent> {
    Answered(s, k, v) + [Deliver(0, true)]
  }

  function Saved(s: string, k: Key, v: Value): seq<WorldEvent> {
    Received(s, k, v) + [AtClient(SaveAcked(0))]
  }

  const JOINED := Factory(1, {}, [Socket(Connected, true, false)], Some(0))

  function SavedAnswers(s: string, k: Key, v: Value, open: set<nat>): Answers {
    Answers(map[], map[k := v], false, [Save(0, s, map[k := v], false)], open)
  }

  lemma AnsweredLooks(s: string, k: Key, v: Value)
    requires s != ""
    ensures Plays(Opening(true, s), Answered(s, k, v))
    ensures var w := Play(Opening(true, s), Answered(s, k, v));
      && Looks(w, s, JOINED, SavedAnswers(s, k, v, {0}), map[k := v])
      && Server(w, [0], {}, map[]) && w.t.client.link.active
  {
    JoinedLooks(s);
    PlayThen(Opening(true, s), Joined(s), AtClient(Answer(k, v)));
    var none: map<Key, Value> := map[];
    assert none - {k} == none;
  }

  lemma DeliveryWrites(w: World)
    requires |w.wire| == 1 && w.wire[0] < |w.Emitted()|
    ensures Happens(w, Deliver(0, true))
    ensures var d := Evolve(w, Deliver(0, true));
      d.t == w.t && Server(d, [], w.stored + {w.wire[0]}, w.store + Filed(w.Emitted()[w.wire[0]]))
  {
  }

  lemma ReceivedLooks(s: string, k: Key, v: Value)
    requires s != ""
    ensures Plays(Opening(true, s), Received(s, k, v))
    ensures var w := Play(Opening(true, s), Received(s, k, v));
      && Looks(w, s, JOINED, SavedAnswers(s, k, v, {0}), map[k := v])
      && Server(w, [], {0}, map[Entry(s, k) := v]) && w.t.client.link.active
  {
    AnsweredLooks(s, k, v);
    DeliveryWrites(Play(Opening(true, s), Answered(s, k, v)));
    PlayThen(Opening(true, s), Answered(s, k, v), Deliver(0, true));
    assert Filed(Save(0, s, map[k := v], false)) == map[Entry(s, k) := v];
  }

  lemma SavedLooks(s: string, k: Key, v: Value)
    requires s != ""
    ensures Plays(Opening(true, s), Saved(s, k, v))
    ensures var w := Play(Opening(true, s), Saved(s, k, v));
      && Looks(w, s, JOINED, SavedAnswers(s, k, v, {}), map[k := v])
      && Server(w, [], {0}, map[Entry(s, k) := v]) && w.t.client.link.active
  {
    ReceivedLooks(s, k, v);
    PlayThen(Opening(true, s), Received(s, k, v), AtClient(SaveAcked(0)));
    assert {0} - {0} == {};
  }

  /** Then the props bring another session, and the client joins it. */
  function Switched(s: string, k: Key, v: Value, next: string): seq<WorldEvent> {
    Saved(s, k, v) + [AtClient(OnLink(Props(true, next, false, true)))]
  }

  function Opened(s: string, k: Key, v: Value, next: string): seq<WorldEvent> {
    Switched(s, k, v, next) + [AtClient(OnLink(Token(3)))]
  }

  function Moved(s: string, k: Key, v: Value, next: string): seq<WorldEvent> {
    Opened(s, k, v, next) + [AtClient(OnLink(SocketConnects(1)))]
  }

  lemma SwitchedLooks(s: string, k: Key, v: Value, next: string)
    requires s != "" && next != "" && s != next
    ensures Plays(Opening(true, s), Switched(s, k, v, next))
    ensures var w := Play(Opening(true, s), Switched(s, k, v, next));
      && Looks(w, next, Factory(3, {3}, [CLOSED], None), SavedAnswers(s, k, v, {}), map[k := v])
      && Server(w, [], {0}, map[Entry(s, k) := v])
  {
    SavedLooks(s, k, v);
    PlayThen(Opening(true, s), Saved(s, k, v), AtClient(OnLink(Props(true, next, false, true))));
  }

  lemma OpenedLooks(s: string, k: Key, v: Value, next: string)
    requires s != "" && next != "" && s != next
    ensures Plays(Opening(true, s), Opened(s, k, v, next))
    ensures var w := Play(Opening(true, s), Opened(s, k, v, next));
      && Looks(w, next, Factory(3, {}, [CLOSED, Socket(Connecting, true, false)], Some(1)),
               SavedAnswers(s, k, v, {}), map[k := v])
      && Server(w, [], {0}, map[Entry(s, k) := v])
  {
    SwitchedLooks(s, k, v, next);
    PlayThen(Opening(true, s), Switched(s, k, v, next), AtClient(OnLink(Token(3))));
  }

  /**
   An answer acknowledged in one session is not sent again in the next. The client has joined
   that on a live socket, nothing is queued and nothing is on its way, and the record of the
   new session lacks the answer.
   */
  lemma NewSessionLacksAnswer(s: string, k: Key, v: Value, next: string)
    requires s != "" && next != "" && s != next
    ensures Plays(Opening(true, s), Moved(s, k, v, next))
    ensures var w := Play(Opening(true, s), Moved(s, k, v, next));
      && Delivered(w, k) && w.t.ledger.given == map[k := v]
      && w.t.client.link.session == next && w.Factory().Live() == Some(1)
      && w.t.client.answers.pending == map[] && w.wire == []
      && Entry(next, k) !in w.store && w.store == map[Entry(s, k) := v]
  {
    OpenedLooks(s, k, v, next);
    PlayThen(Opening(true, s), Opened(s, k, v, next), AtClient(OnLink(SocketConnects(1))));
  }
}
