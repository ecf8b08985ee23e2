/**
 The whole exam client as a transition system: every user action, timer, socket event and
 acknowledgement is one step, in any order the environment can produce.
 */
module ExamRuns {
  import opened Wrappers
  import opened ExamAnswers
  import opened ExamLink

  const MAX_PENDING_VIOLATIONS: nat := 200

  /** A violation held back while offline; `what` stands for everything recorded about it. */
  datatype Violation = Violation(session: string, what: int)

  /** A violation handed to the socket; `late`: it came out of the queue. */
  datatype Report = Report(session: string, what: int, late: bool)

  datatype Client = Client(link: Link, answers: Answers, queued: seq<Violation>, reported: seq<Report>)

  function LogViolation(c: Client, what: int): Client {
    if c.link.kicked then c
    else if c.link.factory.Live().Some? && c.link.session != "" then
      c.(reported := c.reported + [Report(c.link.session, what, false)])
    else if |c.queued| < MAX_PENDING_VIOLATIONS then
      c.(queued := c.queued + [Violation(c.link.session, what)])
    else c
  }

  function ReportAll(queued: seq<Violation>, session: string): (r: seq<Report>)
    ensures |r| == |queued|
    ensures forall i :: 0 <= i < |r| ==> r[i] == Report(session, queued[i].what, true)
  {
    seq(|queued|, i requires 0 <= i < |queued| => Report(session, queued[i].what, true))
  }

  /** The connect handler: the connection itself, then both queues, if there is a session. */
  function OnConnect(c: Client, i: nat): Client
    requires i < |c.link.factory.sockets|
  {
    var joined := c.(link := Connects(c.link, i));
    if c.link.session == "" then joined
    else joined.(answers := Flush(c.answers, c.link.session, i),
                 queued := [], reported := c.reported + ReportAll(c.queued, c.link.session))
  }

  /** The cleanup of the main effect also stops the save-retry timer. */
  function StopRetry(c: Client): Answers {
    if c.link.active then c.answers.(retryArmed := false) else c.answers
  }

  datatype Event =
    | OnLink(link: LinkEvent)
    | Answer(key: Key, value: Value)
    | Violate(what: int)
    | SaveUnanswered(id: nat)
    | SaveAcked(id: nat)
    | SaveRejected(id: nat, reason: string, keys: seq<Key>)
    | RetryTimer

  ghost predicate Enabled(c: Client, e: Event) {
    match e
    case OnLink(l) => Possible(c.link, l)
    case SaveUnanswered(id) => id in c.answers.open && id < |c.answers.emitted|
    case SaveAcked(id) => id in c.answers.open && id < |c.answers.emitted|
    case SaveRejected(id, _, keys) =>
      id in c.answers.open && id < |c.answers.emitted| && Enumerates(keys, c.answers.emitted[id].answer)
    case RetryTimer => c.answers.retryArmed
    case _ => true
  }

  ghost function Next(c: Client, e: Event): Client
    requires Enabled(c, e)
  {
    match e
    case OnLink(l) =>
      (match l
       case SocketConnects(i) => OnConnect(c, i)
       case Props(_, _, _, _) => c.(link := LinkNext(c.link, l), answers := StopRetry(c))
       case Unmount => c.(link := LinkNext(c.link, l), answers := StopRetry(c))
       case _ => c.(link := LinkNext(c.link, l)))
    case Answer(k, v) =>
      c.(answers := QueueAnswer(c.answers, c.link.kicked, c.link.session, c.link.factory.Live(), k, v))
    case Violate(what) => LogViolation(c, what)
    case SaveUnanswered(id) => c.(answers := Unanswered(c.answers, c.link.kicked, id))
    case SaveAcked(id) => c.(answers := Acked(c.answers, id))
    case SaveRejected(id, reason, keys) =>
      c.(answers := Rejected(c.answers, c.link.kicked, c.link.session, id, reason, keys))
    case RetryTimer => c.(answers := RetryFires(c.answers, c.link.session, c.link.factory.Live()))
  }

  // ----- Runs, with their history -----

  /** `accepted`: the violations that were not dropped, in the order they were raised. */
  datatype Traced = Traced(client: Client, ledger: Ledger, accepted: seq<int>)

  ghost function LedgerNext(t: Traced, e: Event): Ledger
    requires Enabled(t.client, e)
  {
    var c := t.client;
    match e
    case Answer(k, v) => GiveAnswer(t.ledger, c.link.kicked, k, v)
    case SaveAcked(id) => NoteAcked(t.ledger, id)
    case SaveRejected(id, reason, _) =>
      NoteRejected(t.ledger, c.answers, c.link.kicked, c.link.session, id, reason)
    case _ => t.ledger
  }

  ghost function Step(t: Traced, e: Event): Traced
    requires Enabled(t.client, e)
  {
    var next := Next(t.client, e);
    Traced(next, LedgerNext(t, e),
           if e.Violate? && next != t.client then t.accepted + [e.what] else t.accepted)
  }

  ghost predicate Legal(t: Traced, es: seq<Event>)
    decreases |es|
  {
    es == [] || (Enabled(t.client, es[0]) && Legal(Step(t, es[0]), es[1..]))
  }

  ghost function Run(t: Traced, es: seq<Event>): Traced
    requires Legal(t, es)
    decreases |es|
  {
    if es == [] then t else Run(Step(t, es[0]), es[1..])
  }

  lemma {:induction false} RunThen(t: Traced, es: seq<Event>, e: Event)
    requires Legal(t, es) && Enabled(Run(t, es).client, e)
    ensures Legal(t, es + [e]) && Run(t, es + [e]) == Step(Run(t, es), e)
    decreases |es|
  {
    if es == [] {
      assert [e][1..] == [];
    } else {
      RunThen(Step(t, es[0]), es[1..], e);
      assert (es + [e])[1..] == es[1..] + [e];
    }
  }

  /** A freshly mounted hook, before its effects ran. */
  function Mounted(ready: bool, session: string): Traced {
    Traced(
      Client(Link(false, ready, session, false, false, "", Idle, Factory(0, {}, [], None), Budget(false, 0, 0, 0)),
             Answers(map[], map[], false, [], {}), [], []),
      Ledger(map[], {}, {}, {}), [])
  }

  // ----- Answers -----

  ghost predicate KeyKept(t: Traced, k: Key) {
    Kept(t.client.answers, t.ledger, t.client.link.kicked, k)
  }

  ghost predicate PayloadsGiven(t: Traced) {
    && OpenEmitted(t.client.answers)
    && (forall n, k :: 0 <= n < |t.client.answers.emitted| && k in t.client.answers.emitted[n].answer
          ==> k in t.ledger.given)
    && (forall k :: k in t.client.answers.pending ==> k in t.ledger.given)
  }

  lemma EmitKeepsPayloads(a: Answers, session: string, socket: nat, answer: map<Key, Value>, isBatch: bool,
                          given: map<Key, Value>)
    requires OpenEmitted(a)
    requires forall n, k :: 0 <= n < |a.emitted| && k in a.emitted[n].answer ==> k in given
    requires forall k :: k in a.pending ==> k in given
    requires forall k :: k in answer ==> k in given
    ensures var b := EmitSave(a, session, socket, answer, isBatch);
      && OpenEmitted(b)
      && (forall n, k :: 0 <= n < |b.emitted| && k in b.emitted[n].answer ==> k in given)
      && (forall k :: k in b.pending ==> k in given)
  {
  }

  lemma {:induction false} EmitEachKeepsPayloads(a: Answers, session: string, socket: nat,
                                                 answer: map<Key, Value>, keys: seq<Key>, given: map<Key, Value>)
    requires forall k :: k in keys ==> k in answer
    requires OpenEmitted(a)
    requires forall n, k :: 0 <= n < |a.emitted| && k in a.emitted[n].answer ==> k in given
    requires forall k :: k in a.pending ==> k in given
    requires forall k :: k in answer ==> k in given
    ensures var b := EmitEach(a, session, socket, answer, keys);
      && OpenEmitted(b)
      && (forall n, k :: 0 <= n < |b.emitted| && k in b.emitted[n].answer ==> k in given)
      && (forall k :: k in b.pending ==> k in given)
    decreases |keys|
  {
    if keys != [] {
      var one := map[keys[0] := answer[keys[0]]];
      EmitKeepsPayloads(a, session, socket, one, false, given);
      EmitEachKeepsPayloads(EmitSave(a, session, socket, one, false), session, socket, answer, keys[1..], given);
    }
  }

  lemma StepKeepsPayloads(t: Traced, e: Event)
    requires Enabled(t.client, e) && PayloadsGiven(t)
    ensures PayloadsGiven(Step(t, e))
  {
    var c, a, given := t.client, t.client.answers, LedgerNext(t, e).given;
    match e
    case SaveRejected(id, reason, keys) =>
      if !c.link.kicked && Splits(a.emitted[id], reason) {
        EmitEachKeepsPayloads(a.(open := a.open - {id}), c.link.session, a.emitted[id].socket,
                              a.emitted[id].answer, keys, given);
      }
    case Answer(k, v) =>
      if !c.link.kicked && c.link.factory.Live().Some? && c.link.session != "" {
        EmitKeepsPayloads(a.(pending := a.pending - {k}), c.link.session, c.link.factory.Live().value,
                          map[k := v], false, given);
      }
    case RetryTimer =>
      if c.link.factory.Live().Some? {
        EmitKeepsPayloads(a.(retryArmed := false, pending := map[]), c.link.session,
                          c.link.factory.Live().value, a.pending, true, given);
      }
    case OnLink(l) =>
      if l.SocketConnects? {
        EmitKeepsPayloads(a.(pending := map[]), c.link.session, l.i, a.pending, true, given);
      }
    case _ =>
  }

  lemma StepKeepsKey(t: Traced, e: Event, k: Key)
    requires Enabled(t.client, e) && PayloadsGiven(t) && KeyKept(t, k)
    ensures KeyKept(Step(t, e), k)
  {
    var c, a, h := t.client, t.client.answers, t.ledger;
    match e
    case Answer(key, value) =>
      QueueAnswerKeeps(a, h, c.link.kicked, c.link.session, c.link.factory.Live(), key, value, k);
    case SaveUnanswered(id) => UnansweredKeeps(a, h, c.link.kicked, id, k);
    case SaveAcked(id) => AckedKeeps(a, h, c.link.kicked, id, k);
    case SaveRejected(id, reason, keys) =>
      RejectedKeeps(a, h, c.link.kicked, c.link.session, id, reason, keys, k);
    case RetryTimer =>
      if c.link.factory.Live().Some? {
        FlushKeeps(a.(retryArmed := false), h, c.link.kicked, c.link.session, c.link.factory.Live().value, k);
      }
    case OnLink(l) =>
      KicksAreFinal(c.link, l);
      if l.SocketConnects? {
        FlushKeeps(a, h, c.link.kicked, c.link.session, l.i, k);
      }
    case Violate(_) =>
  }

  lemma {:induction false} RunKeepsKey(t: Traced, es: seq<Event>, k: Key)
    requires Legal(t, es) && PayloadsGiven(t) && KeyKept(t, k)
    ensures PayloadsGiven(Run(t, es)) && KeyKept(Run(t, es), k)
    decreases |es|
  {
    if es != [] {
      StepKeepsPayloads(t, es[0]);
      StepKeepsKey(t, es[0], k);
      RunKeepsKey(Step(t, es[0]), es[1..], k);
    }
  }

  lemma MountedKept(ready: bool, session: string, k: Key)
    ensures PayloadsGiven(Mounted(ready, session)) && KeyKept(Mounted(ready, session), k)
  {
  }

  /** Save `n` carries the newest answer of `k`, nothing sent later carries `k`, and it may still arrive or has. */
  ghost predicate Delivers(t: Traced, n: nat, k: Key) {
    var a := t.client.answers;
    && n < |a.emitted|
    && k in a.emitted[n].answer && k in t.ledger.given && a.emitted[n].answer[k] == t.ledger.given[k]
    && (n in a.open || n in t.ledger.acked)
    && forall j :: n < j < |a.emitted| ==> k !in a.emitted[j].answer
  }

  /**
   No answer is lost and none is replaced by an older one. In every reachable state without
   a kick, the newest answer of every key is queued, or travels in (or was acknowledged as)
   the last save of that key, or was finally rejected; provided no split batch put an older
   value over it since the user gave it.
   */
  lemma NewestAnswerNeverLost(ready: bool, session: string, es: seq<Event>, k: Key)
    requires Legal(Mounted(ready, session), es)
    ensures var t := Run(Mounted(ready, session), es);
      !t.client.link.kicked && k in t.ledger.given && k !in t.ledger.overtaken ==>
        if k in t.client.answers.pending then t.client.answers.pending[k] == t.ledger.given[k]
        else
          && k in t.client.answers.latestSent && t.client.answers.latestSent[k] == t.ledger.given[k]
          && (k in t.ledger.rejected || exists n :: Delivers(t, n, k))
  {
    var start := Mounted(ready, session);
    MountedKept(ready, session, k);
    RunKeepsKey(start, es, k);
    var t := Run(start, es);
    if !t.client.link.kicked && k in t.ledger.given && k !in t.ledger.overtaken
      && k !in t.client.answers.pending && k !in t.ledger.rejected {
      assert Delivers(t, Last(t.client.answers.emitted, k), k);
    }
  }

  // ----- Sockets -----

  lemma StepKeepsFactory(t: Traced, e: Event)
    requires Enabled(t.client, e) && t.client.link.factory.Valid()
    ensures Step(t, e).client.link.factory.Valid()
    ensures t.client.link.kicked ==> Step(t, e).client.link.kicked
    ensures t.client.link.factory.generation <= Step(t, e).client.link.factory.generation
    ensures |Step(t, e).client.link.factory.sockets| == |t.client.link.factory.sockets|
         + (if e == OnLink(Token(t.client.link.factory.generation)) && !t.client.link.kicked then 1 else 0)
  {
    if e.OnLink? {
      var l := t.client.link;
      FactoryStaysValid(l, e.link);
      KicksAreFinal(l, e.link);
      OnlyTokensCreate(l, e.link);
      assert Step(t, e).client.link == LinkNext(l, e.link);
    }
  }

  lemma {:induction false} RunKeepsFactory(t: Traced, es: seq<Event>)
    requires Legal(t, es) && t.client.link.factory.Valid()
    ensures Run(t, es).client.link.factory.Valid()
    ensures t.client.link.factory.generation <= Run(t, es).client.link.factory.generation
    ensures t.client.link.kicked ==>
      Run(t, es).client.link.kicked && |Run(t, es).client.link.factory.sockets| == |t.client.link.factory.sockets|
    decreases |es|
  {
    if es != [] {
      StepKeepsFactory(t, es[0]);
      RunKeepsFactory(Step(t, es[0]), es[1..]);
    }
  }

  /** However factory calls, tokens, timers, unmounts and retries interleave, two sockets are never open at once. */
  lemma AtMostOneLiveSocket(ready: bool, session: string, es: seq<Event>, i: nat, j: nat)
    requires Legal(Mounted(ready, session), es)
    ensures var f := Run(Mounted(ready, session), es).client.link.factory;
      && (i < |f.sockets| && f.current != Some(i) ==> f.sockets[i] == CLOSED)
      && (i < |f.sockets| && j < |f.sockets| && !f.sockets[i].closed && !f.sockets[j].closed ==> i == j)
  {
    RunKeepsFactory(Mounted(ready, session), es);
  }

  /** A factory call superseded in a reachable state creates no socket, however the run goes on. */
  lemma SupersededCallCreatesNothing(ready: bool, session: string, es: seq<Event>, more: seq<Event>, g: nat)
    requires Legal(Mounted(ready, session), es)
    requires Legal(Run(Mounted(ready, session), es), more)
    requires g < Run(Mounted(ready, session), es).client.link.factory.generation
    requires Enabled(Run(Run(Mounted(ready, session), es), more).client, OnLink(Token(g)))
    ensures var t := Run(Run(Mounted(ready, session), es), more);
      |Step(t, OnLink(Token(g))).client.link.factory.sockets| == |t.client.link.factory.sockets|
  {
    var t := Run(Mounted(ready, session), es);
    RunKeepsFactory(Mounted(ready, session), es);
    RunKeepsFactory(t, more);
    StepKeepsFactory(Run(t, more), OnLink(Token(g)));
  }

  /** The saves emitted since `c` carry nothing but answers that waited in `c`. */
  ghost predicate SentOnlyWaiting(c: Answers, d: Answers) {
    && c.emitted <= d.emitted
    && forall n, k :: |c.emitted| <= n < |d.emitted| && k in d.emitted[n].answer ==>
         k in c.pending && d.emitted[n].answer[k] == c.pending[k]
  }

  /** All violations that waited in `c` were reported, in order, under `session`. */
  predicate ReportedWaiting(c: Client, d: Client, session: string) {
    d.queued == [] && d.reported == c.reported + ReportAll(c.queued, session)
  }

  /** Nothing waits in `d`, and nothing was sent since `c`, that did not wait in `c`. */
  ghost predicate TookNothing(c: Client, d: Client) {
    && (forall k :: k in d.answers.pending ==> k in c.answers.pending && d.answers.pending[k] == c.answers.pending[k])
    && (forall k :: k in d.answers.latestSent ==>
          || (k in c.answers.pending && d.answers.latestSent[k] == c.answers.pending[k])
          || (k in c.answers.latestSent && d.answers.latestSent[k] == c.answers.latestSent[k]))
    && SentOnlyWaiting(c.answers, d.answers)
    && ((d.queued == c.queued && d.reported == c.reported) || exists session :: ReportedWaiting(c, d, session))
  }

  lemma SentOnlyWaitingTwice(b: Client, c: Client, d: Client)
    requires TookNothing(b, c) && SentOnlyWaiting(c.answers, d.answers)
    ensures SentOnlyWaiting(b.answers, d.answers)
  {
    forall n, k | |b.answers.emitted| <= n < |d.answers.emitted| && k in d.answers.emitted[n].answer
      ensures k in b.answers.pending && d.answers.emitted[n].answer[k] == b.answers.pending[k]
    {
      if n < |c.answers.emitted| {
        assert d.answers.emitted[n] == c.answers.emitted[n];
      }
    }
  }

  lemma TookNothingTwice(b: Client, c: Client, d: Client)
    requires TookNothing(b, c) && TookNothing(c, d)
    ensures TookNothing(b, d)
  {
    SentOnlyWaitingTwice(b, c, d);
    if !(c.queued == b.queued && c.reported == b.reported) {
      var session :| ReportedWaiting(b, c, session);
      assert forall next :: ReportAll([], next) == [];
      assert ReportedWaiting(b, d, session);
    } else if !(d.queued == c.queued && d.reported == c.reported) {
      var session :| ReportedWaiting(c, d, session);
      assert ReportedWaiting(b, d, session);
    }
  }

  lemma KickedStepTakesNothing(t: Traced, e: Event)
    requires Enabled(t.client, e) && t.client.link.kicked
    ensures TookNothing(t.client, Step(t, e).client)
    ensures Step(t, e).accepted == t.accepted && Step(t, e).ledger.given == t.ledger.given
  {
    var c := t.client;
    if e.OnLink? && e.link.SocketConnects? && c.link.session != "" {
      assert ReportedWaiting(c, Step(t, e).client, c.link.session);
    }
  }

  lemma {:induction false} KickedTakesNothing(t: Traced, es: seq<Event>)
    requires Legal(t, es) && t.client.link.kicked && t.client.link.factory.Valid()
    ensures TookNothing(t.client, Run(t, es).client)
    ensures Run(t, es).accepted == t.accepted && Run(t, es).ledger.given == t.ledger.given
    decreases |es|
  {
    if es != [] {
      StepKeepsFactory(t, es[0]);
      KickedStepTakesNothing(t, es[0]);
      KickedTakesNothing(Step(t, es[0]), es[1..]);
      TookNothingTwice(t.client, Step(t, es[0]).client, Run(t, es).client);
    }
  }

  /**
   After a kick no socket is ever created and nothing is taken any more. Every answer that
   waits, and every one a save still carries, waited before; of the violations that waited
   either none is reported, or all are, in order.
   */
  lemma KickIsFinal(ready: bool, session: string, es: seq<Event>, more: seq<Event>)
    requires Legal(Mounted(ready, session), es)
    requires Run(Mounted(ready, session), es).client.link.kicked
    requires Legal(Run(Mounted(ready, session), es), more)
    ensures var t, u := Run(Mounted(ready, session), es), Run(Run(Mounted(ready, session), es), more);
      && u.client.link.kicked
      && |u.client.link.factory.sockets| == |t.client.link.factory.sockets|
      && TookNothing(t.client, u.client)
      && u.ledger.given == t.ledger.given && u.accepted == t.accepted
  {
    RunKeepsFactory(Mounted(ready, session), es);
    RunKeepsFactory(Run(Mounted(ready, session), es), more);
    KickedTakesNothing(Run(Mounted(ready, session), es), more);
  }
}
