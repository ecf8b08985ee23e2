/** What waits in the two offline queues is sent: wake-ups for answers, order and bounds for violations. */
module ExamQueues {
  import opened Wrappers
  import opened ExamAnswers
  import opened ExamLink
  import opened ExamRuns

  // ----- Wake-ups -----

  ghost predicate LiveInSession(c: Client) {
    c.link.factory.Live().Some? && c.link.session != ""
  }

  ghost predicate Awake(c: Client) {
    LiveInSession(c) && !c.link.kicked && c.answers.pending != map[] ==> c.answers.retryArmed
  }

  ghost predicate Rooted(l: Link) {
    l.factory.Valid() && (l.active ==> l.session != "")
  }

  lemma StepStaysRooted(c: Client, e: Event)
    requires Enabled(c, e) && Rooted(c.link)
    ensures Rooted(Next(c, e).link)
  {
    if e.OnLink? {
      FactoryStaysValid(c.link, e.link);
      ActiveHasSession(c.link, e.link);
      assert Next(c, e).link == LinkNext(c.link, e.link);
    }
  }

  /**
   The props bring the first session id while a socket is live already, which only a retry
   behind the effect can have opened, and answers are queued without a timer: the connect
   handler, which would have sent them, is over.
   */
  ghost predicate Strands(c: Client, e: Event) {
    && e.OnLink? && e.link.Props? && e.link.session != ""
    && !c.link.active && !c.link.kicked && c.link.session == "" && c.link.factory.Live().Some?
    && c.answers.pending != map[] && !c.answers.retryArmed
  }

  lemma SplitLeavesPending(a: Answers, kicked: bool, session: string, id: nat, reason: string, keys: seq<Key>)
    requires id < |a.emitted| && Enumerates(keys, a.emitted[id].answer) && session != ""
    ensures Rejected(a, kicked, session, id, reason, keys).pending == a.pending
    ensures Rejected(a, kicked, session, id, reason, keys).retryArmed == a.retryArmed
  {
    if !kicked && Splits(a.emitted[id], reason) {
      EmitEachSends(a.(open := a.open - {id}), session, a.emitted[id].socket, a.emitted[id].answer, keys);
    }
  }

  /** Except by connecting or by a first session id, no connection event gives a live session it had not. */
  lemma LinkStepKeepsQueues(c: Client, l: LinkEvent)
    requires Possible(c.link, l) && c.link.factory.Valid() && !l.SocketConnects?
    requires LiveInSession(Next(c, OnLink(l)))
    ensures c.link.factory.Live().Some? && Next(c, OnLink(l)).answers == c.answers
    ensures c.link.session == "" ==> l.Props? && !c.link.active && l.session != ""
  {
    LiveOnlyByConnecting(c.link, l);
    LiveKeepsSession(c.link, l);
    FactoryEffect(c.link, l);
  }

  /** A step puts queued answers to sleep exactly when it strands them. */
  lemma StepStaysAwake(c: Client, e: Event)
    requires Enabled(c, e) && Rooted(c.link) && Awake(c)
    ensures Awake(Next(c, e)) <==> !Strands(c, e)
  {
    match e
    case OnLink(l) =>
      if !l.SocketConnects? {
        KicksAreFinal(c.link, l);
        if LiveInSession(Next(c, e)) {
          LinkStepKeepsQueues(c, l);
        }
      }
    case SaveRejected(id, reason, keys) =>
      if c.link.session != "" {
        SplitLeavesPending(c.answers, c.link.kicked, c.link.session, id, reason, keys);
      }
    case _ =>
  }

  ghost predicate AwakeThroughout(t: Traced, es: seq<Event>)
    requires Legal(t, es)
    decreases |es|
  {
    Awake(t.client) && (es == [] || AwakeThroughout(Step(t, es[0]), es[1..]))
  }

  ghost predicate NeverStrands(t: Traced, es: seq<Event>)
    requires Legal(t, es)
    decreases |es|
  {
    es == [] || (!Strands(t.client, es[0]) && NeverStrands(Step(t, es[0]), es[1..]))
  }

  lemma {:induction false} RunStaysAwake(t: Traced, es: seq<Event>)
    requires Legal(t, es) && Rooted(t.client.link) && Awake(t.client)
    ensures AwakeThroughout(t, es) <==> NeverStrands(t, es)
    ensures NeverStrands(t, es) ==> Awake(Run(t, es).client)
    decreases |es|
  {
    if es != [] {
      StepStaysRooted(t.client, es[0]);
      StepStaysAwake(t.client, es[0]);
      if Awake(Step(t, es[0]).client) {
        RunStaysAwake(Step(t, es[0]), es[1..]);
      }
    }
  }

  /**
   With a live socket, a session and no kick, queued answers have their retry timer armed: in
   every state of a run exactly when no step of it strands them.
   */
  lemma QueuedAnswersHaveWakeUp(ready: bool, session: string, es: seq<Event>)
    requires Legal(Mounted(ready, session), es)
    ensures AwakeThroughout(Mounted(ready, session), es) <==> NeverStrands(Mounted(ready, session), es)
    ensures NeverStrands(Mounted(ready, session), es) ==> Awake(Run(Mounted(ready, session), es).client)
  {
    RunStaysAwake(Mounted(ready, session), es);
  }

  /**
   Such a step can be reached. A retry before the session id is known opens a socket whose
   connect handler skips the flush; the effect then starts without any cleanup to run, and
   the queued answer sits on a live socket with no timer.
   */
  lemma RetryBeforeSessionStrandsAnswer()
    ensures var es, props := EARLY_RETRY + [Answer("q1", 7)], OnLink(Props(true, "s", false, true));
      && Legal(Mounted(true, ""), es) && Legal(Mounted(true, ""), es + [props])
      && Strands(Run(Mounted(true, ""), es).client, props)
      && !Awake(Run(Mounted(true, ""), es + [props]).client)
  {
    var t0 := Mounted(true, "");
    EarlyRetryConnects();
    RunThen(t0, EARLY_RETRY, Answer("q1", 7));
    var es := EARLY_RETRY + [Answer("q1", 7)];
    assert Run(t0, es).client.answers == Answers(map["q1" := 7], map[], false, [], {});
    RunThen(t0, es, OnLink(Props(true, "s", false, true)));
    assert Run(t0, es + [OnLink(Props(true, "s", false, true))]).client.link.factory.Live() == Some(0);
  }

  const EARLY_RETRY: seq<Event> := [OnLink(Retry(true))] + [OnLink(Token(1))] + [OnLink(SocketConnects(0))]

  /** A retry before the session id is known ends in a live socket with the main effect inactive. */
  lemma EarlyRetryConnects()
    ensures Legal(Mounted(true, ""), EARLY_RETRY)
    ensures var c := Run(Mounted(true, ""), EARLY_RETRY).client;
      && c.answers == Answers(map[], map[], false, [], {}) && c.queued == [] && c.reported == []
      && Run(Mounted(true, ""), EARLY_RETRY).accepted == []
      && c.link.session == "" && !c.link.active && !c.link.kicked
      && c.link.factory == Factory(1, {}, [Socket(Connected, true, false)], Some(0))
  {
    var t0 := Mounted(true, "");
    assert Legal(t0, []) && Run(t0, []) == t0;
    RunThen(t0, [], OnLink(Retry(true)));
    var e1: seq<Event> := [OnLink(Retry(true))];
    assert [] + e1 == e1;
    assert Run(t0, e1).client.link.factory == Factory(1, {1}, [], None);
    RunThen(t0, e1, OnLink(Token(1)));
    var e2 := e1 + [OnLink(Token(1))];
    assert Run(t0, e2).client.link.factory == Factory(1, {}, [Socket(Connecting, true, false)], Some(0));
    RunThen(t0, e2, OnLink(SocketConnects(0)));
  }

  // ----- Retries under the eyes of the effect -----

  /** The manual retry is used only while the main effect is active. */
  ghost predicate RetriesWhileActive(t: Traced, es: seq<Event>)
    requires Legal(t, es)
    decreases |es|
  {
    || es == []
    || ((es[0].OnLink? && es[0].link.Retry? ==> t.client.link.active) && RetriesWhileActive(Step(t, es[0]), es[1..]))
  }

  ghost predicate Grounded(l: Link) {
    Rooted(l) && QuietWhenInactive(l)
  }

  lemma StepStaysGrounded(c: Client, e: Event)
    requires Enabled(c, e) && Grounded(c.link)
    requires e.OnLink? && e.link.Retry? ==> c.link.active
    ensures Grounded(Next(c, e).link)
  {
    StepStaysRooted(c, e);
    if e.OnLink? {
      InactiveStaysQuiet(c.link, e.link);
      assert Next(c, e).link == LinkNext(c.link, e.link);
    }
  }

  lemma {:induction false} GroundedNeverStrands(t: Traced, es: seq<Event>)
    requires Legal(t, es) && RetriesWhileActive(t, es) && Grounded(t.client.link)
    ensures NeverStrands(t, es)
    decreases |es|
  {
    if es != [] {
      StepStaysGrounded(t.client, es[0]);
      GroundedNeverStrands(Step(t, es[0]), es[1..]);
    }
  }

  /** In a run whose retries all come while the effect is active, no step strands an answer. */
  lemma ActiveRetriesNeverStrand(ready: bool, session: string, es: seq<Event>)
    requires Legal(Mounted(ready, session), es) && RetriesWhileActive(Mounted(ready, session), es)
    ensures NeverStrands(Mounted(ready, session), es)
  {
    GroundedNeverStrands(Mounted(ready, session), es);
  }

  // ----- Violations -----

  function Reported(reports: seq<Report>): (r: seq<int>)
    ensures |r| == |reports|
  {
    seq(|reports|, i requires 0 <= i < |reports| => reports[i].what)
  }

  function Held(queued: seq<Violation>): (r: seq<int>)
    ensures |r| == |queued|
  {
    seq(|queued|, i requires 0 <= i < |queued| => queued[i].what)
  }

  /** What was accepted was sent or still waits, each once, and no more wait than may. */
  ghost predicate Complete(t: Traced) {
    && multiset(Reported(t.client.reported)) + multiset(Held(t.client.queued)) == multiset(t.accepted)
    && |t.client.queued| <= MAX_PENDING_VIOLATIONS
  }

  /** What was sent, followed by what waits, is what was accepted, in order. */
  ghost predicate InOrder(t: Traced) {
    Reported(t.client.reported) + Held(t.client.queued) == t.accepted
  }

  /** What a step does to what was sent, what waits and what was accepted. */
  lemma ViolationEffect(t: Traced, e: Event)
    requires Enabled(t.client, e)
    ensures var c, next := t.client, Step(t, e);
      var sent, waits := Reported(next.client.reported), Held(next.client.queued);
      if e.Violate? && next.client != c then
        && next.accepted == t.accepted + [e.what]
        && if LiveInSession(c) then sent == Reported(c.reported) + [e.what] && waits == Held(c.queued)
           else
             && sent == Reported(c.reported) && waits == Held(c.queued) + [e.what]
             && |c.queued| < MAX_PENDING_VIOLATIONS
      else
        && next.accepted == t.accepted
        && ((sent == Reported(c.reported) && waits == Held(c.queued))
            || (sent == Reported(c.reported) + Held(c.queued) && waits == []))
  {
    var c, next := t.client, Step(t, e).client;
    match e
    case OnLink(l) =>
      if l.SocketConnects? && c.link.session != "" {
        assert Reported(next.reported) == Reported(c.reported) + Held(c.queued);
      }
    case Violate(what) =>
      if next.reported != c.reported {
        assert Reported(next.reported) == Reported(c.reported) + [what];
      } else if next.queued != c.queued {
        assert Held(next.queued) == Held(c.queued) + [what];
      }
    case _ =>
  }

  lemma StepKeepsComplete(t: Traced, e: Event)
    requires Enabled(t.client, e) && Complete(t)
    ensures Complete(Step(t, e))
  {
    ViolationEffect(t, e);
  }

  lemma {:induction false} RunKeepsComplete(t: Traced, es: seq<Event>)
    requires Legal(t, es) && Complete(t)
    ensures Complete(Run(t, es))
    decreases |es|
  {
    if es != [] {
      StepKeepsComplete(t, es[0]);
      RunKeepsComplete(Step(t, es[0]), es[1..]);
    }
  }

  /**
   In every run each accepted violation is sent or still waits, once, and at most 200 wait;
   and a violation raised is refused only after a kick or behind 200 others.
   */
  lemma ViolationsAreDelivered(ready: bool, session: string, es: seq<Event>, what: int)
    requires Legal(Mounted(ready, session), es)
    ensures var t := Run(Mounted(ready, session), es);
      && multiset(Reported(t.client.reported)) + multiset(Held(t.client.queued)) == multiset(t.accepted)
      && |t.client.queued| <= MAX_PENDING_VIOLATIONS
      && (Step(t, Violate(what)).accepted == t.accepted
          <==> t.client.link.kicked || (|t.client.queued| == MAX_PENDING_VIOLATIONS && !LiveInSession(t.client)))
  {
    RunKeepsComplete(Mounted(ready, session), es);
  }

  /** A violation is sent at once although one that differs from it still waits. */
  ghost predicate Overtakes(c: Client, e: Event) {
    e.Violate? && !c.link.kicked && LiveInSession(c) && exists x :: x in Held(c.queued) && x != e.what
  }

  /** Putting `x` in front of `xs` or behind them is the same only if they all are `x`. */
  lemma {:induction false} SameAtBothEnds(xs: seq<int>, x: int)
    ensures [x] + xs == xs + [x] <==> forall y :: y in xs ==> y == x
  {
    if forall y :: y in xs ==> y == x {
      assert forall i :: 0 <= i < |xs| ==> xs[i] in xs;
      assert [x] + xs == xs + [x];
    }
    if [x] + xs == xs + [x] {
      AllTheSame(xs, x);
    }
  }

  lemma {:induction false} AllTheSame(xs: seq<int>, x: int)
    requires [x] + xs == xs + [x]
    ensures forall y :: y in xs ==> y == x
  {
    if xs != [] {
      assert ([x] + xs)[0] == x && (xs + [x])[0] == xs[0];
      assert ([x] + xs)[1..] == xs && (xs + [x])[1..] == xs[1..] + [x];
      assert xs == [x] + xs[1..];
      AllTheSame(xs[1..], x);
    }
  }

  /** A step breaks the order exactly when a violation overtakes another. */
  lemma StepKeepsOrder(t: Traced, e: Event)
    requires Enabled(t.client, e) && InOrder(t)
    ensures InOrder(Step(t, e)) <==> !Overtakes(t.client, e)
  {
    ViolationEffect(t, e);
    if e.Violate? && Step(t, e).client != t.client && LiveInSession(t.client) {
      var sent, waits := Reported(t.client.reported), Held(t.client.queued);
      SameAtBothEnds(waits, e.what);
      assert (sent + [e.what]) + waits == sent + ([e.what] + waits);
      assert (sent + waits) + [e.what] == sent + (waits + [e.what]);
      assert (sent + ([e.what] + waits))[|sent|..] == [e.what] + waits;
      assert (sent + (waits + [e.what]))[|sent|..] == waits + [e.what];
    }
  }

  ghost predicate InOrderThroughout(t: Traced, es: seq<Event>)
    requires Legal(t, es)
    decreases |es|
  {
    InOrder(t) && (es == [] || InOrderThroughout(Step(t, es[0]), es[1..]))
  }

  ghost predicate NeverOvertakes(t: Traced, es: seq<Event>)
    requires Legal(t, es)
    decreases |es|
  {
    es == [] || (!Overtakes(t.client, es[0]) && NeverOvertakes(Step(t, es[0]), es[1..]))
  }

  lemma {:induction false} RunKeepsOrder(t: Traced, es: seq<Event>)
    requires Legal(t, es) && InOrder(t)
    ensures InOrderThroughout(t, es) <==> NeverOvertakes(t, es)
    ensures NeverOvertakes(t, es) ==> InOrder(Run(t, es))
    decreases |es|
  {
    if es != [] {
      StepKeepsOrder(t, es[0]);
      if InOrder(Step(t, es[0])) {
        RunKeepsOrder(Step(t, es[0]), es[1..]);
      }
    }
  }

  /** Violations are sent in the order raised throughout a run exactly when none of its steps overtakes. */
  lemma ViolationsDeliveredInOrder(ready: bool, session: string, es: seq<Event>)
    requires Legal(Mounted(ready, session), es)
    ensures InOrderThroughout(Mounted(ready, session), es) <==> NeverOvertakes(Mounted(ready, session), es)
    ensures NeverOvertakes(Mounted(ready, session), es) ==> InOrder(Run(Mounted(ready, session), es))
  {
    RunKeepsOrder(Mounted(ready, session), es);
  }

  lemma {:induction false} GroundedNeverOvertakes(t: Traced, es: seq<Event>)
    requires Legal(t, es) && RetriesWhileActive(t, es) && Grounded(t.client.link)
    requires LiveInSession(t.client) ==> t.client.queued == []
    ensures NeverOvertakes(t, es)
    decreases |es|
  {
    if es != [] {
      var next := Step(t, es[0]);
      StepStaysGrounded(t.client, es[0]);
      if es[0].OnLink? && !es[0].link.SocketConnects? && LiveInSession(next.client) {
        LinkStepKeepsQueues(t.client, es[0].link);
      }
      GroundedNeverOvertakes(next, es[1..]);
    }
  }

  /**
   In a run whose retries all come while the effect is active, nothing waits that could be
   sent, so nothing overtakes.
   */
  lemma ActiveRetriesNeverOvertake(ready: bool, session: string, es: seq<Event>)
    requires Legal(Mounted(ready, session), es) && RetriesWhileActive(Mounted(ready, session), es)
    ensures NeverOvertakes(Mounted(ready, session), es)
  {
    GroundedNeverOvertakes(Mounted(ready, session), es);
  }

  /** A violation raised before the session id is known, and left waiting on a socket that is live with it. */
  function LeftWaiting(x: int): seq<Event> {
    EARLY_RETRY + [Violate(x)] + [OnLink(Props(true, "s", false, true))]
  }

  lemma EarlyViolationWaits(x: int)
    ensures Legal(Mounted(true, ""), LeftWaiting(x))
    ensures var t := Run(Mounted(true, ""), LeftWaiting(x));
      && LiveInSession(t.client) && t.client.link.session == "s" && !t.client.link.kicked
      && t.client.queued == [Violation("", x)] && t.client.reported == [] && t.accepted == [x]
  {
    var t0 := Mounted(true, "");
    EarlyRetryConnects();
    RunThen(t0, EARLY_RETRY, Violate(x));
    var es := EARLY_RETRY + [Violate(x)];
    assert Run(t0, es).client.queued == [Violation("", x)];
    RunThen(t0, es, OnLink(Props(true, "s", false, true)));
    assert Run(t0, LeftWaiting(x)).client.link.factory.Live() == Some(0);
  }

  /**
   After a retry before the session id is known, a violation raised with the session overtakes
   one raised before it.
   */
  lemma RetryBeforeSessionReordersViolations(x: int, y: int)
    requires x != y
    ensures Legal(Mounted(true, ""), LeftWaiting(x)) && Legal(Mounted(true, ""), LeftWaiting(x) + [Violate(y)])
    ensures Overtakes(Run(Mounted(true, ""), LeftWaiting(x)).client, Violate(y))
    ensures var t := Run(Mounted(true, ""), LeftWaiting(x) + [Violate(y)]);
      t.accepted == [x, y] && t.client.reported == [Report("s", y, false)] && t.client.queued == [Violation("", x)]
  {
    EarlyViolationWaits(x);
    RunThen(Mounted(true, ""), LeftWaiting(x), Violate(y));
    assert x in Held(Run(Mounted(true, ""), LeftWaiting(x)).client.queued) by {
      assert Held([Violation("", x)])[0] == x;
    }
  }
}
