/** Reconnection is bounded: sockets created, delays scheduled, and when giving up is reported as a failure. */
module ExamReconnect {
  import opened Numbers
  import opened Wrappers
  import opened ExamAnswers
  import opened ExamLink
  import opened ExamRuns

  function Left(limit: nat, used: nat): nat {
    if used <= limit then limit - used else 0
  }

  /** Sockets created, plus every one the link can still create without outside help. */
  ghost function Potential(l: Link): nat {
    |l.factory.sockets|
    + (if l.factory.Expecting() then 1 else 0)
    + (if l.budget.armed then 1 else 0)
    + Left(MAX_RECONNECT_ATTEMPTS, l.budget.attempts)
    + Left(MAX_AUTH_RETRIES, l.budget.authRetries)
  }

  /** The delays still to come before the attempts run out. */
  function DelaysLeft(attempts: nat): nat
    decreases Left(MAX_RECONNECT_ATTEMPTS, attempts)
  {
    if attempts >= MAX_RECONNECT_ATTEMPTS then 0 else Delay(attempts + 1) + DelaysLeft(attempts + 1)
  }

  lemma AllDelays()
    ensures DelaysLeft(0) == 150000
  {
    assert Delay(8) == 30000 && Delay(7) == 30000 && Delay(6) == 30000 && Delay(5) == 30000;
    assert Delay(4) == 16000 && Delay(3) == 8000 && Delay(2) == 4000 && Delay(1) == 2000;
    assert DelaysLeft(6) == 60000;
    assert DelaysLeft(4) == 120000;
    assert DelaysLeft(2) == 144000;
  }

  /** Neither a connection, nor a manual retry, nor a re-run of the main effect. */
  predicate Unaided(e: LinkEvent) {
    !e.SocketConnects? && !e.Retry? && !e.Props?
  }

  lemma AttemptSpends(b: Budget)
    ensures var c := b.Attempt();
      && c.authRetries == b.authRetries
      && (if c.armed then 1 else 0) + Left(MAX_RECONNECT_ATTEMPTS, c.attempts)
           <= (if b.armed then 1 else 0) + Left(MAX_RECONNECT_ATTEMPTS, b.attempts)
      && c.scheduled + DelaysLeft(c.attempts) <= b.scheduled + DelaysLeft(b.attempts)
  {
  }

  /** What an unaided event does to the budget. */
  lemma BudgetEffect(l: Link, e: LinkEvent)
    requires Possible(l, e) && Unaided(e)
    ensures var b, m := l.budget, LinkNext(l, e);
      match e
      case Timer(_) => m.budget == b.(armed := false)
      case SocketDrops(_, _) => m.budget == b || m.budget == b.Attempt()
      case SocketFails(_, false, _) => m.budget == b || m.budget == b.Attempt()
      case SocketFails(_, true, _) =>
        || (m.budget == b.(authRetries := b.authRetries + 1) && m.factory == l.factory)
        || (m.budget == b.(authRetries := b.authRetries + 1, armed := false) && b.authRetries < MAX_AUTH_RETRIES)
      case Token(_) => m.budget == b
      case SocketKicks(_, _) => m.budget == b
      case _ => m.budget == b || m.budget == b.(armed := false)
  {
  }

  /** Each new attempt or auth retry is paid for by the budget it uses up. */
  lemma StepSpendsPotential(l: Link, e: LinkEvent)
    requires Possible(l, e) && l.factory.Valid() && Unaided(e)
    ensures Potential(LinkNext(l, e)) <= Potential(l)
  {
    OnlyTokensCreate(l, e);
    FactoryEffect(l, e);
    BudgetEffect(l, e);
    AttemptSpends(l.budget);
    l.factory.TearDownKeeps();
  }

  lemma StepSpendsDelays(l: Link, e: LinkEvent)
    requires Possible(l, e) && Unaided(e)
    ensures var m := LinkNext(l, e);
      m.budget.scheduled + DelaysLeft(m.budget.attempts) <= l.budget.scheduled + DelaysLeft(l.budget.attempts)
  {
    BudgetEffect(l, e);
    AttemptSpends(l.budget);
  }

  predicate AllUnaided(es: seq<Event>) {
    forall e :: e in es ==> e.OnLink? ==> Unaided(e.link)
  }

  lemma {:induction false} RunSpends(t: Traced, es: seq<Event>)
    requires Legal(t, es) && AllUnaided(es) && t.client.link.factory.Valid()
    ensures var l, m := t.client.link, Run(t, es).client.link;
      && Potential(m) <= Potential(l)
      && m.budget.scheduled + DelaysLeft(m.budget.attempts) <= l.budget.scheduled + DelaysLeft(l.budget.attempts)
    decreases |es|
  {
    if es != [] {
      var l, next := t.client.link, Step(t, es[0]);
      assert AllUnaided(es[1..]) && es[0] in es;
      StepKeepsFactory(t, es[0]);
      if es[0].OnLink? {
        StepSpendsPotential(l, es[0].link);
        StepSpendsDelays(l, es[0].link);
        assert next.client.link == LinkNext(l, es[0].link);
      }
      RunSpends(next, es[1..]);
    }
  }

  /** A factory call and a reconnect timer at once: a socket more than the attempts account for. */
  ghost function Leftover(l: Link): nat {
    if l.budget.armed && l.factory.Expecting() then 1 else 0
  }

  /**
   After a run of the main effect, in any reachable state, however long the client goes on
   without a connection, a manual retry or another run of the effect, it schedules at most 150
   seconds of delay and creates at most 1 + 8 + 3 sockets, and one more when that run leaves
   both a factory call and a reconnect timer behind.
   */
  lemma ReconnectionIsBounded(ready: bool, session: string, before: seq<Event>, props: LinkEvent, after: seq<Event>)
    requires Legal(Mounted(ready, session), before) && props.Props?
    requires var t := Run(Mounted(ready, session), before);
      && Step(t, OnLink(props)).client.link.active
      && Legal(Step(t, OnLink(props)), after) && AllUnaided(after)
    ensures var t := Run(Mounted(ready, session), before);
      var s := Step(t, OnLink(props));
      var u := Run(s, after);
      && |u.client.link.factory.sockets| <= |t.client.link.factory.sockets| + 12 + Leftover(s.client.link)
      && u.client.link.budget.scheduled <= t.client.link.budget.scheduled + 150000
  {
    RunKeepsFactory(Mounted(ready, session), before);
    var t := Run(Mounted(ready, session), before);
    var s := Step(t, OnLink(props));
    StepKeepsFactory(t, OnLink(props));
    ActivatedLink(t.client.link, props);
    RunSpends(s, after);
    AllDelays();
  }

  /** A run of the effect creates nothing itself and fills the attempts; the auth retries are as they were. */
  lemma ActivatedLink(l: Link, e: LinkEvent)
    requires e.Props? && LinkNext(l, e).active && l.factory.Valid()
    ensures var m := LinkNext(l, e);
      && m.budget.attempts == 0 && m.budget.scheduled == l.budget.scheduled
      && |m.factory.sockets| == |l.factory.sockets|
      && Potential(m) <= |l.factory.sockets| + 12 + Leftover(m)
      && (Leftover(m) == 1 && l.budget.authRetries == 0 ==> Potential(m) == |l.factory.sockets| + 13)
      && (Leftover(m) == 1 <==> !e.marked && !l.active && l.budget.armed && l.factory.Expecting())
  {
    OnlyTokensCreate(l, e);
  }

  // ----- When giving up is reported as a failure -----

  /** The client knows that it has connected under `session`, and is not in another one. */
  ghost predicate HasConnected(l: Link, session: string) {
    && session != "" && l.session in ["", session]
    && l.everConnected && l.connectedSession == session && l.status != Failed
  }

  /** A manual retry, another session, or a connection made while there is no session id. */
  predicate Forgets(l: Link, e: LinkEvent, session: string) {
    match e
    case Retry(_) => !l.kicked
    case Props(_, next, _, _) => next !in ["", session]
    case SocketConnects(_) => l.session == ""
    case _ => false
  }

  /** What an event does to the memory of the last connection. */
  lemma MemoryEffect(l: Link, e: LinkEvent)
    requires Possible(l, e)
    ensures var m := LinkNext(l, e);
      match e
      case SocketConnects(_) => m.everConnected && m.connectedSession == l.session == m.session
      case Props(_, next, _, _) =>
        && m.session == next && m.connectedSession == l.connectedSession
        && (m.everConnected <==> l.everConnected && (!m.active || l.connectedSession == next))
      case Retry(_) =>
        && (m.everConnected <==> l.everConnected && l.kicked)
        && m.connectedSession == l.connectedSession && m.session == l.session
      case _ => m.everConnected == l.everConnected && m.connectedSession == l.connectedSession && m.session == l.session
  {
  }

  /** Failure is reported only while the client knows of no connection. */
  lemma FailureEffect(l: Link, e: LinkEvent)
    requires Possible(l, e)
    ensures LinkNext(l, e).status == Failed ==> l.status == Failed || !LinkNext(l, e).everConnected
  {
  }

  /** The client stops knowing that it has connected by exactly these events. */
  lemma StepStaysConnected(c: Client, e: Event, session: string)
    requires Enabled(c, e) && HasConnected(c.link, session)
    ensures HasConnected(Next(c, e).link, session) <==> !(e.OnLink? && Forgets(c.link, e.link, session))
  {
    if e.OnLink? {
      assert Next(c, e).link == LinkNext(c.link, e.link);
      MemoryEffect(c.link, e.link);
      FailureEffect(c.link, e.link);
    }
  }

  ghost predicate ConnectedThroughout(t: Traced, es: seq<Event>, session: string)
    requires Legal(t, es)
    decreases |es|
  {
    HasConnected(t.client.link, session) && (es == [] || ConnectedThroughout(Step(t, es[0]), es[1..], session))
  }

  ghost predicate NeverForgets(t: Traced, es: seq<Event>, session: string)
    requires Legal(t, es)
    decreases |es|
  {
    || es == []
    || (!(es[0].OnLink? && Forgets(t.client.link, es[0].link, session))
        && NeverForgets(Step(t, es[0]), es[1..], session))
  }

  lemma {:induction false} RunStaysConnected(t: Traced, es: seq<Event>, session: string)
    requires Legal(t, es) && HasConnected(t.client.link, session)
    ensures ConnectedThroughout(t, es, session) <==> NeverForgets(t, es, session)
    ensures NeverForgets(t, es, session) ==> HasConnected(Run(t, es).client.link, session)
    decreases |es|
  {
    if es != [] {
      StepStaysConnected(t.client, es[0], session);
      if HasConnected(Step(t, es[0]).client.link, session) {
        RunStaysConnected(Step(t, es[0]), es[1..], session);
      }
    }
  }

  /**
   Once a session has connected, the client knows it as connected throughout a run exactly when
   nothing in the run makes it forget, and then the error wall for a session that never
   connected does not appear.
   */
  lemma FailureMeansNeverConnected(ready: bool, session: string, before: seq<Event>, i: nat, after: seq<Event>)
    requires Legal(Mounted(ready, session), before)
    requires var t := Run(Mounted(ready, session), before);
      && Enabled(t.client, OnLink(SocketConnects(i))) && t.client.link.session != ""
      && Legal(Step(t, OnLink(SocketConnects(i))), after)
    ensures var t := Run(Mounted(ready, session), before);
      var s, own := Step(t, OnLink(SocketConnects(i))), t.client.link.session;
      && (ConnectedThroughout(s, after, own) <==> NeverForgets(s, after, own))
      && (NeverForgets(s, after, own) ==> Run(s, after).client.link.status != Failed)
  {
    var t := Run(Mounted(ready, session), before);
    RunStaysConnected(Step(t, OnLink(SocketConnects(i))), after, t.client.link.session);
  }
}
