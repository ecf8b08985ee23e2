/** What each event does to the connection and its budgets, and that a connection fills them again. */
module ExamRecovery {
  import opened Numbers
  import opened Wrappers
  import opened ExamAnswers
  import opened ExamLink
  import opened ExamRuns
  import opened ExamReconnect

  // ----- Event by event -----

  /** Kicks come from the server, from a disconnect by hand, and from the fourth refused token in a row. */
  lemma KickedIff(l: Link, e: LinkEvent)
    requires Possible(l, e)
    ensures LinkNext(l, e).kicked <==>
      || l.kicked || e.SocketKicks? || e.Disconnect?
      || (e.SocketFails? && e.authFailed && l.budget.authRetries >= 3)
  {
  }

  /** The main effect is active after props that name exam, user and session, without a kick or a missing exam. */
  lemma ActiveIff(l: Link, e: LinkEvent)
    requires Possible(l, e)
    ensures LinkNext(l, e).active <==>
      match e
      case Props(ready, session, notFound, _) => ready && session != "" && !notFound && !l.kicked
      case Unmount => false
      case _ => l.active
  {
  }

  /** The ids are those of the last props. */
  lemma MirrorsNext(l: Link, e: LinkEvent)
    requires Possible(l, e)
    ensures LinkNext(l, e).ready == if e.Props? then e.ready else l.ready
    ensures LinkNext(l, e).session == if e.Props? then e.session else l.session
  {
  }

  /** The client lost its connection, or could not get one, for another reason than its token. */
  predicate Loses(l: Link, e: LinkEvent) {
    !l.kicked && ((e.SocketDrops? && e.reason == ServerSide) || (e.SocketFails? && !e.authFailed))
  }

  /** The delays before the eight attempts, in ms. */
  const DELAYS: seq<nat> := [2000, 4000, 8000, 16000, 30000, 30000, 30000, 30000]

  lemma DelaysListed(attempt: nat)
    requires attempt < 8
    ensures Delay(attempt + 1) == DELAYS[attempt]
  {
    assert Delay(8) == 30000 && Delay(7) == 30000 && Delay(6) == 30000 && Delay(5) == 30000;
    assert Delay(4) == 16000 && Delay(3) == 8000 && Delay(2) == 4000 && Delay(1) == 2000;
  }

  /** Each loss uses up an attempt; a connection, a manual retry and the effect give all eight back. */
  lemma AttemptsNext(l: Link, e: LinkEvent)
    requires Possible(l, e)
    ensures LinkNext(l, e).budget.attempts ==
      if Loses(l, e) then l.budget.attempts + 1
      else if e.SocketConnects? || (e.Retry? && !l.kicked) then 0
      else if e.Props? && LinkNext(l, e).active then 0
      else l.budget.attempts
  {
  }

  /** Each loss that has an attempt left schedules its delay, and nothing else does. */
  lemma ScheduledNext(l: Link, e: LinkEvent)
    requires Possible(l, e)
    ensures LinkNext(l, e).budget.scheduled
      == l.budget.scheduled + if Loses(l, e) && l.budget.attempts < 8 then DELAYS[l.budget.attempts] else 0
  {
    if l.budget.attempts < 8 {
      DelaysListed(l.budget.attempts);
    }
  }

  /** Each refused token uses up a retry with a fresh one; a connection gives all three back. */
  lemma AuthRetriesNext(l: Link, e: LinkEvent)
    requires Possible(l, e)
    ensures LinkNext(l, e).budget.authRetries ==
      if e.SocketConnects? then 0
      else if e.SocketFails? && e.authFailed then l.budget.authRetries + 1
      else l.budget.authRetries
  {
  }

  /**
   The reconnect timer is set by a loss that has an attempt left, and cleared by firing, by a
   call and by a cleanup.
   */
  lemma TimerNext(l: Link, e: LinkEvent)
    requires Possible(l, e)
    ensures LinkNext(l, e).budget.armed <==>
      || (Loses(l, e) && l.budget.attempts < 8)
      || (l.budget.armed && !e.Timer? && !Calls(l, e) && !e.Disconnect? && !((e.Props? || e.Unmount?) && l.active))
  {
  }

  /** What the page is told of the connection. */
  lemma StatusNext(l: Link, e: LinkEvent)
    requires Possible(l, e)
    ensures LinkNext(l, e).status ==
      match e
      case SocketConnects(_) => Joined
      case SocketDrops(_, reason) =>
        if l.kicked || reason == ClientSide then l.status
        else if l.budget.attempts >= 8 && !l.everConnected then Failed
        else Joining
      case SocketFails(_, authFailed, _) =>
        if authFailed then (if l.budget.authRetries >= 3 then l.status else Joining)
        else if !l.kicked && l.budget.attempts >= 8 && !l.everConnected then Failed
        else Joining
      case Props(_, _, _, _) => if LinkNext(l, e).active then Joining else Idle
      case Retry(_) => if l.kicked then l.status else Joining
      case _ => l.status
  {
  }

  // ----- A connection fills the budgets again -----

  /** After a connection eleven more sockets can be created, and those of a timer and a call that are under way. */
  lemma ConnectRefills(l: Link, i: nat)
    requires Possible(l, SocketConnects(i))
    ensures var m := LinkNext(l, SocketConnects(i));
      && m.budget == l.budget.(attempts := 0, authRetries := 0)
      && |m.factory.sockets| == |l.factory.sockets|
      && Potential(m) == |l.factory.sockets| + 11
                         + (if l.budget.armed then 1 else 0) + (if l.factory.Expecting() then 1 else 0)
  {
    FactoryEffect(l, SocketConnects(i));
  }

  /** From any connection in any reachable state the next loss is the first again: 2 s later comes another attempt. */
  lemma LossAfterConnect(ready: bool, session: string, es: seq<Event>, i: nat)
    requires Legal(Mounted(ready, session), es)
    requires var c := Run(Mounted(ready, session), es).client;
      Enabled(c, OnLink(SocketConnects(i))) && !c.link.kicked
    ensures var s := Step(Run(Mounted(ready, session), es), OnLink(SocketConnects(i)));
      && Enabled(s.client, OnLink(SocketDrops(i, ServerSide)))
      && var u := Step(s, OnLink(SocketDrops(i, ServerSide))).client.link;
         && u.budget.armed && u.budget.attempts == 1 && u.status == Joining
         && u.budget.scheduled == s.client.link.budget.scheduled + 2000
  {
    RunKeepsFactory(Mounted(ready, session), es);
    var s := Step(Run(Mounted(ready, session), es), OnLink(SocketConnects(i))).client.link;
    AttemptsNext(s, SocketDrops(i, ServerSide));
    ScheduledNext(s, SocketDrops(i, ServerSide));
    TimerNext(s, SocketDrops(i, ServerSide));
    StatusNext(s, SocketDrops(i, ServerSide));
  }

  predicate Refuses(e: Event) {
    e.OnLink? && e.link.SocketFails? && e.link.authFailed
  }

  function Refusals(es: seq<Event>): nat {
    if es == [] then 0 else (if Refuses(es[0]) then 1 else 0) + Refusals(es[1..])
  }

  /** Neither the server nor the user ends the exam. */
  predicate Undisturbed(es: seq<Event>) {
    forall e :: e in es && e.OnLink? ==> !e.link.SocketKicks? && !e.link.Disconnect?
  }

  lemma {:induction false} FewRefusals(t: Traced, es: seq<Event>)
    requires Legal(t, es) && Undisturbed(es) && !t.client.link.kicked
    requires t.client.link.budget.authRetries + Refusals(es) <= 3
    ensures !Run(t, es).client.link.kicked
    decreases |es|
  {
    if es != [] {
      assert es[0] in es;
      if es[0].OnLink? {
        KickedIff(t.client.link, es[0].link);
        AuthRetriesNext(t.client.link, es[0].link);
        assert Step(t, es[0]).client.link == LinkNext(t.client.link, es[0].link);
      }
      FewRefusals(Step(t, es[0]), es[1..]);
    }
  }

  /** Up to three refused tokens after a connection end no exam, however many were refused before it. */
  lemma RefusalsAfterConnect(t: Traced, i: nat, es: seq<Event>)
    requires Enabled(t.client, OnLink(SocketConnects(i))) && !t.client.link.kicked
    requires Legal(Step(t, OnLink(SocketConnects(i))), es) && Undisturbed(es) && Refusals(es) <= 3
    ensures !Run(Step(t, OnLink(SocketConnects(i))), es).client.link.kicked
  {
    FewRefusals(Step(t, OnLink(SocketConnects(i))), es);
  }

  /** The client is connected on socket `n`, its newest, with nothing else under way and its budgets full. */
  ghost predicate Steady(l: Link, n: nat, session: string) {
    && !l.kicked && l.ready && l.session == session && l.everConnected && l.status == Joined
    && !l.budget.armed && l.budget.attempts == 0 && l.budget.authRetries == 0
    && |l.factory.sockets| == n + 1 && l.factory.current == Some(n)
    && l.factory.sockets[n] == Socket(Connected, true, false)
    && l.factory.generation == n + 1 && l.factory.awaiting == {}
  }

  /** Joining, and then `n` times a drop by the server with a reconnection. */
  function Drops(n: nat, session: string): seq<Event>
    decreases n, 1
  {
    if n == 0 then [OnLink(Props(true, session, false, true))] + [OnLink(Token(1))] + [OnLink(SocketConnects(0))]
    else Dropped(n, session) + [OnLink(Timer(true))] + [OnLink(Token(n + 1))] + [OnLink(SocketConnects(n))]
  }

  function Dropped(n: nat, session: string): seq<Event>
    requires n > 0
    decreases n, 0
  {
    Drops(n - 1, session) + [OnLink(SocketDrops(n - 1, ServerSide))]
  }

  lemma JoinIsSteady(session: string)
    requires session != ""
    ensures Legal(Mounted(true, session), Drops(0, session))
    ensures var l := Run(Mounted(true, session), Drops(0, session)).client.link;
      Steady(l, 0, session) && l.budget.scheduled == 0
  {
    var t0 := Mounted(true, session);
    assert Legal(t0, []) && Run(t0, []) == t0;
    var e1: seq<Event> := [OnLink(Props(true, session, false, true))];
    RunThen(t0, [], e1[0]);
    assert [] + e1 == e1;
    assert Run(t0, e1).client.link.factory == Factory(1, {1}, [], None);
    RunThen(t0, e1, OnLink(Token(1)));
    var e2 := e1 + [OnLink(Token(1))];
    assert Run(t0, e2).client.link.factory == Factory(1, {}, [Socket(Connecting, true, false)], Some(0));
    RunThen(t0, e2, OnLink(SocketConnects(0)));
  }

  /** One event of the connection after a run. */
  lemma LinkThen(t: Traced, es: seq<Event>, e: LinkEvent)
    requires Legal(t, es) && Possible(Run(t, es).client.link, e)
    ensures Legal(t, es + [OnLink(e)])
    ensures Run(t, es + [OnLink(e)]).client.link == LinkNext(Run(t, es).client.link, e)
  {
    RunThen(t, es, OnLink(e));
  }

  lemma RoundIsSteady(l: Link, n: nat, session: string)
    requires n > 0 && Steady(l, n - 1, session)
    ensures var drop := SocketDrops(n - 1, ServerSide);
      && Possible(l, drop) && Possible(LinkNext(l, drop), Timer(true))
      && var called := LinkNext(LinkNext(l, drop), Timer(true));
         && Possible(called, Token(n + 1))
         && var created := LinkNext(called, Token(n + 1));
            && Possible(created, SocketConnects(n))
            && var m := LinkNext(created, SocketConnects(n));
               Steady(m, n, session) && m.budget.scheduled == l.budget.scheduled + 2000
  {
    assert Pow2(0) == 1;
    var called := LinkNext(LinkNext(l, SocketDrops(n - 1, ServerSide)), Timer(true));
    assert called.factory.generation == n + 1 && called.factory.awaiting == {n + 1};
  }

  /**
   However often the server drops a client that gets its connection back, each drop is the first
   again: the client is as connected as ever, and has waited 2 s for each.
   */
  lemma {:induction false} DropsStartOver(n: nat, session: string)
    requires session != ""
    ensures Legal(Mounted(true, session), Drops(n, session))
    ensures var l := Run(Mounted(true, session), Drops(n, session)).client.link;
      Steady(l, n, session) && l.budget.scheduled == 2000 * n
    decreases n
  {
    if n == 0 {
      JoinIsSteady(session);
    } else {
      var t0, es := Mounted(true, session), Drops(n - 1, session);
      DropsStartOver(n - 1, session);
      RoundIsSteady(Run(t0, es).client.link, n, session);
      LinkThen(t0, es, SocketDrops(n - 1, ServerSide));
      LinkThen(t0, Dropped(n, session), Timer(true));
      LinkThen(t0, Dropped(n, session) + [OnLink(Timer(true))], Token(n + 1));
      LinkThen(t0, Dropped(n, session) + [OnLink(Timer(true))] + [OnLink(Token(n + 1))], SocketConnects(n));
    }
  }
}
