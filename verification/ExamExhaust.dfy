/** Runs that use up what is allowed: as many sockets as the bounds say, and a failure reported after a connection. */
module ExamExhaust {
  import opened Wrappers
  import opened ExamAnswers
  import opened ExamLink
  import opened ExamRuns
  import opened ExamReconnect

  /**
   Socket `n - 1`, the newest, is connecting, with nothing else under way; `a` attempts and `r`
   auth retries are used.
   */
  ghost predicate Trying(l: Link, n: nat, g: nat, a: nat, r: nat) {
    && !l.kicked && l.ready && !l.budget.armed && l.budget.attempts == a && l.budget.authRetries == r
    && n > 0 && |l.factory.sockets| == n && l.factory.current == Some(n - 1)
    && l.factory.sockets[n - 1] == Socket(Connecting, true, false)
    && l.factory.generation == g && l.factory.awaiting == {}
  }

  /** `es` leads from `t` to a client with connection `l`, without a connect, a retry or a run of the effect. */
  ghost predicate LeadsTo(t: Traced, es: seq<Event>, l: Link) {
    Legal(t, es) && AllUnaided(es) && Run(t, es).client.link == l
  }

  lemma Start(t: Traced)
    ensures LeadsTo(t, [], t.client.link)
  {
  }

  /** One more event of the connection. */
  lemma Extend(t: Traced, es: seq<Event>, l: Link, e: LinkEvent)
    requires LeadsTo(t, es, l) && Possible(l, e) && Unaided(e)
    ensures LeadsTo(t, es + [OnLink(e)], LinkNext(l, e))
  {
    RunThen(t, es, OnLink(e));
  }

  /** The socket fails, the timer fires, and the next socket is created. */
  lemma BackoffTries(t: Traced, es: seq<Event>, l: Link, n: nat, g: nat, a: nat, r: nat)
    returns (fs: seq<Event>, m: Link)
    requires LeadsTo(t, es, l) && Trying(l, n, g, a, r) && a < MAX_RECONNECT_ATTEMPTS
    ensures LeadsTo(t, fs, m) && Trying(m, n + 1, g + 1, a + 1, r)
  {
    fs, m := es, l;
    Extend(t, fs, m, SocketFails(n - 1, false, true));
    fs, m := fs + [OnLink(SocketFails(n - 1, false, true))], LinkNext(m, SocketFails(n - 1, false, true));
    Extend(t, fs, m, Timer(true));
    fs, m := fs + [OnLink(Timer(true))], LinkNext(m, Timer(true));
    Extend(t, fs, m, Token(g + 1));
    fs, m := fs + [OnLink(Token(g + 1))], LinkNext(m, Token(g + 1));
  }

  /** The socket's token is refused, and one with a fresh token is created. */
  lemma AuthTries(t: Traced, es: seq<Event>, l: Link, n: nat, g: nat, a: nat, r: nat)
    returns (fs: seq<Event>, m: Link)
    requires LeadsTo(t, es, l) && Trying(l, n, g, a, r) && r < MAX_AUTH_RETRIES
    ensures LeadsTo(t, fs, m) && Trying(m, n + 1, g + 1, a, r + 1)
  {
    fs, m := es, l;
    Extend(t, fs, m, SocketFails(n - 1, true, true));
    fs, m := fs + [OnLink(SocketFails(n - 1, true, true))], LinkNext(m, SocketFails(n - 1, true, true));
    Extend(t, fs, m, Token(g + 1));
    fs, m := fs + [OnLink(Token(g + 1))], LinkNext(m, Token(g + 1));
  }

  lemma {:induction false} BackoffsTry(t: Traced, es: seq<Event>, l: Link, n: nat, g: nat, a: nat, r: nat, rounds: nat)
    returns (fs: seq<Event>, m: Link)
    requires LeadsTo(t, es, l) && Trying(l, n, g, a, r) && a + rounds <= MAX_RECONNECT_ATTEMPTS
    ensures LeadsTo(t, fs, m) && Trying(m, n + rounds, g + rounds, a + rounds, r)
    decreases rounds
  {
    fs, m := es, l;
    if rounds > 0 {
      fs, m := BackoffTries(t, es, l, n, g, a, r);
      fs, m := BackoffsTry(t, fs, m, n + 1, g + 1, a + 1, r, rounds - 1);
    }
  }

  lemma {:induction false} AuthsTry(t: Traced, es: seq<Event>, l: Link, n: nat, g: nat, a: nat, r: nat, rounds: nat)
    returns (fs: seq<Event>, m: Link)
    requires LeadsTo(t, es, l) && Trying(l, n, g, a, r) && r + rounds <= MAX_AUTH_RETRIES
    ensures LeadsTo(t, fs, m) && Trying(m, n + rounds, g + rounds, a, r + rounds)
    decreases rounds
  {
    fs, m := es, l;
    if rounds > 0 {
      fs, m := AuthTries(t, es, l, n, g, a, r);
      fs, m := AuthsTry(t, fs, m, n + 1, g + 1, a, r + 1, rounds - 1);
    }
  }

  /** From a first socket, three auth retries and eight attempts create eleven more. */
  lemma ElevenMore(t: Traced, es: seq<Event>, l: Link, n: nat, g: nat) returns (fs: seq<Event>, m: Link)
    requires LeadsTo(t, es, l) && Trying(l, n, g, 0, 0)
    ensures LeadsTo(t, fs, m) && |m.factory.sockets| == n + 11
  {
    fs, m := AuthsTry(t, es, l, n, g, 0, 0, 3);
    fs, m := BackoffsTry(t, fs, m, n + 3, g + 3, 0, 3, 8);
  }

  // ----- The bounds are reached -----

  /** After a plain mount the client can create all twelve sockets. */
  lemma TwelveSockets(session: string) returns (after: seq<Event>)
    requires session != ""
    ensures var s := Step(Mounted(true, session), OnLink(Props(true, session, false, true)));
      && s.client.link.active && Leftover(s.client.link) == 0 && Legal(s, after) && AllUnaided(after)
      && |Run(s, after).client.link.factory.sockets| == |Mounted(true, session).client.link.factory.sockets| + 12
  {
    var s := Step(Mounted(true, session), OnLink(Props(true, session, false, true)));
    var l := s.client.link;
    assert l.factory == Factory(1, {1}, [], None);
    Start(s);
    Extend(s, [], l, Token(1));
    var m: Link;
    after, m := ElevenMore(s, [] + [OnLink(Token(1))], LinkNext(l, Token(1)), 1, 1);
  }

  /** A retry behind the effect, and another while the first one's socket fails: a call and a timer at once. */
  const BEHIND: seq<Event> :=
    [OnLink(Retry(true))] + [OnLink(Token(1))] + [OnLink(Retry(true))] + [OnLink(SocketFails(0, false, true))]

  lemma BehindLeavesBoth()
    ensures Legal(Mounted(true, ""), BEHIND)
    ensures var l := Run(Mounted(true, ""), BEHIND).client.link;
      && !l.kicked && !l.active && l.session == "" && l.budget.armed && l.budget.authRetries == 0
      && l.factory == Factory(2, {2}, [Socket(Connecting, true, false)], Some(0))
  {
    var t0 := Mounted(true, "");
    assert Legal(t0, []) && Run(t0, []) == t0;
    var e1: seq<Event> := [OnLink(Retry(true))];
    RunThen(t0, [], e1[0]);
    assert [] + e1 == e1;
    assert Run(t0, e1).client.link.factory == Factory(1, {1}, [], None);
    RunThen(t0, e1, OnLink(Token(1)));
    var e2 := e1 + [OnLink(Token(1))];
    assert Run(t0, e2).client.link.factory == Factory(1, {}, [Socket(Connecting, true, false)], Some(0));
    RunThen(t0, e2, OnLink(Retry(true)));
    var e3 := e2 + [OnLink(Retry(true))];
    assert Run(t0, e3).client.link.factory == Factory(2, {2}, [Socket(Connecting, true, false)], Some(0));
    RunThen(t0, e3, OnLink(SocketFails(0, false, true)));
  }

  lemma BehindActivates(session: string)
    requires session != ""
    ensures Legal(Mounted(true, ""), BEHIND)
    ensures var t := Run(Mounted(true, ""), BEHIND);
      var l := Step(t, OnLink(Props(true, session, false, false))).client.link;
      && |t.client.link.factory.sockets| == 1 && l.active && Leftover(l) == 1
      && !l.kicked && l.ready && l.budget.armed && l.budget.attempts == 0 && l.budget.authRetries == 0
      && l.factory == Factory(2, {2}, [Socket(Connecting, true, false)], Some(0))
  {
    BehindLeavesBoth();
  }

  /** The call left over creates a socket, and so does the timer left over. */
  lemma BothCreate(s: Traced) returns (es: seq<Event>, m: Link)
    requires var l := s.client.link;
      && !l.kicked && l.ready && l.budget.armed && l.budget.attempts == 0 && l.budget.authRetries == 0
      && l.factory == Factory(2, {2}, [Socket(Connecting, true, false)], Some(0))
    ensures LeadsTo(s, es, m) && Trying(m, 3, 3, 0, 0)
  {
    es, m := [], s.client.link;
    Start(s);
    Extend(s, es, m, Token(2));
    es, m := es + [OnLink(Token(2))], LinkNext(m, Token(2));
    Extend(s, es, m, Timer(true));
    es, m := es + [OnLink(Timer(true))], LinkNext(m, Timer(true));
    Extend(s, es, m, Token(3));
    es, m := es + [OnLink(Token(3))], LinkNext(m, Token(3));
  }

  /** When the effect then runs without the exam-auth marker, the client can create a thirteenth. */
  lemma ThirteenSockets(session: string) returns (after: seq<Event>)
    requires session != ""
    ensures Legal(Mounted(true, ""), BEHIND)
    ensures var t := Run(Mounted(true, ""), BEHIND);
      var s := Step(t, OnLink(Props(true, session, false, false)));
      && s.client.link.active && Leftover(s.client.link) == 1 && Legal(s, after) && AllUnaided(after)
      && |Run(s, after).client.link.factory.sockets| == |t.client.link.factory.sockets| + 13
  {
    BehindActivates(session);
    var s := Step(Run(Mounted(true, ""), BEHIND), OnLink(Props(true, session, false, false)));
    var m: Link;
    after, m := BothCreate(s);
    after, m := ElevenMore(s, after, m, 3, 3);
  }

  // ----- A failure after a connection -----

  /** A socket opened by a retry before the effect ran connects under a session... */
  function Early(session: string): seq<Event> {
    [OnLink(Retry(true))] + [OnLink(Token(1))] + [OnLink(Props(true, session, true, false))]
  }

  lemma EarlyTries(session: string)
    requires session != ""
    ensures Legal(Mounted(true, ""), Early(session))
    ensures var l := Run(Mounted(true, ""), Early(session)).client.link;
      && !l.kicked && !l.active && l.ready && l.session == session && l.budget == Budget(false, 0, 0, 0)
      && l.factory == Factory(1, {}, [Socket(Connecting, true, false)], Some(0))
  {
    var t0 := Mounted(true, "");
    assert Legal(t0, []) && Run(t0, []) == t0;
    var e1: seq<Event> := [OnLink(Retry(true))];
    RunThen(t0, [], e1[0]);
    assert [] + e1 == e1;
    assert Run(t0, e1).client.link.factory == Factory(1, {1}, [], None);
    RunThen(t0, e1, OnLink(Token(1)));
    var e2 := e1 + [OnLink(Token(1))];
    assert Run(t0, e2).client.link.factory == Factory(1, {}, [Socket(Connecting, true, false)], Some(0));
    RunThen(t0, e2, OnLink(Props(true, session, true, false)));
  }

  /** ...loses it and drops... */
  const DROPS: seq<Event> :=
    [OnLink(Props(true, "", false, false))] + [OnLink(SocketDrops(0, ServerSide))] + [OnLink(Timer(true))]

  lemma DropsAndCalls(s: Traced)
    requires var l := s.client.link;
      && !l.kicked && !l.active && l.ready && l.budget == Budget(false, 0, 0, 0)
      && l.factory == Factory(1, {}, [Socket(Connected, true, false)], Some(0))
    ensures Legal(s, DROPS)
    ensures var l := Run(s, DROPS).client.link;
      && !l.kicked && !l.active && l.session == "" && l.budget.authRetries == 0
      && l.factory == Factory(2, {2}, [Socket(Down, true, false)], Some(0))
  {
    assert Legal(s, []) && Run(s, []) == s;
    var e1: seq<Event> := [OnLink(Props(true, "", false, false))];
    RunThen(s, [], e1[0]);
    assert [] + e1 == e1;
    assert Run(s, e1).client.link.factory == s.client.link.factory;
    RunThen(s, e1, OnLink(SocketDrops(0, ServerSide)));
    var e2 := e1 + [OnLink(SocketDrops(0, ServerSide))];
    assert Run(s, e2).client.link.factory == Factory(1, {}, [Socket(Down, true, false)], Some(0));
    RunThen(s, e2, OnLink(Timer(true)));
  }

  /** ...its successor connects without one... */
  function Nameless(): seq<Event> {
    DROPS + [OnLink(Token(2))] + [OnLink(SocketConnects(1))]
  }

  lemma NamelessConnects(s: Traced)
    requires Legal(s, DROPS)
    requires var l := Run(s, DROPS).client.link;
      && !l.kicked && !l.active && l.session == "" && l.budget.authRetries == 0
      && l.factory == Factory(2, {2}, [Socket(Down, true, false)], Some(0))
    ensures Legal(s, Nameless())
    ensures var l := Run(s, Nameless()).client.link;
      && !l.kicked && !l.active && l.session == "" && l.connectedSession == "" && l.budget.authRetries == 0
      && l.factory == Factory(2, {}, [CLOSED, Socket(Connected, true, false)], Some(1))
  {
    RunThen(s, DROPS, OnLink(Token(2)));
    var e1 := DROPS + [OnLink(Token(2))];
    assert Run(s, e1).client.link.factory == Factory(2, {}, [CLOSED, Socket(Connecting, true, false)], Some(1));
    RunThen(s, e1, OnLink(SocketConnects(1)));
  }

  /** ...so that the effect, when the session is back, starts over as if it had never connected. */
  function Again(session: string): seq<Event> {
    Nameless() + [OnLink(Props(true, session, false, true))] + [OnLink(Token(3))]
  }

  lemma Reactivates(s: Traced, session: string)
    requires session != "" && Legal(s, Nameless())
    requires var l := Run(s, Nameless()).client.link;
      && !l.kicked && !l.active && l.connectedSession == "" && l.budget.authRetries == 0
      && l.factory == Factory(2, {}, [CLOSED, Socket(Connected, true, false)], Some(1))
    ensures var es := Nameless() + [OnLink(Props(true, session, false, true))];
      && Legal(s, es)
      && var l := Run(s, es).client.link;
         && !l.kicked && l.ready && !l.everConnected
         && !l.budget.armed && l.budget.attempts == 0 && l.budget.authRetries == 0
         && l.factory == Factory(3, {3}, [CLOSED, Socket(Connected, true, false)], Some(1))
  {
    RunThen(s, Nameless(), OnLink(Props(true, session, false, true)));
  }

  lemma AgainTries(s: Traced, session: string)
    requires session != "" && Legal(s, Nameless())
    requires var l := Run(s, Nameless()).client.link;
      && !l.kicked && !l.active && l.connectedSession == "" && l.budget.authRetries == 0
      && l.factory == Factory(2, {}, [CLOSED, Socket(Connected, true, false)], Some(1))
    ensures Legal(s, Again(session))
    ensures var l := Run(s, Again(session)).client.link; Trying(l, 3, 3, 0, 0) && !l.everConnected
  {
    Reactivates(s, session);
    RunThen(s, Nameless() + [OnLink(Props(true, session, false, true))], OnLink(Token(3)));
  }

  /** Failure after failure, with another attempt as long as one is left, ends in the error wall. */
  lemma {:induction false} GivingUpFails(s: Traced, es: seq<Event>, n: nat, g: nat, a: nat) returns (fs: seq<Event>)
    requires Legal(s, es) && Trying(Run(s, es).client.link, n, g, a, 0) && a <= MAX_RECONNECT_ATTEMPTS
    requires !Run(s, es).client.link.everConnected
    ensures Legal(s, fs) && Run(s, fs).client.link.status == Failed
    decreases MAX_RECONNECT_ATTEMPTS - a
  {
    fs := es + [OnLink(SocketFails(n - 1, false, true))];
    RunThen(s, es, OnLink(SocketFails(n - 1, false, true)));
    if a < MAX_RECONNECT_ATTEMPTS {
      RunThen(s, fs, OnLink(Timer(true)));
      fs := fs + [OnLink(Timer(true))];
      RunThen(s, fs, OnLink(Token(g + 1)));
      fs := fs + [OnLink(Token(g + 1))];
      fs := GivingUpFails(s, fs, n + 1, g + 1, a + 1);
    }
  }

  /** A session that has connected is reported as one that never did, after a connection without a session id. */
  lemma NamelessConnectionFails(session: string) returns (after: seq<Event>)
    requires session != ""
    ensures Legal(Mounted(true, ""), Early(session))
    ensures var t := Run(Mounted(true, ""), Early(session));
      && t.client.link.session == session && Enabled(t.client, OnLink(SocketConnects(0)))
      && var s := Step(t, OnLink(SocketConnects(0)));
         && HasConnected(s.client.link, session) && Legal(s, after)
         && Run(s, after).client.link.status == Failed && !NeverForgets(s, after, session)
  {
    EarlyTries(session);
    var s := Step(Run(Mounted(true, ""), Early(session)), OnLink(SocketConnects(0)));
    DropsAndCalls(s);
    NamelessConnects(s);
    AgainTries(s, session);
    after := GivingUpFails(s, Again(session), 3, 3, 0);
    RunStaysConnected(s, after, session);
  }
}
