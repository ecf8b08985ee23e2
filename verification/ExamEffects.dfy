/** What each event does to the answers and the violations: what goes out, what waits, and which timer runs. */
module ExamEffects {
  import opened Wrappers
  import opened ExamAnswers
  import opened ExamLink
  import opened ExamRuns
  import opened ExamQueues

  lemma LiveMeans(f: Factory, i: nat)
    ensures f.Live() == Some(i) <==> f.current == Some(i) && i < |f.sockets| && f.sockets[i].phase == Connected
    ensures f.Live().None? <==>
      forall j: nat :: j < |f.sockets| && f.sockets[j].phase == Connected ==> f.current != Some(j)
  {
  }

  // ----- Answers, event by event -----

  /** `d` is `c` after one more save, on socket `i` in the session of the client. */
  ghost predicate Emitted(c: Client, d: Client, i: nat, answer: map<Key, Value>, isBatch: bool) {
    && c.link.session != ""
    && d.answers.emitted == c.answers.emitted + [Save(i, c.link.session, answer, isBatch)]
    && d.answers.open == c.answers.open + {|c.answers.emitted|}
    && d.answers.latestSent == c.answers.latestSent + answer
  }

  /** The save-retry timer sends all that waits as one batch, if it can, and is off in any case. */
  lemma RetrySends(c: Client)
    requires Enabled(c, RetryTimer)
    ensures var d, live := Next(c, RetryTimer), c.link.factory.Live();
      && !d.answers.retryArmed && d.link == c.link && d.queued == c.queued && d.reported == c.reported
      && if live.Some? && c.link.session != "" && c.answers.pending != map[] then
           Emitted(c, d, live.value, c.answers.pending, true) && d.answers.pending == map[]
         else
           d.answers.emitted == c.answers.emitted && d.answers.pending == c.answers.pending
  {
    assert map[] + c.answers.pending == c.answers.pending;
  }

  lemma ConnectFlushes(c: Client, i: nat)
    requires Enabled(c, OnLink(SocketConnects(i)))
    ensures var d := Next(c, OnLink(SocketConnects(i)));
      if c.link.session != "" && c.answers.pending != map[] then
        && Emitted(c, d, i, c.answers.pending, true) && d.answers.pending == map[]
        && d.answers.retryArmed == c.answers.retryArmed
      else
        d.answers == c.answers
  {
  }

  lemma ConnectReports(c: Client, i: nat)
    requires Enabled(c, OnLink(SocketConnects(i)))
    ensures var d := Next(c, OnLink(SocketConnects(i)));
      if c.link.session != "" then d.queued == [] && d.reported == c.reported + ReportAll(c.queued, c.link.session)
      else d.queued == c.queued && d.reported == c.reported
  {
  }

  /** `later` is `reported` with all that is queued behind it, in order, as reported late. */
  ghost predicate AllReported(reported: seq<Report>, later: seq<Report>, queued: seq<Violation>, session: string) {
    && |later| == |reported| + |queued| && reported <= later
    && forall j :: 0 <= j < |queued| ==> later[|reported| + j] == Report(session, queued[j].what, true)
  }

  lemma ReportAllReports(reported: seq<Report>, queued: seq<Violation>, session: string)
    ensures AllReported(reported, reported + ReportAll(queued, session), queued, session)
  {
  }

  /** A connection sends all that waits, if there is a session: the answers as one batch, the violations in order. */
  lemma ConnectSends(c: Client, i: nat)
    requires Enabled(c, OnLink(SocketConnects(i)))
    ensures var d := Next(c, OnLink(SocketConnects(i)));
      && (if c.link.session != "" && c.answers.pending != map[] then
            && Emitted(c, d, i, c.answers.pending, true) && d.answers.pending == map[]
            && d.answers.retryArmed == c.answers.retryArmed
          else
            d.answers == c.answers)
      && (if c.link.session != "" then
            d.queued == [] && AllReported(c.reported, d.reported, c.queued, c.link.session)
          else
            d.queued == c.queued && d.reported == c.reported)
  {
    ConnectFlushes(c, i);
    ConnectReports(c, i);
    ReportAllReports(c.reported, c.queued, c.link.session);
  }

  /** An answer goes out alone on a live socket with a session, and waits otherwise; either way nothing older waits. */
  lemma AnswerSends(c: Client, k: Key, v: Value)
    ensures var d, live := Next(c, Answer(k, v)), c.link.factory.Live();
      && d.link == c.link && d.queued == c.queued && d.reported == c.reported
      && d.answers.retryArmed == c.answers.retryArmed
      && (c.link.kicked ==> d == c)
      && (!c.link.kicked && live.Some? && c.link.session != "" ==>
            Emitted(c, d, live.value, map[k := v], false) && d.answers.pending == c.answers.pending - {k})
      && (!c.link.kicked && (live.None? || c.link.session == "") ==>
            d.answers == c.answers.(pending := c.answers.pending[k := v]))
  {
    assert (c.answers.pending - {k})[k := v] == c.answers.pending[k := v];
  }

  /**
   Without an answer from the server the values of a save wait again, each unless a newer one waits
   or was sent, and the retry timer runs. After a kick nothing happens.
   */
  lemma TimeoutRequeues(c: Client, id: nat, k: Key)
    requires Enabled(c, SaveUnanswered(id))
    ensures var d, answer := Next(c, SaveUnanswered(id)), c.answers.emitted[id].answer;
      && d == c.(answers := d.answers)
      && d.answers.emitted == c.answers.emitted && d.answers.latestSent == c.answers.latestSent
      && d.answers.open == c.answers.open - {id}
      && if c.link.kicked then
           d.answers.pending == c.answers.pending && d.answers.retryArmed == c.answers.retryArmed
         else
           && d.answers.retryArmed
           && (k in d.answers.pending <==>
                 || k in c.answers.pending
                 || (k in answer && k in c.answers.latestSent && c.answers.latestSent[k] == answer[k]))
           && (k in d.answers.pending ==>
                 d.answers.pending[k] == if k in c.answers.pending then c.answers.pending[k] else answer[k])
  {
  }

  lemma AckCloses(c: Client, id: nat)
    requires Enabled(c, SaveAcked(id))
    ensures Next(c, SaveAcked(id)) == c.(answers := c.answers.(open := c.answers.open - {id}))
  {
  }

  /** A batch of two answers or more that is refused as too big as a whole. */
  predicate TooBig(save: Save, reason: string) {
    save.isBatch && |save.answer| >= 2 && (reason == "TOO_MANY_ANSWERS" || reason == "ANSWER_TOO_LARGE")
  }

  /**
   `b` is `a` after each answer of a save was sent again alone, in the order of `keys`; without
   a session they wait instead.
   */
  ghost predicate SentAgain(a: Answers, b: Answers, session: string, save: Save, keys: seq<Key>)
    requires forall k :: k in keys ==> k in save.answer
  {
    && b.retryArmed == a.retryArmed
    && (session == "" ==> b == a.(pending := a.pending + save.answer))
    && (session != "" ==>
          && b.pending == a.pending && b.latestSent == a.latestSent + save.answer
          && |b.emitted| == |a.emitted| + |keys| && a.emitted <= b.emitted
          && forall j :: 0 <= j < |keys| ==>
               b.emitted[|a.emitted| + j] == Save(save.socket, session, map[keys[j] := save.answer[keys[j]]], false))
  }

  lemma EachSentAgain(a: Answers, session: string, save: Save, keys: seq<Key>)
    requires Enumerates(keys, save.answer)
    ensures SentAgain(a, EmitEach(a, session, save.socket, save.answer, keys), session, save, keys)
  {
    assert Only(save.answer, keys) == save.answer;
    if session == "" {
      EmitEachQueues(a, save.socket, save.answer, keys);
    } else {
      EmitEachSends(a, session, save.socket, save.answer, keys);
    }
  }

  /** Such a batch is sent again, each answer alone; any other refused save is not. */
  lemma RejectionSplits(c: Client, id: nat, reason: string, keys: seq<Key>)
    requires Enabled(c, SaveRejected(id, reason, keys))
    ensures var d, save := Next(c, SaveRejected(id, reason, keys)), c.answers.emitted[id];
      var closed := c.answers.(open := c.answers.open - {id});
      && d == c.(answers := d.answers)
      && if !c.link.kicked && TooBig(save, reason) then SentAgain(closed, d.answers, c.link.session, save, keys)
         else d.answers == closed
  {
    EachSentAgain(c.answers.(open := c.answers.open - {id}), c.link.session, c.answers.emitted[id], keys);
  }

  /** Except by connecting, the connection leaves the answers alone; its cleanup stops the retry timer. */
  lemma LinkLeavesAnswers(c: Client, l: LinkEvent)
    requires Enabled(c, OnLink(l)) && !l.SocketConnects?
    ensures var d := Next(c, OnLink(l));
      && d.queued == c.queued && d.reported == c.reported
      && d.answers == c.answers.(retryArmed := c.answers.retryArmed && !((l.Props? || l.Unmount?) && c.link.active))
  {
  }

  // ----- Violations -----

  /** A violation goes out at once on a live socket with a session, and otherwise waits behind 199 others at most. */
  lemma ViolationSends(c: Client, what: int)
    ensures var d, live := Next(c, Violate(what)), c.link.factory.Live().Some? && c.link.session != "";
      && d.link == c.link && d.answers == c.answers
      && d.reported == (if !c.link.kicked && live then c.reported + [Report(c.link.session, what, false)]
                        else c.reported)
      && d.queued == (if !c.link.kicked && !live && |c.queued| < 200 then c.queued + [Violation(c.link.session, what)]
                      else c.queued)
  {
  }

  // ----- Runs -----

  lemma EmittedGrows(c: Client, e: Event)
    requires Enabled(c, e)
    ensures c.answers.emitted <= Next(c, e).answers.emitted
  {
    match e
    case SaveRejected(id, reason, keys) => RejectionSplits(c, id, reason, keys);
    case _ =>
  }

  predicate Carries(save: Save, i: nat, k: Key) {
    save.socket == i && k in save.answer
  }

  /** A save of `k` on socket `i`, emitted from the `from`th on. */
  ghost predicate WentOut(c: Client, from: nat, i: nat, k: Key) {
    exists n: nat :: from <= n < |c.answers.emitted| && Carries(c.answers.emitted[n], i, k)
  }

  lemma StepKeepsOrSends(c: Client, e: Event, i: nat, k: Key)
    requires Enabled(c, e) && c.link.factory.Valid() && c.link.factory.Live() == Some(i) && c.link.session != ""
    requires k in c.answers.pending
    ensures k in Next(c, e).answers.pending || WentOut(Next(c, e), |c.answers.emitted|, i, k)
  {
    var d := Next(c, e);
    match e
    case SaveRejected(id, reason, keys) => RejectionSplits(c, id, reason, keys);
    case Answer(key, value) =>
      if key == k && !c.link.kicked {
        assert Carries(d.answers.emitted[|c.answers.emitted|], i, k);
      }
    case RetryTimer =>
      RetrySends(c);
      assert Carries(d.answers.emitted[|c.answers.emitted|], i, k);
    case OnLink(l) =>
      if l.SocketConnects? {
        c.link.factory.HeardKeeps(l.i, Connecting, Connected);
      } else {
        LinkLeavesAnswers(c, l);
      }
    case _ =>
  }

  lemma WentOutStays(c: Client, d: Client, from: nat, later: nat, i: nat, k: Key)
    requires from <= later && c.answers.emitted <= d.answers.emitted
    ensures WentOut(c, from, i, k) ==> WentOut(d, from, i, k)
    ensures WentOut(d, later, i, k) ==> WentOut(d, from, i, k)
  {
    if WentOut(c, from, i, k) {
      var n: nat :| from <= n < |c.answers.emitted| && Carries(c.answers.emitted[n], i, k);
      assert d.answers.emitted[n] == c.answers.emitted[n];
    }
  }

  /** Socket `i` is live, with a session, in every state of the run. */
  ghost predicate LiveThroughout(t: Traced, es: seq<Event>, i: nat)
    requires Legal(t, es)
    decreases |es|
  {
    && t.client.link.factory.Live() == Some(i) && t.client.link.session != ""
    && (es == [] || LiveThroughout(Step(t, es[0]), es[1..], i))
  }

  lemma {:induction false} RunKeepsOrSends(t: Traced, es: seq<Event>, i: nat, k: Key, from: nat)
    requires Legal(t, es) && LiveThroughout(t, es, i) && t.client.link.factory.Valid()
    requires from <= |t.client.answers.emitted|
    requires k in t.client.answers.pending || WentOut(t.client, from, i, k)
    ensures var u := Run(t, es).client;
      && u.link.factory.Live() == Some(i) && u.link.session != "" && from <= |u.answers.emitted|
      && (k in u.answers.pending || WentOut(u, from, i, k))
    decreases |es|
  {
    if es != [] {
      var next := Step(t, es[0]);
      StepKeepsFactory(t, es[0]);
      EmittedGrows(t.client, es[0]);
      WentOutStays(t.client, next.client, from, |t.client.answers.emitted|, i, k);
      if k in t.client.answers.pending {
        StepKeepsOrSends(t.client, es[0], i, k);
      }
      RunKeepsOrSends(next, es[1..], i, k, from);
    }
  }

  /**
   An answer that waits while a socket is live goes out on that socket, by the next time the
   retry timer fires, as long as the socket stays live and whatever else happens; then nothing
   waits any more.
   */
  lemma QueuedAnswerGoesOut(ready: bool, session: string, before: seq<Event>, es: seq<Event>, i: nat, k: Key)
    requires Legal(Mounted(ready, session), before)
    requires var t := Run(Mounted(ready, session), before);
      && Legal(t, es) && LiveThroughout(t, es, i)
      && k in t.client.answers.pending && Enabled(Run(t, es).client, RetryTimer)
    ensures var t := Run(Mounted(ready, session), before);
      var u := Step(Run(t, es), RetryTimer).client;
      u.answers.pending == map[] && !u.answers.retryArmed && WentOut(u, |t.client.answers.emitted|, i, k)
  {
    var t := Run(Mounted(ready, session), before);
    RunKeepsFactory(Mounted(ready, session), before);
    RunKeepsOrSends(t, es, i, k, |t.client.answers.emitted|);
    var c := Run(t, es).client;
    var u := Step(Run(t, es), RetryTimer).client;
    RetrySends(c);
    WentOutStays(c, u, |t.client.answers.emitted|, |c.answers.emitted|, i, k);
    if k in c.answers.pending {
      assert Carries(u.answers.emitted[|c.answers.emitted|], i, k);
    }
  }

  /** Where no step stranded them, the answers that wait on a live socket can go out at once: the timer runs. */
  lemma QueuedAnswersCanGo(ready: bool, session: string, es: seq<Event>, i: nat)
    requires Legal(Mounted(ready, session), es) && NeverStrands(Mounted(ready, session), es)
    requires var c := Run(Mounted(ready, session), es).client;
      c.link.factory.Live() == Some(i) && c.link.session != "" && !c.link.kicked && c.answers.pending != map[]
    ensures var c := Run(Mounted(ready, session), es).client;
      && Enabled(c, RetryTimer)
      && Emitted(c, Next(c, RetryTimer), i, c.answers.pending, true) && Next(c, RetryTimer).answers.pending == map[]
  {
    QueuedAnswersHaveWakeUp(ready, session, es);
    RetrySends(Run(Mounted(ready, session), es).client);
  }

  // ----- History -----

  /** The value of the last answer of the run that was given for `k` before a kick. */
  ghost function LastGiven(t: Traced, es: seq<Event>, k: Key, first: Option<Value>): Option<Value>
    requires Legal(t, es)
    decreases |es|
  {
    if es == [] then first
    else
      var given := if es[0].Answer? && es[0].key == k && !t.client.link.kicked then Some(es[0].value) else first;
      LastGiven(Step(t, es[0]), es[1..], k, given)
  }

  function Lookup(m: map<Key, Value>, k: Key): Option<Value> {
    if k in m then Some(m[k]) else None
  }

  /** The history knows of each key the last answer that the user gave. */
  lemma {:induction false} GivenIsLast(t: Traced, es: seq<Event>, k: Key)
    requires Legal(t, es)
    ensures Lookup(Run(t, es).ledger.given, k) == LastGiven(t, es, k, Lookup(t.ledger.given, k))
    decreases |es|
  {
    if es != [] {
      GivenIsLast(Step(t, es[0]), es[1..], k);
    }
  }

  /** A key counts as overtaken by a split exactly when the split leaves an older value as its newest. */
  lemma OvertakenIff(t: Traced, id: nat, reason: string, keys: seq<Key>, k: Key)
    requires Enabled(t.client, SaveRejected(id, reason, keys)) && PayloadsGiven(t) && KeyKept(t, k)
    requires k in t.ledger.given && k !in t.ledger.overtaken
    ensures var u := Step(t, SaveRejected(id, reason, keys));
      k in u.ledger.overtaken <==> !Fresh(u.client.answers, t.ledger, k)
  {
    var c := t.client;
    var save := c.answers.emitted[id];
    if !c.link.kicked && Splits(save, reason) {
      SplitStaysFreshIff(c.answers, t.ledger, c.link.session, id, reason, keys, k);
    }
  }

  /** A key counts as rejected exactly when its newest answer was refused for good, until another is given. */
  lemma RejectedIff(t: Traced, e: Event, k: Key)
    requires Enabled(t.client, e)
    ensures k in Step(t, e).ledger.rejected <==>
      || (k in t.ledger.rejected && !(e.Answer? && e.key == k && !t.client.link.kicked))
      || (e.SaveRejected? && !t.client.link.kicked
          && !TooBig(t.client.answers.emitted[e.id], e.reason)
          && k in t.client.answers.emitted[e.id].answer && k in t.ledger.given
          && t.ledger.given[k] == t.client.answers.emitted[e.id].answer[k])
  {
    match e
    case Answer(_, _) =>
    case SaveRejected(_, _, _) =>
    case _ =>
  }

  /** Acknowledged are exactly the saves the server said it saved. */
  lemma {:induction false} AckedIff(t: Traced, es: seq<Event>, id: nat)
    requires Legal(t, es)
    ensures id in Run(t, es).ledger.acked <==> id in t.ledger.acked || SaveAcked(id) in es
    decreases |es|
  {
    if es != [] {
      AckedIff(Step(t, es[0]), es[1..], id);
      assert es == [es[0]] + es[1..];
    }
  }
}
