/**
 The hook as the exam page uses it: the page offers the manual retry only while the connection
 is reported as failed.
 */
module ExamPage {
  import opened Wrappers
  import opened ExamAnswers
  import opened ExamLink
  import opened ExamRuns
  import opened ExamQueues
  import opened ExamReconnect

  /** A retry is offered in status failed alone, and the page is not unmounted. */
  predicate Offered(l: Link, e: LinkEvent) {
    !e.Unmount? && (e.Retry? ==> l.status == Failed)
  }

  ghost predicate OnPage(t: Traced, es: seq<Event>)
    requires Legal(t, es)
    decreases |es|
  {
    es == [] || ((es[0].OnLink? ==> Offered(t.client.link, es[0].link)) && OnPage(Step(t, es[0]), es[1..]))
  }

  /** A failure is reported only while the main effect is active, and inactive it leaves nothing behind. */
  ghost predicate FailsActive(l: Link) {
    Grounded(l) && (l.status == Failed ==> l.active)
  }

  /** Only the end of the attempts reports a failure, and only a socket uses up an attempt. */
  lemma FailureNeedsSocket(l: Link, e: LinkEvent)
    requires Possible(l, e) && Grounded(l) && Offered(l, e)
    ensures LinkNext(l, e).status == Failed && l.status != Failed ==> l.active && LinkNext(l, e).active
    ensures LinkNext(l, e).status == Failed && l.status == Failed ==> LinkNext(l, e).active == l.active
  {
    match e
    case SocketDrops(i, _) => l.factory.HeardKeeps(i, Connected, Down);
    case SocketFails(i, _, _) => l.factory.HeardKeeps(i, Connecting, Down);
    case _ =>
  }

  lemma StepFailsActive(t: Traced, e: Event)
    requires Enabled(t.client, e) && FailsActive(t.client.link)
    requires e.OnLink? ==> Offered(t.client.link, e.link)
    ensures FailsActive(Step(t, e).client.link)
  {
    StepStaysGrounded(t.client, e);
    if e.OnLink? {
      FailureNeedsSocket(t.client.link, e.link);
      assert Step(t, e).client.link == LinkNext(t.client.link, e.link);
    }
  }

  lemma {:induction false} PageStaysActive(t: Traced, es: seq<Event>)
    requires Legal(t, es) && OnPage(t, es) && FailsActive(t.client.link)
    ensures RetriesWhileActive(t, es) && FailsActive(Run(t, es).client.link)
    decreases |es|
  {
    if es != [] {
      StepFailsActive(t, es[0]);
      PageStaysActive(Step(t, es[0]), es[1..]);
    }
  }

  /** What the page does strands no answer and lets no violation overtake another. */
  lemma PageKeepsQueues(ready: bool, session: string, es: seq<Event>)
    requires Legal(Mounted(ready, session), es) && OnPage(Mounted(ready, session), es)
    ensures AwakeThroughout(Mounted(ready, session), es) && InOrderThroughout(Mounted(ready, session), es)
  {
    PageStaysActive(Mounted(ready, session), es);
    ActiveRetriesNeverStrand(ready, session, es);
    QueuedAnswersHaveWakeUp(ready, session, es);
    ActiveRetriesNeverOvertake(ready, session, es);
    ViolationsDeliveredInOrder(ready, session, es);
  }

  /** On the page every run of the main effect has twelve sockets to create, and no thirteenth. */
  lemma PageCreatesTwelve(ready: bool, session: string, before: seq<Event>, props: LinkEvent, after: seq<Event>)
    requires Legal(Mounted(ready, session), before) && OnPage(Mounted(ready, session), before) && props.Props?
    requires var t := Run(Mounted(ready, session), before);
      && Step(t, OnLink(props)).client.link.active
      && Legal(Step(t, OnLink(props)), after) && AllUnaided(after)
    ensures var t := Run(Mounted(ready, session), before);
      |Run(Step(t, OnLink(props)), after).client.link.factory.sockets| <= |t.client.link.factory.sockets| + 12
  {
    PageStaysActive(Mounted(ready, session), before);
    var t := Run(Mounted(ready, session), before);
    ActivatedLink(t.client.link, props);
    ReconnectionIsBounded(ready, session, before, props, after);
  }

  /** The props bring no session id but `session`, or none. */
  ghost predicate KeepsTo(es: seq<Event>, session: string) {
    forall e :: e in es && e.OnLink? && e.link.Props? ==> e.link.session in ["", session]
  }

  lemma {:induction false} PageForgetsOnlySessions(t: Traced, es: seq<Event>, session: string)
    requires Legal(t, es) && OnPage(t, es) && KeepsTo(es, session)
    requires FailsActive(t.client.link) && HasConnected(t.client.link, session)
    ensures NeverForgets(t, es, session)
    decreases |es|
  {
    if es != [] {
      if es[0].OnLink? && es[0].link.SocketConnects? {
        t.client.link.factory.HeardKeeps(es[0].link.i, Connecting, Connected);
      }
      assert es[0] in es;
      StepFailsActive(t, es[0]);
      StepStaysConnected(t.client, es[0], session);
      PageForgetsOnlySessions(Step(t, es[0]), es[1..], session);
    }
  }

  /** On the page no session is reported as failed once it has connected, while the props bring no other. */
  lemma PageNeverFailsConnected(ready: bool, session: string, before: seq<Event>, i: nat, after: seq<Event>)
    requires Legal(Mounted(ready, session), before) && OnPage(Mounted(ready, session), before)
    requires var t := Run(Mounted(ready, session), before);
      && Enabled(t.client, OnLink(SocketConnects(i)))
      && var s := Step(t, OnLink(SocketConnects(i)));
         Legal(s, after) && OnPage(s, after) && KeepsTo(after, t.client.link.session)
    ensures var t := Run(Mounted(ready, session), before);
      Run(Step(t, OnLink(SocketConnects(i))), after).client.link.status != Failed
  {
    var t := Run(Mounted(ready, session), before);
    var s := Step(t, OnLink(SocketConnects(i)));
    PageStaysActive(Mounted(ready, session), before);
    t.client.link.factory.HeardKeeps(i, Connecting, Connected);
    StepFailsActive(t, OnLink(SocketConnects(i)));
    PageForgetsOnlySessions(s, after, t.client.link.session);
    RunStaysConnected(s, after, t.client.link.session);
  }
}
