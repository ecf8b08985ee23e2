/**
 The exam hook in the form it is written: one object whose references are updated in place
 by callbacks. Each callback is proved to do what the transition system says of its event.
 */
module ExamSocketHook {
  import opened Wrappers
  import opened ExamAnswers
  import opened ExamLink
  import opened ExamRuns

  /** What `base` becomes when the first `i` keys are taken from `more`. */
  function Merged(base: map<Key, Value>, more: map<Key, Value>, keys: seq<Key>, i: nat): map<Key, Value>
    requires i <= |keys|
  {
    if i == 0 then base
    else
      var before := Merged(base, more, keys, i - 1);
      if keys[i - 1] in more then before[keys[i - 1] := more[keys[i - 1]]] else before
  }

  lemma {:induction false} MergedIs(base: map<Key, Value>, more: map<Key, Value>, keys: seq<Key>, i: nat)
    requires i <= |keys|
    ensures forall k :: k in Merged(base, more, keys, i) <==> k in base || (k in keys[..i] && k in more)
    ensures forall k :: k in Merged(base, more, keys, i) ==>
      Merged(base, more, keys, i)[k] == if k in keys[..i] && k in more then more[k] else base[k]
    decreases i
  {
    if i > 0 {
      MergedIs(base, more, keys, i - 1);
      assert keys[..i] == keys[..i - 1] + [keys[i - 1]];
    }
  }

  lemma MergedAll(base: map<Key, Value>, more: map<Key, Value>, keys: seq<Key>)
    requires forall k :: k in more ==> k in keys
    ensures Merged(base, more, keys, |keys|) == base + more
  {
    MergedIs(base, more, keys, |keys|);
    assert keys[..|keys|] == keys;
  }

  /** The test the loop makes finds what is to be requeued, although it looks at the queue as it grows. */
  lemma RequeueTest(a: Answers, answer: map<Key, Value>, keys: seq<Key>, i: nat)
    requires i < |keys| && Enumerates(keys, answer)
    ensures var k, more := keys[i], Requeued(a, answer);
      && (k in more <==>
            k !in Merged(a.pending, more, keys, i) && k in a.latestSent && k in answer && a.latestSent[k] == answer[k])
      && (k in more ==> more[k] == answer[k])
  {
    MergedIs(a.pending, Requeued(a, answer), keys, i);
    assert keys[i] in answer && keys[i] !in keys[..i];
  }

  class ExamSocket {
    var isKicked: bool
    var ready: bool
    var sessionId: string
    var effectActive: bool
    var hasEverConnected: bool
    var connectedSessionId: string
    var status: Status

    var generation: nat
    var awaitingToken: set<nat>
    var sockets: seq<Socket>
    var socketRef: Option<nat>

    var reconnectArmed: bool
    var reconnectAttempts: nat
    var authRetries: nat
    var scheduled: nat

    var pendingAnswers: map<Key, Value>
    var latestSent: map<Key, Value>
    var saveRetryArmed: bool
    var emitted: seq<Save>
    var open: set<nat>

    var pendingViolations: seq<Violation>
    var reported: seq<Report>

    function FactoryView(): Factory
      reads `generation, `awaitingToken, `sockets, `socketRef
    {
      Factory(generation, awaitingToken, sockets, socketRef)
    }

    function BudgetView(): Budget
      reads `reconnectArmed, `reconnectAttempts, `authRetries, `scheduled
    {
      Budget(reconnectArmed, reconnectAttempts, authRetries, scheduled)
    }

    function LinkView(): Link
      reads `isKicked, `ready, `sessionId, `effectActive, `hasEverConnected, `connectedSessionId, `status
      reads `generation, `awaitingToken, `sockets, `socketRef
      reads `reconnectArmed, `reconnectAttempts, `authRetries, `scheduled
    {
      Link(isKicked, ready, sessionId, effectActive, hasEverConnected, connectedSessionId, status,
           FactoryView(), BudgetView())
    }

    function AnswersView(): Answers
      reads `pendingAnswers, `latestSent, `saveRetryArmed, `emitted, `open
    {
      Answers(pendingAnswers, latestSent, saveRetryArmed, emitted, open)
    }

    function View(): Client
      reads this
    {
      Client(LinkView(), AnswersView(), pendingViolations, reported)
    }

    constructor (ready: bool, sessionId: string)
      ensures View() == Mounted(ready, sessionId).client
    {
      this.isKicked, this.ready, this.sessionId, this.effectActive := false, ready, sessionId, false;
      this.hasEverConnected, this.connectedSessionId, this.status := false, "", Idle;
      this.generation, this.awaitingToken, this.sockets, this.socketRef := 0, {}, [], None;
      this.reconnectArmed, this.reconnectAttempts, this.authRetries, this.scheduled := false, 0, 0, 0;
      this.pendingAnswers, this.latestSent, this.saveRetryArmed := map[], map[], false;
      this.emitted, this.open, this.pendingViolations, this.reported := [], {}, [], [];
    }

    // ----- Answers -----

    method EmitSave(socket: nat, answer: map<Key, Value>, isBatch: bool)
      modifies `pendingAnswers, `latestSent, `emitted, `open
      ensures AnswersView() == ExamAnswers.EmitSave(old(AnswersView()), sessionId, socket, answer, isBatch)
    {
      if sessionId == "" {
        pendingAnswers := pendingAnswers + answer;
        return;
      }
      latestSent := latestSent + answer;
      open := open + {|emitted|};
      emitted := emitted + [Save(socket, sessionId, answer, isBatch)];
    }

    method FlushAnswers(socket: nat)
      modifies `pendingAnswers, `latestSent, `emitted, `open
      ensures AnswersView() == Flush(old(AnswersView()), sessionId, socket)
    {
      if pendingAnswers != map[] {
        var answer := pendingAnswers;
        pendingAnswers := map[];
        EmitSave(socket, answer, true);
      }
    }

    /** The loop over the entries of an unanswered save; `keys` is their order. */
    method Requeue(answer: map<Key, Value>, keys: seq<Key>)
      requires Enumerates(keys, answer)
      modifies `pendingAnswers
      ensures pendingAnswers == old(pendingAnswers) + Requeued(old(AnswersView()), answer)
    {
      ghost var before, more := AnswersView(), Requeued(AnswersView(), answer);
      var i := 0;
      while i < |keys|
        invariant 0 <= i <= |keys|
        invariant pendingAnswers == Merged(before.pending, more, keys, i)
      {
        var k := keys[i];
        RequeueTest(before, answer, keys, i);
        if k !in pendingAnswers && k in latestSent && latestSent[k] == answer[k] {
          pendingAnswers := pendingAnswers[k := answer[k]];
        }
        i := i + 1;
      }
      MergedAll(before.pending, more, keys);
    }

    method OnUnanswered(id: nat, keys: seq<Key>)
      requires id < |emitted| && Enumerates(keys, emitted[id].answer)
      modifies `open, `pendingAnswers, `saveRetryArmed
      ensures AnswersView() == Unanswered(old(AnswersView()), isKicked, id)
    {
      open := open - {id};
      if isKicked {
        return;
      }
      Requeue(emitted[id].answer, keys);
      if !saveRetryArmed {
        saveRetryArmed := true;
      }
    }

    method OnSaved(id: nat)
      modifies `open
      ensures AnswersView() == Acked(old(AnswersView()), id)
    {
      open := open - {id};
    }

    method OnRejected(id: nat, reason: string, keys: seq<Key>)
      requires id < |emitted| && Enumerates(keys, emitted[id].answer)
      modifies `open, `pendingAnswers, `latestSent, `emitted
      ensures AnswersView() == Rejected(old(AnswersView()), isKicked, sessionId, id, reason, keys)
    {
      open := open - {id};
      var save := emitted[id];
      if isKicked || !Splits(save, reason) {
        return;
      }
      ghost var start := AnswersView();
      var i := 0;
      while i < |keys|
        invariant 0 <= i <= |keys|
        invariant EmitEach(AnswersView(), sessionId, save.socket, save.answer, keys[i..])
               == EmitEach(start, sessionId, save.socket, save.answer, keys)
        invariant saveRetryArmed == start.retryArmed
      {
        assert keys[i..][0] == keys[i] && keys[i..][1..] == keys[i + 1..];
        EmitSave(save.socket, map[keys[i] := save.answer[keys[i]]], false);
        i := i + 1;
      }
    }

    /** `socketRef.current?.connected`. */
    method LiveSocket() returns (live: Option<nat>)
      ensures live == FactoryView().Live()
    {
      if socketRef.Some? && socketRef.value < |sockets| && sockets[socketRef.value].phase == Connected {
        return socketRef;
      }
      return None;
    }

    method OnRetryTimer()
      modifies `saveRetryArmed, `pendingAnswers, `latestSent, `emitted, `open
      ensures AnswersView() == RetryFires(old(AnswersView()), sessionId, FactoryView().Live())
    {
      saveRetryArmed := false;
      var live := LiveSocket();
      if live.None? || pendingAnswers == map[] {
        return;
      }
      FlushAnswers(live.value);
    }

    method QueueAnswer(key: Key, value: Value)
      modifies `pendingAnswers, `latestSent, `emitted, `open
      ensures AnswersView()
           == ExamAnswers.QueueAnswer(old(AnswersView()), isKicked, sessionId, FactoryView().Live(), key, value)
    {
      if isKicked {
        return;
      }
      pendingAnswers := pendingAnswers - {key};
      var live := LiveSocket();
      if live.Some? && sessionId != "" {
        EmitSave(live.value, map[key := value], false);
        return;
      }
      pendingAnswers := pendingAnswers[key := value];
    }

    // ----- Violations -----

    method RecordViolation(what: int)
      modifies `pendingViolations, `reported
      ensures View() == LogViolation(old(View()), what)
    {
      if isKicked {
        return;
      }
      var live := LiveSocket();
      if live.Some? && sessionId != "" {
        reported := reported + [Report(sessionId, what, false)];
        return;
      }
      if |pendingViolations| < MAX_PENDING_VIOLATIONS {
        pendingViolations := pendingViolations + [Violation(sessionId, what)];
      }
    }

    method FlushViolations()
      modifies `pendingViolations, `reported
      ensures pendingViolations == [] && reported == old(reported) + ReportAll(old(pendingViolations), sessionId)
    {
      var queued := pendingViolations;
      pendingViolations := [];
      var i := 0;
      while i < |queued|
        modifies `reported
        invariant 0 <= i <= |queued|
        invariant reported == old(reported) + ReportAll(queued, sessionId)[..i]
      {
        reported := reported + [Report(sessionId, queued[i].what, true)];
        i := i + 1;
      }
    }

    // ----- Connection -----

    method CloseCurrent()
      modifies `sockets
      ensures FactoryView() == old(FactoryView().CloseCurrent())
    {
      if socketRef.Some? && socketRef.value < |sockets| {
        sockets := sockets[socketRef.value := CLOSED];
      }
    }

    method InitSocket(marked: bool)
      modifies `generation, `awaitingToken, `reconnectArmed
      ensures LinkView() == ExamLink.InitSocket(old(LinkView()), marked)
    {
      if isKicked || !ready || !marked {
        return;
      }
      generation := generation + 1;
      reconnectArmed := false;
      awaitingToken := awaitingToken + {generation};
    }

    method OnToken(g: nat)
      modifies `awaitingToken, `sockets, `socketRef
      ensures LinkView() == TokenArrives(old(LinkView()), g)
    {
      awaitingToken := awaitingToken - {g};
      if isKicked || g != generation {
        return;
      }
      TearDown();
      sockets := sockets + [Socket(Connecting, true, false)];
      socketRef := Some(|sockets| - 1);
    }

    method ScheduleReconnect()
      modifies `reconnectAttempts, `status, `reconnectArmed, `scheduled
      ensures LinkView() == ExamLink.ScheduleReconnect(old(LinkView()))
    {
      if isKicked {
        return;
      }
      reconnectAttempts := reconnectAttempts + 1;
      if reconnectAttempts > MAX_RECONNECT_ATTEMPTS {
        if !hasEverConnected {
          status := Failed;
        }
        return;
      }
      scheduled := scheduled + Delay(reconnectAttempts);
      reconnectArmed := true;
    }

    method Join(i: nat)
      requires i < |sockets|
      modifies `sockets, `reconnectAttempts, `authRetries, `hasEverConnected, `connectedSessionId, `status
      ensures LinkView() == Connects(old(LinkView()), i)
    {
      sockets := sockets[i := sockets[i].(phase := Connected)];
      reconnectAttempts, authRetries := 0, 0;
      hasEverConnected, connectedSessionId, status := true, sessionId, Joined;
    }

    /** Both queues go out on the fresh socket, if there is a session. */
    method FlushQueues(i: nat)
      modifies `pendingAnswers, `latestSent, `emitted, `open, `pendingViolations, `reported
      ensures sessionId == "" ==> AnswersView() == old(AnswersView()) && unchanged(`pendingViolations, `reported)
      ensures sessionId != "" ==> AnswersView() == Flush(old(AnswersView()), sessionId, i)
      ensures sessionId != "" ==>
        pendingViolations == [] && reported == old(reported) + ReportAll(old(pendingViolations), sessionId)
    {
      if sessionId != "" {
        FlushAnswers(i);
        FlushViolations();
      }
    }

    method OnConnect(i: nat)
      requires i < |sockets|
      modifies this
      ensures LinkView() == Connects(old(LinkView()), i)
      ensures sessionId == "" ==> AnswersView() == old(AnswersView()) && unchanged(`pendingViolations, `reported)
      ensures sessionId != "" ==> AnswersView() == Flush(old(AnswersView()), sessionId, i)
      ensures sessionId != "" ==>
        pendingViolations == [] && reported == old(reported) + ReportAll(old(pendingViolations), sessionId)
    {
      Join(i);
      FlushQueues(i);
    }

    method OnDisconnect(i: nat, reason: Reason)
      requires i < |sockets|
      modifies `sockets, `status, `reconnectAttempts, `reconnectArmed, `scheduled
      ensures LinkView() == Drops(old(LinkView()), i, reason)
    {
      sockets := sockets[i := sockets[i].(phase := Down)];
      if isKicked {
        return;
      }
      if reason == ServerSide {
        status := Joining;
        ScheduleReconnect();
      }
    }

    method OnConnectError(authFailed: bool, marked: bool)
      modifies `authRetries, `isKicked, `status, `generation, `awaitingToken, `reconnectArmed,
               `reconnectAttempts, `scheduled
      ensures LinkView() == ConnectFails(old(LinkView()), authFailed, marked)
    {
      if authFailed {
        authRetries := authRetries + 1;
        if authRetries > MAX_AUTH_RETRIES {
          isKicked := true;
          return;
        }
        status := Joining;
        InitSocket(marked);
        return;
      }
      status := Joining;
      ScheduleReconnect();
    }

    method OnKick(i: nat, disconnects: bool)
      requires i < |sockets|
      modifies `isKicked, `sockets
      ensures LinkView() == Kicks(old(LinkView()), i, disconnects)
    {
      isKicked := true;
      if disconnects {
        sockets := sockets[i := sockets[i].(phase := Down, closed := true)];
      }
    }

    method OnReconnectTimer(marked: bool)
      modifies `generation, `awaitingToken, `reconnectArmed
      ensures LinkView() == TimerFires(old(LinkView()), marked)
    {
      reconnectArmed := false;
      InitSocket(marked);
    }

    method TearDown()
      modifies `sockets, `socketRef
      ensures FactoryView() == old(FactoryView().TearDown())
    {
      CloseCurrent();
      socketRef := None;
    }

    method Supersede()
      modifies `generation, `sockets, `socketRef
      ensures FactoryView() == old(FactoryView().CleanUp())
    {
      generation := generation + 1;
      TearDown();
    }

    method CleanUp()
      modifies `generation, `saveRetryArmed, `reconnectArmed, `sockets, `socketRef, `effectActive
      ensures LinkView() == ExamLink.CleanUp(old(LinkView()))
      ensures !saveRetryArmed
    {
      Supersede();
      saveRetryArmed := false;
      reconnectArmed := false;
      effectActive := false;
    }

    method OnUnmount()
      modifies `generation, `saveRetryArmed, `reconnectArmed, `sockets, `socketRef, `effectActive
      ensures LinkView() == Unmounts(old(LinkView())) && AnswersView() == StopRetry(old(View()))
    {
      if effectActive {
        CleanUp();
      }
    }

    method OnPropsChange(ready: bool, sessionId: string, notFound: bool, marked: bool)
      modifies `generation, `saveRetryArmed, `reconnectArmed, `sockets, `socketRef, `effectActive
      modifies `ready, `sessionId, `status, `reconnectAttempts, `hasEverConnected, `awaitingToken
      ensures LinkView() == PropsChange(old(LinkView()), ready, sessionId, notFound, marked)
      ensures AnswersView() == StopRetry(old(View()))
    {
      OnUnmount();
      assert LinkView() == Unmounts(old(LinkView()));
      RunEffect(ready, sessionId, notFound, marked);
    }

    /** The mirrors take the new props and the effect runs. */
    method RunEffect(ready: bool, sessionId: string, notFound: bool, marked: bool)
      modifies `ready, `sessionId, `status, `effectActive, `reconnectAttempts, `hasEverConnected
      modifies `generation, `awaitingToken, `reconnectArmed
      ensures LinkView() == EffectRuns(old(LinkView()), ready, sessionId, notFound, marked)
    {
      this.ready, this.sessionId := ready, sessionId;
      if !ready || sessionId == "" || isKicked || notFound {
        status := Idle;
        return;
      }
      effectActive := true;
      reconnectAttempts := 0;
      if connectedSessionId != sessionId {
        hasEverConnected := false;
      }
      status := Joining;
      assert LinkView() == old(LinkView()).(ready := ready, session := sessionId, active := true, status := Joining,
        everConnected := hasEverConnected, budget := old(BudgetView()).(attempts := 0));
      InitSocket(marked);
    }

    method Disconnect()
      modifies `isKicked, `reconnectArmed, `sockets
      ensures LinkView() == Disconnects(old(LinkView()))
    {
      isKicked := true;
      reconnectArmed := false;
      CloseCurrent();
    }

    method RetryConnection(marked: bool)
      modifies `reconnectAttempts, `hasEverConnected, `status, `generation, `awaitingToken, `reconnectArmed
      ensures LinkView() == Retries(old(LinkView()), marked)
    {
      if isKicked {
        return;
      }
      reconnectAttempts := 0;
      hasEverConnected := false;
      status := Joining;
      InitSocket(marked);
    }

    /** Every callback, dispatched by the event that runs it, takes the step of the transition system. */
    method Handle(e: Event, keys: seq<Key>)
      requires Enabled(View(), e)
      requires e.SaveUnanswered? ==> Enumerates(keys, emitted[e.id].answer)
      modifies this
      ensures View() == Next(old(View()), e)
    {
      match e
      case OnLink(l) => HandleLink(l);
      case Answer(k, v) => QueueAnswer(k, v);
      case Violate(what) => RecordViolation(what);
      case SaveUnanswered(id) => OnUnanswered(id, keys);
      case SaveAcked(id) => OnSaved(id);
      case SaveRejected(id, reason, order) => OnRejected(id, reason, order);
      case RetryTimer => OnRetryTimer();
    }

    method HandleLink(l: LinkEvent)
      requires Possible(LinkView(), l)
      modifies this
      ensures View() == Next(old(View()), OnLink(l))
    {
      match l
      case SocketConnects(i) => HandleConnect(i);
      case Props(ready, session, notFound, marked) => HandleProps(ready, session, notFound, marked);
      case Unmount => HandleUnmount();
      case _ => HandleOther(l);
    }

    method HandleProps(ready: bool, session: string, notFound: bool, marked: bool)
      modifies this
      ensures View() == Next(old(View()), OnLink(Props(ready, session, notFound, marked)))
    {
      OnPropsChange(ready, session, notFound, marked);
    }

    method HandleUnmount()
      modifies this
      ensures View() == Next(old(View()), OnLink(Unmount))
    {
      OnUnmount();
    }

    method HandleOther(l: LinkEvent)
      requires Possible(LinkView(), l) && !l.SocketConnects? && !l.Props? && !l.Unmount?
      modifies this
      ensures View() == Next(old(View()), OnLink(l))
    {
      HandlePlain(l);
    }

    method HandleConnect(i: nat)
      requires Possible(LinkView(), SocketConnects(i))
      modifies this
      ensures View() == Next(old(View()), OnLink(SocketConnects(i)))
    {
      OnConnect(i);
    }

    /** The events that concern the connection alone. */
    method HandlePlain(l: LinkEvent)
      requires Possible(LinkView(), l) && !l.SocketConnects? && !l.Props? && !l.Unmount?
      modifies `isKicked, `hasEverConnected, `status, `generation, `awaitingToken, `sockets, `socketRef
      modifies `reconnectArmed, `reconnectAttempts, `authRetries, `scheduled
      ensures LinkView() == LinkNext(old(LinkView()), l)
    {
      match l
      case Token(g) => OnToken(g);
      case Timer(marked) => OnReconnectTimer(marked);
      case SocketDrops(i, reason) => OnDisconnect(i, reason);
      case SocketFails(_, authFailed, marked) => OnConnectError(authFailed, marked);
      case SocketKicks(i, disconnects) => OnKick(i, disconnects);
      case Disconnect => Disconnect();
      case Retry(marked) => RetryConnection(marked);
    }
  }
}
