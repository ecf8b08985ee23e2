/**
 The connection of the exam client: sockets created by an asynchronous factory, the
 generation counter that tells a superseded factory call to stop, bounded reconnection.
 */
module ExamLink {
  import opened Numbers
  import opened Wrappers

  // ----- Sockets and their factory -----

  datatype Phase = Connecting | Connected | Down

  /** `closed`: the client called `disconnect()` on it. `listening`: its handlers are attached. */
  datatype Socket = Socket(phase: Phase, listening: bool, closed: bool)

  const CLOSED := Socket(Down, false, true)

  /**
   `awaiting`: generations of the factory calls that wait for their token. `sockets`:
   every socket ever created, named by its index. `current`: `socketRef.current`.
   */
  datatype Factory = Factory(generation: nat, awaiting: set<nat>, sockets: seq<Socket>, current: Option<nat>)
  {
    predicate HasCurrent() {
      current.Some? && current.value < |sockets|
    }

    /** The current socket, when there is one and it is connected. */
    function Live(): Option<nat> {
      if HasCurrent() && sockets[current.value].phase == Connected then current else None
    }

    /** A call starts: every earlier one is superseded. */
    function Begin(): Factory {
      this.(generation := generation + 1, awaiting := awaiting + {generation + 1})
    }

    /** `removeAllListeners` and `disconnect` on the current socket. */
    function CloseCurrent(): Factory {
      if HasCurrent() then this.(sockets := sockets[current.value := CLOSED]) else this
    }

    function TearDown(): Factory {
      CloseCurrent().(current := None)
    }

    /** The call of generation `g` resumes with its token. */
    function Resume(g: nat, kicked: bool): Factory {
      var resumed := this.(awaiting := awaiting - {g});
      if kicked || g != generation then resumed
      else
        var torn := resumed.TearDown();
        torn.(sockets := torn.sockets + [Socket(Connecting, true, false)], current := Some(|sockets|))
    }

    /** The cleanup: supersede every waiting call and close the current socket. */
    function CleanUp(): Factory {
      this.(generation := generation + 1).TearDown()
    }

    function SetPhase(i: nat, phase: Phase): Factory
      requires i < |sockets|
    {
      this.(sockets := sockets[i := sockets[i].(phase := phase)])
    }

    /** `disconnect()` with the handlers left attached. */
    function Close(i: nat): Factory
      requires i < |sockets|
    {
      this.(sockets := sockets[i := sockets[i].(phase := Down, closed := true)])
    }

    /** The handlers of socket `i` are attached and the client did not close it. */
    predicate Hears(i: nat, phase: Phase) {
      i < |sockets| && sockets[i].listening && !sockets[i].closed && sockets[i].phase == phase
    }

    /** A token still to come can create a socket. */
    predicate Expecting() {
      generation in awaiting
    }

    /**
     Every socket that is not the current one was disconnected and lost its handlers, and
     no factory call waits under a generation that was not handed out.
     */
    ghost predicate Valid() {
      && (current.Some? ==> current.value < |sockets|)
      && (forall i :: 0 <= i < |sockets| && current != Some(i) ==> sockets[i] == CLOSED)
      && (forall i :: 0 <= i < |sockets| && sockets[i].closed ==> sockets[i].phase == Down)
      && (forall g :: g in awaiting ==> g <= generation)
    }

    lemma TearDownKeeps()
      requires Valid()
      ensures TearDown().Valid() && CloseCurrent().Valid() && Begin().Valid()
      ensures CleanUp().Valid() && CleanUp().Begin().Valid() && !CleanUp().Expecting()
    {
    }

    lemma ResumeKeeps(g: nat, kicked: bool)
      requires Valid()
      ensures Resume(g, kicked).Valid()
    {
      this.(awaiting := awaiting - {g}).TearDownKeeps();
    }

    lemma HeardKeeps(i: nat, heard: Phase, phase: Phase)
      requires Valid() && Hears(i, heard)
      ensures current == Some(i) && SetPhase(i, phase).Valid() && Close(i).Valid()
    {
    }
  }

  // ----- Bounded reconnection -----

  const MAX_RECONNECT_ATTEMPTS: nat := 8
  const BASE_RECONNECT_DELAY: nat := 2000
  const MAX_RECONNECT_DELAY: nat := 30000
  const MAX_AUTH_RETRIES: nat := 3

  /** Doubles from the base with every attempt, up to the cap. */
  function Delay(attempt: nat): nat
    requires attempt >= 1
  {
    var raw := BASE_RECONNECT_DELAY * Pow2(attempt - 1);
    if raw < MAX_RECONNECT_DELAY then raw else MAX_RECONNECT_DELAY
  }

  /** `armed`: the reconnect timer runs. `scheduled`: the sum of all delays scheduled so far. */
  datatype Budget = Budget(armed: bool, attempts: nat, authRetries: nat, scheduled: nat)
  {
    function Attempt(): Budget {
      var tried := this.(attempts := attempts + 1);
      if tried.attempts > MAX_RECONNECT_ATTEMPTS then tried
      else tried.(armed := true, scheduled := scheduled + Delay(tried.attempts))
    }
  }

  // ----- The connection -----

  datatype Status = Idle | Joining | Joined | Failed

  /**
   `ready`: the exam and user ids are set. `active`: the main effect ran past its guard,
   so its cleanup is registered.
   */
  datatype Link = Link(
    kicked: bool,
    ready: bool,
    session: string,
    active: bool,
    everConnected: bool,
    connectedSession: string,
    status: Status,
    factory: Factory,
    budget: Budget)

  /** The synchronous part of the factory; `marked`: the exam-auth marker is there or not needed. */
  function InitSocket(l: Link, marked: bool): Link {
    if l.kicked || !l.ready || !marked then l
    else l.(factory := l.factory.Begin(), budget := l.budget.(armed := false))
  }

  function ScheduleReconnect(l: Link): Link {
    if l.kicked then l
    else
      var tried := l.(budget := l.budget.Attempt());
      if tried.budget.attempts > MAX_RECONNECT_ATTEMPTS && !l.everConnected then tried.(status := Failed)
      else tried
  }

  function TimerFires(l: Link, marked: bool): Link {
    InitSocket(l.(budget := l.budget.(armed := false)), marked)
  }

  function TokenArrives(l: Link, g: nat): Link {
    l.(factory := l.factory.Resume(g, l.kicked))
  }

  function Connects(l: Link, i: nat): Link
    requires i < |l.factory.sockets|
  {
    l.(factory := l.factory.SetPhase(i, Connected),
       budget := l.budget.(attempts := 0, authRetries := 0),
       everConnected := true, connectedSession := l.session, status := Joined)
  }

  /** Why a socket dropped: the server or the network ended it, or the client did. */
  datatype Reason = ServerSide | ClientSide

  function Drops(l: Link, i: nat, reason: Reason): Link
    requires i < |l.factory.sockets|
  {
    var down := l.(factory := l.factory.SetPhase(i, Down));
    if l.kicked || reason == ClientSide then down
    else ScheduleReconnect(down.(status := Joining))
  }

  function ConnectFails(l: Link, authFailed: bool, marked: bool): Link {
    if !authFailed then ScheduleReconnect(l.(status := Joining))
    else
      var tried := l.(budget := l.budget.(authRetries := l.budget.authRetries + 1));
      if tried.budget.authRetries > MAX_AUTH_RETRIES then tried.(kicked := true)
      else InitSocket(tried.(status := Joining), marked)
  }

  /** An auth error, an error that ends the session, or a forced termination. */
  function Kicks(l: Link, i: nat, disconnects: bool): Link
    requires i < |l.factory.sockets|
  {
    l.(kicked := true, factory := if disconnects then l.factory.Close(i) else l.factory)
  }

  function CleanUp(l: Link): Link {
    l.(active := false, factory := l.factory.CleanUp(), budget := l.budget.(armed := false))
  }

  /** The props changed: the registered cleanup runs, the mirrors are updated, the effect runs. */
  function PropsChange(l: Link, ready: bool, session: string, notFound: bool, marked: bool): Link {
    EffectRuns(Unmounts(l), ready, session, notFound, marked)
  }

  function EffectRuns(l: Link, ready: bool, session: string, notFound: bool, marked: bool): Link {
    var synced := l.(ready := ready, session := session);
    if !ready || session == "" || l.kicked || notFound then synced.(status := Idle)
    else
      InitSocket(
        synced.(active := true, status := Joining, budget := l.budget.(attempts := 0),
                everConnected := l.everConnected && l.connectedSession == session),
        marked)
  }

  function Unmounts(l: Link): Link {
    if l.active then CleanUp(l) else l
  }

  /** The `disconnect` the hook returns: it keeps the reference to the closed socket. */
  function Disconnects(l: Link): Link {
    l.(kicked := true, factory := l.factory.CloseCurrent(), budget := l.budget.(armed := false))
  }

  function Retries(l: Link, marked: bool): Link {
    if l.kicked then l
    else InitSocket(l.(everConnected := false, status := Joining, budget := l.budget.(attempts := 0)), marked)
  }

  // ----- Steps -----

  datatype LinkEvent =
    | Token(generation: nat)
    | Timer(marked: bool)
    | SocketConnects(i: nat)
    | SocketDrops(i: nat, reason: Reason)
    | SocketFails(i: nat, authFailed: bool, marked: bool)
    | SocketKicks(i: nat, disconnects: bool)
    | Props(ready: bool, session: string, notFound: bool, marked: bool)
    | Unmount
    | Disconnect
    | Retry(marked: bool)

  /** What the environment may do next. */
  predicate Possible(l: Link, e: LinkEvent) {
    match e
    case Token(g) => g in l.factory.awaiting
    case Timer(_) => l.budget.armed
    case SocketConnects(i) => l.factory.Hears(i, Connecting)
    case SocketDrops(i, _) => l.factory.Hears(i, Connected)
    case SocketFails(i, _, _) => l.factory.Hears(i, Connecting)
    case SocketKicks(i, _) => l.factory.Hears(i, Connected)
    case _ => true
  }

  function LinkNext(l: Link, e: LinkEvent): Link
    requires Possible(l, e)
  {
    match e
    case Token(g) => TokenArrives(l, g)
    case Timer(marked) => TimerFires(l, marked)
    case SocketConnects(i) => Connects(l, i)
    case SocketDrops(i, reason) => Drops(l, i, reason)
    case SocketFails(_, authFailed, marked) => ConnectFails(l, authFailed, marked)
    case SocketKicks(i, disconnects) => Kicks(l, i, disconnects)
    case Props(ready, session, notFound, marked) => PropsChange(l, ready, session, notFound, marked)
    case Unmount => Unmounts(l)
    case Disconnect => Disconnects(l)
    case Retry(marked) => Retries(l, marked)
  }

  /** With the main effect inactive there is no socket, no timer and no call that may still create one. */
  ghost predicate QuietWhenInactive(l: Link) {
    !l.active ==> l.factory.current.None? && !l.budget.armed && !l.factory.Expecting()
  }

  lemma ActiveHasSession(l: Link, e: LinkEvent)
    requires Possible(l, e) && (l.active ==> l.session != "")
    ensures var m := LinkNext(l, e); m.active ==> m.session != ""
  {
  }

  /**
   A factory call starts: not after a kick, without the ids or without the exam-auth marker, and
   only by these events.
   */
  predicate Calls(l: Link, e: LinkEvent) {
    && !l.kicked
    && match e
       case Timer(marked) => l.ready && marked
       case SocketFails(_, authFailed, marked) => authFailed && l.budget.authRetries < 3 && l.ready && marked
       case Props(ready, session, notFound, marked) => ready && session != "" && !notFound && marked
       case Retry(marked) => l.ready && marked
       case _ => false
  }

  /** What an event does to the factory. */
  lemma FactoryEffect(l: Link, e: LinkEvent)
    requires Possible(l, e)
    ensures var f := LinkNext(l, e).factory;
      match e
      case Token(g) => f == l.factory.Resume(g, l.kicked)
      case SocketConnects(i) => f == l.factory.SetPhase(i, Connected)
      case SocketDrops(i, _) => f == l.factory.SetPhase(i, Down)
      case SocketKicks(i, disconnects) => f == if disconnects then l.factory.Close(i) else l.factory
      case Props(_, _, _, _) =>
        var clean := if l.active then l.factory.CleanUp() else l.factory;
        f == if Calls(l, e) then clean.Begin() else clean
      case Unmount => f == if l.active then l.factory.CleanUp() else l.factory
      case Disconnect => f == l.factory.CloseCurrent()
      case _ => f == if Calls(l, e) then l.factory.Begin() else l.factory
  {
  }

  lemma FactoryStaysValid(l: Link, e: LinkEvent)
    requires Possible(l, e) && l.factory.Valid()
    ensures LinkNext(l, e).factory.Valid()
  {
    FactoryEffect(l, e);
    match e
    case Token(g) => l.factory.ResumeKeeps(g, l.kicked);
    case SocketConnects(i) => l.factory.HeardKeeps(i, Connecting, Connected);
    case SocketDrops(i, _) => l.factory.HeardKeeps(i, Connected, Down);
    case SocketKicks(i, _) => l.factory.HeardKeeps(i, Connected, Down);
    case _ => l.factory.TearDownKeeps();
  }

  lemma KicksAreFinal(l: Link, e: LinkEvent)
    requires Possible(l, e)
    ensures l.kicked ==> LinkNext(l, e).kicked
    ensures l.factory.generation <= LinkNext(l, e).factory.generation
  {
  }

  /** Only the token of the newest generation creates a socket, only one, and never after a kick. */
  lemma OnlyTokensCreate(l: Link, e: LinkEvent)
    requires Possible(l, e)
    ensures |LinkNext(l, e).factory.sockets| == |l.factory.sockets|
         + (if e == Token(l.factory.generation) && !l.kicked then 1 else 0)
  {
    FactoryEffect(l, e);
  }

  /** A manual retry that starts a factory call although no cleanup is registered for it. */
  predicate RetriesBehindEffect(l: Link, e: LinkEvent) {
    e.Retry? && !l.active && !l.kicked && l.ready && e.marked
  }

  /** An inactive effect leaves nothing that could still open a socket, until a retry goes behind its back. */
  lemma InactiveStaysQuiet(l: Link, e: LinkEvent)
    requires Possible(l, e) && l.factory.Valid() && QuietWhenInactive(l)
    ensures QuietWhenInactive(LinkNext(l, e)) <==> !RetriesBehindEffect(l, e)
  {
    FactoryEffect(l, e);
    l.factory.TearDownKeeps();
    match e
    case SocketConnects(i) => l.factory.HeardKeeps(i, Connecting, Connected);
    case SocketDrops(i, _) => l.factory.HeardKeeps(i, Connected, Down);
    case SocketFails(i, _, _) => l.factory.HeardKeeps(i, Connecting, Down);
    case _ =>
  }

  /** A socket becomes live only by connecting. */
  lemma LiveOnlyByConnecting(l: Link, e: LinkEvent)
    requires Possible(l, e) && l.factory.Valid()
    requires !e.SocketConnects? && LinkNext(l, e).factory.Live().Some?
    ensures l.factory.Live() == LinkNext(l, e).factory.Live()
  {
    FactoryEffect(l, e);
    match e
    case SocketDrops(i, _) => l.factory.HeardKeeps(i, Connected, Down);
    case SocketKicks(i, _) => l.factory.HeardKeeps(i, Connected, Down);
    case _ =>
  }

  /** A socket stays live across a change of session exactly when no cleanup was registered to close it. */
  lemma LiveKeepsSession(l: Link, e: LinkEvent)
    requires Possible(l, e) && l.factory.Valid() && LinkNext(l, e).factory.Live().Some?
    ensures l.session == LinkNext(l, e).session <==> !(e.Props? && !l.active && e.session != l.session)
  {
    FactoryEffect(l, e);
  }
}
