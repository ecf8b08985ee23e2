/**
 The load generator: workers that share one request counter, and the report on what they measured.
 Between two awaits a worker runs alone, so a step of the pool is one worker's code from one
 await to the next; the requests themselves settle in any order.
 */
module Benchmark {
  import opened Numbers

  datatype Outcome = Responded(status: int) | Threw

  datatype Worker = Idle | Busy(index: int) | Stopped

  /** A request that has settled. */
  datatype Settlement = Settlement(index: int, outcome: Outcome, elapsed: real)

  datatype Class = Successful | RateLimited429 | ServerErrors5xx | ClientErrors4xx | NetworkErrors

  function Classify(o: Outcome): Class {
    if o.Threw? then NetworkErrors
    else if o.status == 429 then RateLimited429
    else if 200 <= o.status < 300 then Successful
    else if o.status >= 500 then ServerErrors5xx
    else ClientErrors4xx
  }

  datatype Tally = Tally(
    successful: nat,
    rateLimited429: nat,
    serverErrors5xx: nat,
    clientErrors4xx: nat,
    networkErrors: nat)
  {
    function Sum(): nat {
      successful + rateLimited429 + serverErrors5xx + clientErrors4xx + networkErrors
    }

    function Of(c: Class): nat {
      match c
      case Successful => successful
      case RateLimited429 => rateLimited429
      case ServerErrors5xx => serverErrors5xx
      case ClientErrors4xx => clientErrors4xx
      case NetworkErrors => networkErrors
    }

    function Count(c: Class): Tally {
      match c
      case Successful => this.(successful := successful + 1)
      case RateLimited429 => this.(rateLimited429 := rateLimited429 + 1)
      case ServerErrors5xx => this.(serverErrors5xx := serverErrors5xx + 1)
      case ClientErrors4xx => this.(clientErrors4xx := clientErrors4xx + 1)
      case NetworkErrors => this.(networkErrors := networkErrors + 1)
    }
  }

  /** `dispatched` and `settled` record, in order, the requests that were sent and those that settled. */
  datatype Pool = Pool(
    total: int, workers: seq<Worker>, requestIndex: nat, latencies: seq<real>, tally: Tally,
    dispatched: seq<int>, settled: seq<Settlement>)

  function Idles(n: nat): (ws: seq<Worker>)
    ensures |ws| == n && forall w: nat :: w < n ==> ws[w] == Idle
  {
    seq(n, _ => Idle)
  }

  function Open(total: int, concurrency: int): Pool {
    Pool(total, Idles(Max(0, Min(concurrency, total))), 0, [], Tally(0, 0, 0, 0, 0), [], [])
  }

  /** The head of a worker's loop: take the next index, or stop. */
  function Take(p: Pool, w: nat): Pool
    requires w < |p.workers|
  {
    if p.requestIndex >= p.total then
      p.(requestIndex := p.requestIndex + 1, workers := p.workers[w := Stopped])
    else
      p.(requestIndex := p.requestIndex + 1, workers := p.workers[w := Busy(p.requestIndex)],
         dispatched := p.dispatched + [p.requestIndex])
  }

  /** A worker's request settles: its latency is kept and its outcome counted. */
  function Record(p: Pool, w: nat, o: Outcome, elapsed: real): Pool
    requires w < |p.workers| && p.workers[w].Busy?
  {
    p.(latencies := p.latencies + [elapsed], tally := p.tally.Count(Classify(o)),
       settled := p.settled + [Settlement(p.workers[w].index, o, elapsed)])
  }

  datatype Event = Started(w: nat) | Settles(w: nat, outcome: Outcome, elapsed: real)

  predicate Enabled(p: Pool, e: Event) {
    match e
    case Started(w) => w < |p.workers| && p.workers[w].Idle?
    case Settles(w, _, _) => w < |p.workers| && p.workers[w].Busy?
  }

  function Next(p: Pool, e: Event): Pool
    requires Enabled(p, e)
  {
    match e
    case Started(w) => Take(p, w)
    case Settles(w, o, elapsed) => Take(Record(p, w, o, elapsed), w)
  }

  class Run {
    const totalRequests: int
    var workers: seq<Worker>
    var requestIndex: nat
    var latencies: seq<real>
    var successful: nat
    var rateLimited429: nat
    var serverErrors5xx: nat
    var clientErrors4xx: nat
    var networkErrors: nat
    var dispatched: seq<int>
    var settled: seq<Settlement>

    function View(): Pool
      reads this
    {
      Pool(totalRequests, workers, requestIndex, latencies,
           Tally(successful, rateLimited429, serverErrors5xx, clientErrors4xx, networkErrors), dispatched, settled)
    }

    constructor (total: int, concurrency: int)
      ensures View() == Open(total, concurrency)
    {
      totalRequests := total;
      workers := Idles(Max(0, Min(concurrency, total)));
      requestIndex, latencies := 0, [];
      successful, rateLimited429, serverErrors5xx, clientErrors4xx, networkErrors := 0, 0, 0, 0, 0;
      dispatched, settled := [], [];
    }

    method TakeNext(w: nat)
      requires w < |workers|
      modifies this
      ensures View() == Take(old(View()), w)
    {
      var currentIndex := requestIndex;
      requestIndex := requestIndex + 1;
      if currentIndex >= totalRequests {
        workers := workers[w := Stopped];
      } else {
        workers := workers[w := Busy(currentIndex)];
        dispatched := dispatched + [currentIndex];
      }
    }

    method Settle(w: nat, outcome: Outcome, elapsed: real)
      requires w < |workers| && workers[w].Busy?
      modifies this
      ensures View() == Take(Record(old(View()), w, outcome, elapsed), w)
    {
      latencies := latencies + [elapsed];
      settled := settled + [Settlement(workers[w].index, outcome, elapsed)];
      match outcome {
        case Responded(status) =>
          if status == 429 {
            rateLimited429 := rateLimited429 + 1;
          } else if status >= 200 && status < 300 {
            successful := successful + 1;
          } else if status >= 500 {
            serverErrors5xx := serverErrors5xx + 1;
          } else if status >= 400 {
            clientErrors4xx := clientErrors4xx + 1;
          } else {
            clientErrors4xx := clientErrors4xx + 1;
          }
        case Threw =>
          networkErrors := networkErrors + 1;
      }
      TakeNext(w);
    }

    method On(e: Event)
      requires Enabled(View(), e)
      modifies this
      ensures View() == Next(old(View()), e)
    {
      match e {
        case Started(w) => TakeNext(w);
        case Settles(w, outcome, elapsed) => Settle(w, outcome, elapsed);
      }
    }
  }

  // ----- What every interleaving keeps -----

  /** 0, 1, ..., n - 1. */
  function Indices(n: nat): seq<int> {
    seq(n, i => i)
  }

  /** How many workers are in state `x`. */
  function Workers(p: Pool, x: Worker): nat {
    multiset(p.workers)[x]
  }

  /** How many requests are in the air. */
  function Outstanding(p: Pool): int {
    |p.workers| - Workers(p, Idle) - Workers(p, Stopped)
  }

  function SettledIndices(ss: seq<Settlement>): seq<int> {
    seq(|ss|, i requires 0 <= i < |ss| => ss[i].index)
  }

  function Elapsed(ss: seq<Settlement>): seq<real> {
    seq(|ss|, i requires 0 <= i < |ss| => ss[i].elapsed)
  }

  function CountOf(ss: seq<Settlement>, c: Class): nat {
    if ss == [] then 0
    else CountOf(ss[..|ss| - 1], c) + if Classify(ss[|ss| - 1].outcome) == c then 1 else 0
  }

  /** Indices are sent once each and in order, and no worker stops before all are sent. */
  ghost predicate SentInOrder(p: Pool) {
    && p.dispatched == Indices(|p.dispatched|) && |p.dispatched| <= Max(0, p.total)
    && p.requestIndex == |p.dispatched| + Workers(p, Stopped)
    && (Workers(p, Stopped) > 0 ==> |p.dispatched| == Max(0, p.total))
  }

  /** Every index sent is settled, once, or held by one worker. */
  ghost predicate SettledOnce(p: Pool) {
    && (forall i: int :: multiset(SettledIndices(p.settled))[i] + Workers(p, Busy(i)) == multiset(p.dispatched)[i])
    && |p.dispatched| == |p.settled| + Outstanding(p)
  }

  /** A latency and a count is kept of every settled request. */
  ghost predicate Booked(p: Pool) {
    && p.latencies == Elapsed(p.settled)
    && p.tally.Sum() == |p.settled|
    && forall c: Class :: p.tally.Of(c) == CountOf(p.settled, c)
  }

  ghost predicate Conserved(p: Pool) {
    SentInOrder(p) && SettledOnce(p) && Booked(p)
  }

  /** `p` with worker `w` done with the request it had. */
  function Freed(p: Pool, w: nat): Pool
    requires w < |p.workers|
  {
    p.(workers := p.workers[w := Idle])
  }

  lemma TakeConserves(p: Pool, w: nat)
    requires w < |p.workers| && Conserved(Freed(p, w))
    ensures Conserved(Take(p, w))
  {
    var next := Take(p, w);
    TakeSendsInOrder(p, w);
    TakeKeepsMatch(p, w);
    assert Booked(next) by {
      assert Booked(Freed(p, w));
      assert forall c: Class :: p.tally.Of(c) == CountOf(p.settled, c);
    }
  }

  lemma TakeKeepsMatch(p: Pool, w: nat)
    requires w < |p.workers| && SettledOnce(Freed(p, w))
    ensures SettledOnce(Take(p, w))
  {
    var freed, next := Freed(p, w), Take(p, w);
    assert next.workers == freed.workers[w := next.workers[w]];
    forall i: int
      ensures multiset(SettledIndices(next.settled))[i] + Workers(next, Busy(i)) == multiset(next.dispatched)[i]
    {
      TakeKeepsCount(p, w, i);
    }
  }

  lemma TakeKeepsCount(p: Pool, w: nat, i: int)
    requires w < |p.workers| && SettledOnce(Freed(p, w))
    ensures var next := Take(p, w);
      multiset(SettledIndices(next.settled))[i] + Workers(next, Busy(i)) == multiset(next.dispatched)[i]
  {
    var freed, next := Freed(p, w), Take(p, w);
    assert next.workers == freed.workers[w := next.workers[w]];
    assert multiset(SettledIndices(freed.settled))[i] + Workers(freed, Busy(i)) == multiset(freed.dispatched)[i];
  }

  lemma TakeSendsInOrder(p: Pool, w: nat)
    requires w < |p.workers| && SentInOrder(Freed(p, w))
    ensures SentInOrder(Take(p, w))
  {
    var freed, next := Freed(p, w), Take(p, w);
    assert next.workers == freed.workers[w := next.workers[w]];
    assert next.dispatched == Indices(|next.dispatched|);
  }

  lemma RecordConserves(p: Pool, w: nat, o: Outcome, elapsed: real)
    requires Conserved(p) && w < |p.workers| && p.workers[w].Busy?
    ensures Conserved(Freed(Record(p, w, o, elapsed), w))
  {
    var next := Freed(Record(p, w, o, elapsed), w);
    BookKeeping(p, w, o, elapsed);
    assert SettledIndices(next.settled) == SettledIndices(p.settled) + [p.workers[w].index];
    forall i: int
      ensures multiset(SettledIndices(next.settled))[i] + Workers(next, Busy(i)) == multiset(next.dispatched)[i]
    {
      assert multiset(SettledIndices(p.settled))[i] + Workers(p, Busy(i)) == multiset(p.dispatched)[i];
    }
    assert Booked(next) by {
      assert forall c: Class :: next.tally.Of(c) == CountOf(next.settled, c);
    }
  }

  lemma BookKeeping(p: Pool, w: nat, o: Outcome, elapsed: real)
    requires Booked(p) && w < |p.workers| && p.workers[w].Busy?
    ensures Booked(Record(p, w, o, elapsed))
  {
    var next := Record(p, w, o, elapsed);
    assert next.latencies == Elapsed(next.settled);
    forall c: Class ensures next.tally.Of(c) == CountOf(next.settled, c) {
      CountsOne(p, w, o, elapsed, c);
    }
  }

  lemma CountsOne(p: Pool, w: nat, o: Outcome, elapsed: real, c: Class)
    requires Booked(p) && w < |p.workers| && p.workers[w].Busy?
    ensures var next := Record(p, w, o, elapsed); next.tally.Of(c) == CountOf(next.settled, c)
  {
    var next := Record(p, w, o, elapsed);
    assert next.settled[..|next.settled| - 1] == p.settled;
    assert p.tally.Of(c) == CountOf(p.settled, c);
  }

  lemma NextConserves(p: Pool, e: Event)
    requires Conserved(p) && Enabled(p, e)
    ensures Conserved(Next(p, e))
  {
    match e
    case Started(w) =>
      assert Freed(p, w) == p by {
        assert p.workers[w := Idle] == p.workers;
      }
      TakeConserves(p, w);
    case Settles(w, o, elapsed) =>
      RecordConserves(p, w, o, elapsed);
      TakeConserves(Record(p, w, o, elapsed), w);
  }

  // ----- Whole runs -----

  predicate Legal(p: Pool, es: seq<Event>)
    decreases |es|
  {
    es == [] || (Enabled(p, es[0]) && Legal(Next(p, es[0]), es[1..]))
  }

  function After(p: Pool, es: seq<Event>): Pool
    requires Legal(p, es)
    decreases |es|
  {
    if es == [] then p else After(Next(p, es[0]), es[1..])
  }

  /** The steps still to come. */
  function Remaining(p: Pool): int {
    Workers(p, Idle) + Max(0, p.total) - |p.settled|
  }

  lemma {:induction false} SameState(ws: seq<Worker>, x: Worker)
    requires forall w: nat :: w < |ws| ==> ws[w] == x
    ensures multiset(ws)[x] == |ws| && forall y :: y != x ==> multiset(ws)[y] == 0
  {
    if ws != [] {
      var n := |ws| - 1;
      SameState(ws[..n], x);
      assert ws == ws[..n] + [x];
    }
  }

  lemma NothingBooked(p: Pool)
    requires p.settled == [] && p.latencies == [] && p.tally == Tally(0, 0, 0, 0, 0)
    ensures Booked(p)
  {
    assert Elapsed(p.settled) == [];
    forall c: Class ensures p.tally.Of(c) == CountOf(p.settled, c) {
      assert p.tally.Of(c) == 0;
    }
  }

  lemma NothingSent(p: Pool)
    requires p.settled == [] && p.dispatched == [] && p.requestIndex == 0
    requires forall w: nat :: w < |p.workers| ==> p.workers[w] == Idle
    ensures SentInOrder(p) && SettledOnce(p) && Workers(p, Idle) == |p.workers|
  {
    SameState(p.workers, Idle);
    assert SettledIndices(p.settled) == [] && Indices(0) == [];
  }

  lemma OpenConserves(total: int, concurrency: int)
    ensures Conserved(Open(total, concurrency))
    ensures Remaining(Open(total, concurrency)) == Max(0, Min(concurrency, total)) + Max(0, total)
  {
    var p := Open(total, concurrency);
    assert |p.workers| == Max(0, Min(concurrency, total)) && p.total == total;
    NothingBooked(p);
    NothingSent(p);
  }

  lemma NextCounts(p: Pool, e: Event)
    requires Conserved(p) && Enabled(p, e)
    ensures var q := Next(p, e); q.total == p.total && |q.workers| == |p.workers| && Remaining(q) == Remaining(p) - 1
  {
  }

  lemma {:induction false} RunConserves(p: Pool, es: seq<Event>)
    requires Conserved(p) && Legal(p, es)
    ensures var q := After(p, es);
      Conserved(q) && q.total == p.total && |q.workers| == |p.workers| && Remaining(q) == Remaining(p) - |es|
    decreases |es|
  {
    if es != [] {
      NextConserves(p, es[0]);
      NextCounts(p, es[0]);
      RunConserves(Next(p, es[0]), es[1..]);
    }
  }

  /**
   At every point of every run: no index is sent twice, and at most min(concurrency, total)
   requests are outstanding.
   */
  lemma AtMostConcurrencyOutstanding(total: int, concurrency: int, es: seq<Event>)
    requires Legal(Open(total, concurrency), es)
    ensures var p := After(Open(total, concurrency), es);
      && p.dispatched == Indices(|p.dispatched|)
      && |p.dispatched| - |p.settled| == Outstanding(p) <= Max(0, Min(concurrency, total))
  {
    OpenConserves(total, concurrency);
    RunConserves(Open(total, concurrency), es);
    var p := After(Open(total, concurrency), es);
  }

  ghost predicate Finished(p: Pool) {
    forall w: nat :: w < |p.workers| ==> p.workers[w].Stopped?
  }

  /** A run never gets stuck, and never goes on for ever: it takes one step a worker and one a request, no more. */
  lemma RunsFinish(total: int, concurrency: int, es: seq<Event>)
    requires Legal(Open(total, concurrency), es)
    ensures var p := After(Open(total, concurrency), es);
      && |es| <= Max(0, Min(concurrency, total)) + Max(0, total)
      && (Finished(p) || exists e :: Enabled(p, e))
  {
    OpenConserves(total, concurrency);
    RunConserves(Open(total, concurrency), es);
    var p := After(Open(total, concurrency), es);
    if !Finished(p) {
      var w: nat :| w < |p.workers| && !p.workers[w].Stopped?;
      var e := if p.workers[w].Idle? then Started(w) else Settles(w, Threw, 0.0);
      assert Enabled(p, e);
    }
  }

  /** Every index in [0, total) was sent once and settled once, and is in the counters and the latencies. */
  ghost predicate AccountedFor(p: Pool, total: int) {
    && total >= 0
    && p.dispatched == Indices(total)
    && multiset(SettledIndices(p.settled)) == multiset(Indices(total))
    && p.tally.Sum() == total == |p.latencies|
  }

  lemma FinishedIsAccountedFor(p: Pool)
    requires Conserved(p) && Finished(p) && p.total >= 0 && (p.workers == [] ==> p.total == 0)
    ensures AccountedFor(p, p.total)
  {
    SameState(p.workers, Stopped);
    assert |p.dispatched| == p.total;
    forall i: int ensures multiset(SettledIndices(p.settled))[i] == multiset(p.dispatched)[i] {
      assert Workers(p, Busy(i)) == 0;
    }
  }

  /** The settled requests whose response has a status from `lo` up to `hi`. */
  function Statuses(ss: seq<Settlement>, lo: int, hi: int): set<nat> {
    set i: nat | i < |ss| && ss[i].outcome.Responded? && lo <= ss[i].outcome.status < hi
  }

  function ServerErrors(ss: seq<Settlement>): set<nat> {
    set i: nat | i < |ss| && ss[i].outcome.Responded? && ss[i].outcome.status >= 500
  }

  /** The other responses: below 200, redirects, and client errors but for throttling. */
  function OtherResponses(ss: seq<Settlement>): set<nat> {
    set i: nat | i < |ss| && ss[i].outcome.Responded?
                 && var status := ss[i].outcome.status; status < 200 || 300 <= status < 429 || 429 < status < 500
  }

  function Throws(ss: seq<Settlement>): set<nat> {
    set i: nat | i < |ss| && ss[i].outcome.Threw?
  }

  /** Each counter is the number of settled requests with its outcome. */
  ghost predicate Tallied(t: Tally, ss: seq<Settlement>) {
    && t.successful == |Statuses(ss, 200, 300)|
    && t.rateLimited429 == |Statuses(ss, 429, 430)|
    && t.serverErrors5xx == |ServerErrors(ss)|
    && t.clientErrors4xx == |OtherResponses(ss)|
    && t.networkErrors == |Throws(ss)|
  }

  ghost function Places(ss: seq<Settlement>, c: Class): set<nat> {
    set i: nat | i < |ss| && Classify(ss[i].outcome) == c
  }

  lemma PlacesNext(ss: seq<Settlement>, c: Class)
    requires ss != []
    ensures var n := |ss| - 1;
      && Places(ss, c) == Places(ss[..n], c) + (if Classify(ss[n].outcome) == c then {n} else {})
      && n !in Places(ss[..n], c)
  {
  }

  lemma {:induction false} CountOfPlaces(ss: seq<Settlement>, c: Class)
    ensures CountOf(ss, c) == |Places(ss, c)|
  {
    if ss == [] {
      assert Places(ss, c) == {};
    } else {
      CountOfPlaces(ss[..|ss| - 1], c);
      PlacesNext(ss, c);
    }
  }

  lemma ClassPlaces(ss: seq<Settlement>)
    ensures Places(ss, Successful) == Statuses(ss, 200, 300)
    ensures Places(ss, RateLimited429) == Statuses(ss, 429, 430)
    ensures Places(ss, ServerErrors5xx) == ServerErrors(ss)
    ensures Places(ss, ClientErrors4xx) == OtherResponses(ss)
    ensures Places(ss, NetworkErrors) == Throws(ss)
  {
  }

  lemma BookedIsTallied(p: Pool)
    requires Booked(p)
    ensures Tallied(p.tally, p.settled)
  {
    ClassPlaces(p.settled);
    CountOfPlaces(p.settled, Successful);
    CountOfPlaces(p.settled, RateLimited429);
    CountOfPlaces(p.settled, ServerErrors5xx);
    CountOfPlaces(p.settled, ClientErrors4xx);
    CountOfPlaces(p.settled, NetworkErrors);
    assert p.tally.Of(Successful) == CountOf(p.settled, Successful);
    assert p.tally.Of(RateLimited429) == CountOf(p.settled, RateLimited429);
    assert p.tally.Of(ServerErrors5xx) == CountOf(p.settled, ServerErrors5xx);
    assert p.tally.Of(ClientErrors4xx) == CountOf(p.settled, ClientErrors4xx);
    assert p.tally.Of(NetworkErrors) == CountOf(p.settled, NetworkErrors);
  }

  /** What the requests of a run came to, in the order they settled. */
  function Results(es: seq<Event>): seq<(Outcome, real)> {
    if es == [] then []
    else (if es[0].Settles? then [(es[0].outcome, es[0].elapsed)] else []) + Results(es[1..])
  }

  function Recorded(ss: seq<Settlement>): (r: seq<(Outcome, real)>)
    ensures |r| == |ss|
  {
    seq(|ss|, i requires 0 <= i < |ss| => (ss[i].outcome, ss[i].elapsed))
  }

  /** The settled requests are recorded as they settled. */
  lemma {:induction false} RecordsResults(p: Pool, es: seq<Event>)
    requires Legal(p, es)
    ensures Recorded(After(p, es).settled) == Recorded(p.settled) + Results(es)
    decreases |es|
  {
    if es != [] {
      var next := Next(p, es[0]);
      RecordsResults(next, es[1..]);
      assert Recorded(next.settled)
        == Recorded(p.settled) + if es[0].Settles? then [(es[0].outcome, es[0].elapsed)] else [];
    }
  }

  /** At every point of every run the counters and the latencies are those of the requests that settled. */
  lemma CountersCount(total: int, concurrency: int, es: seq<Event>)
    requires Legal(Open(total, concurrency), es)
    ensures var p := After(Open(total, concurrency), es);
      Tallied(p.tally, p.settled) && p.latencies == Elapsed(p.settled)
  {
    OpenConserves(total, concurrency);
    RunConserves(Open(total, concurrency), es);
    BookedIsTallied(After(Open(total, concurrency), es));
  }

  /**
   When a run is over, all its requests are accounted for exactly when there was a worker to
   send them or nothing to send; and in any case each counter is the number of settled
   requests with its outcome, and the latencies are theirs, in the order they settled.
   */
  lemma EverythingIsAccountedFor(total: int, concurrency: int, es: seq<Event>)
    requires Legal(Open(total, concurrency), es) && Finished(After(Open(total, concurrency), es))
    ensures var p := After(Open(total, concurrency), es);
      && (AccountedFor(p, total) <==> total == 0 || (total > 0 && concurrency >= 1))
      && Tallied(p.tally, p.settled)
      && p.latencies == Elapsed(p.settled)
  {
    OpenConserves(total, concurrency);
    RunConserves(Open(total, concurrency), es);
    var p := After(Open(total, concurrency), es);
    BookedIsTallied(p);
    if total == 0 || (total > 0 && concurrency >= 1) {
      FinishedIsAccountedFor(p);
    } else {
      assert p.workers == [];
      assert Remaining(p) == Max(0, total) - |p.settled|;
      assert total > 0 ==> |p.settled| == 0;
    }
  }

  /** The first `n` workers start. */
  function Starts(n: nat): seq<Event> {
    seq(n, w requires 0 <= w < n => Started(w))
  }

  lemma {:induction false} AfterThen(p: Pool, es: seq<Event>, e: Event)
    requires Legal(p, es) && Enabled(After(p, es), e)
    ensures Legal(p, es + [e]) && After(p, es + [e]) == Next(After(p, es), e)
    decreases |es|
  {
    if es == [] {
      assert [e][1..] == [];
    } else {
      AfterThen(Next(p, es[0]), es[1..], e);
      assert (es + [e])[1..] == es[1..] + [e];
    }
  }

  lemma {:induction false} StartsBusy(total: int, concurrency: int, n: nat)
    requires n <= Min(concurrency, total)
    ensures Legal(Open(total, concurrency), Starts(n))
    ensures var p := After(Open(total, concurrency), Starts(n));
      && p.total == total && p.requestIndex == n && |p.workers| == Max(0, Min(concurrency, total))
      && forall w: nat :: w < |p.workers| ==> p.workers[w] == if w < n then Busy(w) else Idle
  {
    if n > 0 {
      StartsBusy(total, concurrency, n - 1);
      AfterThen(Open(total, concurrency), Starts(n - 1), Started(n - 1));
      assert Starts(n) == Starts(n - 1) + [Started(n - 1)];
    }
  }

  /** And that many can be outstanding at once: all workers start before any request settles. */
  lemma ConcurrencyIsReached(total: int, concurrency: int)
    requires total >= 0 && concurrency >= 0
    ensures var es := Starts(Min(concurrency, total));
      Legal(Open(total, concurrency), es) && Outstanding(After(Open(total, concurrency), es)) == Min(concurrency, total)
  {
    var n := Min(concurrency, total);
    StartsBusy(total, concurrency, n);
    var p := After(Open(total, concurrency), Starts(n));
    NoneOf(p.workers, Idle);
    NoneOf(p.workers, Stopped);
  }

  lemma NoneOf(ws: seq<Worker>, x: Worker)
    requires forall w: nat :: w < |ws| ==> ws[w] != x
    ensures multiset(ws)[x] == 0
  {
    assert x !in ws;
  }
}
