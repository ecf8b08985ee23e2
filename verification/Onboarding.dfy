/**
 The onboarding mail worker: a lock in Redis, set only if absent and kept for 180 days, lets
 one worker send; a worker that fails deletes the lock again. Any number of workers interleave;
 a step is one worker's code from one await to the next.
 */
module Onboarding {
  import opened Wrappers
  import Text

  datatype Stage = Day0 | Day3 | Day7 | Day14

  /** `stage` is None when the job has none. */
  datatype Job = Job(name: string, orgId: string, stage: Option<Stage>)

  datatype Key = Key(orgId: string, stage: Stage)

  function StageText(s: Stage): string {
    match s
    case Day0 => "day0"
    case Day3 => "day3"
    case Day7 => "day7"
    case Day14 => "day14"
  }

  /** The name of the lock. */
  function DedupeKey(k: Key): string {
    "onboarding-email:sent:" + k.orgId + [':'] + StageText(k.stage)
  }

  lemma NameParts(head: string, a: string, x: string, b: string, y: string)
    requires ':' !in x && ':' !in y && head + a + [':'] + x == head + b + [':'] + y
    ensures a == b && x == y
  {
    var name := head + a + [':'] + x;
    Text.LastIndexFound(head + a, x, ':');
    Text.LastIndexFound(head + b, y, ':');
    assert |a| == |b|;
    assert a == name[|head|..|head| + |a|] == b;
    assert x == name[|head| + |a| + 1..] == y;
  }

  lemma StageTextsDiffer(s: Stage, t: Stage)
    ensures StageText(s) == StageText(t) <==> s == t
    ensures ':' !in StageText(s)
  {
    if StageText(s) == StageText(t) {
      assert StageText(s)[3..] == StageText(t)[3..];
    }
  }

  /** No two organisations or stages share a lock, whatever the organisation is called. */
  lemma DedupeKeysDiffer(k: Key, l: Key)
    ensures DedupeKey(k) == DedupeKey(l) <==> k == l
  {
    StageTextsDiffer(k.stage, l.stage);
    StageTextsDiffer(l.stage, k.stage);
    if DedupeKey(k) == DedupeKey(l) {
      NameParts("onboarding-email:sent:", k.orgId, StageText(k.stage), l.orgId, StageText(l.stage));
    }
  }

  /** What a job asks for, if it asks for anything. */
  function KeyOf(j: Job): Option<Key> {
    var orgId := Text.Trim(j.orgId);
    if j.name != "send-onboarding-email" || orgId == "" || j.stage.None? then None
    else Some(Key(orgId, j.stage.value))
  }

  lemma DedupeKeyExample(orgId: string, name: string)
    requires orgId == "o" && name == "onboarding-email:sent:o:day3"
    ensures DedupeKey(Key(orgId, Day3)) == name
  {
  }

  /** A job asks for the mail of one stage to one organisation, if it names both. */
  lemma KeyOfIff(j: Job, k: Key)
    ensures KeyOf(j) == Some(k) <==>
      && j.name == "send-onboarding-email"
      && k.orgId == Text.Trim(j.orgId) && k.orgId != "" && j.stage == Some(k.stage)
  {
  }

  /** An organisation as looked up; an absent text is empty. */
  datatype Organization = Organization(status: string, billingEmail: string, adminEmail: string)

  /** The address to write to, or None when the mail is skipped. */
  function Recipient(org: Option<Organization>): Option<string> {
    if org.None? || Text.Lower(org.value.status) != "active" then None
    else
      var email := Text.Trim(if org.value.billingEmail != "" then org.value.billingEmail else org.value.adminEmail);
      if email == "" then None else Some(email)
  }

  /** The mail goes to the billing address, or else to the admin's, of an organisation that exists and is active. */
  lemma RecipientIff(org: Option<Organization>, email: string)
    ensures Recipient(org) == Some(email) <==>
      && org.Some? && Text.Lower(org.value.status) == "active" && email != ""
      && (org.value.billingEmail != "" ==> email == Text.Trim(org.value.billingEmail))
      && (org.value.billingEmail == "" ==> email == Text.Trim(org.value.adminEmail))
  {
  }

  // ----- Workers -----

  /**
   `Loading`, `Sending` and `Releasing` wait for the database, the mailer and Redis; the others
   are over. `Failed` deleted the lock, `Stuck` failed to.
   */
  datatype Phase = Loading | Sending | Releasing | Sent | Skipped | Failed | Stuck | Duplicate | Ignored

  datatype Worker = Worker(key: Option<Key>, phase: Phase)

  /**
   `locks` gives each lock in Redis the worker that set it. `lost` counts mails that went out
   although sending them threw, `expired` the locks that ran out.
   */
  datatype System = System(locks: map<Key, nat>, workers: seq<Worker>, lost: multiset<Key>, expired: multiset<Key>)

  function Start(): System {
    System(map[], [], multiset{}, multiset{})
  }

  datatype Lookup = Found(org: Option<Organization>) | LookupThrew

  datatype Delivery = Delivered | SendThrew(wentOut: bool)

  datatype Event =
    | Arrives(job: Job)
    | LookedUp(w: nat, lookup: Lookup)
    | Mailed(w: nat, delivery: Delivery)
    | Deleted(w: nat, ok: bool)
    | Expires(key: Key)

  predicate In(s: System, w: nat, phase: Phase) {
    w < |s.workers| && s.workers[w].key.Some? && s.workers[w].phase == phase
  }

  predicate Enabled(s: System, e: Event) {
    match e
    case Arrives(_) => true
    case LookedUp(w, _) => In(s, w, Loading)
    case Mailed(w, _) => In(s, w, Sending)
    case Deleted(w, _) => In(s, w, Releasing)
    case Expires(k) => k in s.locks
  }

  function Arrive(s: System, j: Job): System {
    var k := KeyOf(j);
    if k.None? then s.(workers := s.workers + [Worker(None, Ignored)])
    else if k.value in s.locks then s.(workers := s.workers + [Worker(k, Duplicate)])
    else s.(locks := s.locks[k.value := |s.workers|], workers := s.workers + [Worker(k, Loading)])
  }

  function Move(s: System, w: nat, phase: Phase): System
    requires w < |s.workers|
  {
    s.(workers := s.workers[w := s.workers[w].(phase := phase)])
  }

  function AfterLookup(lookup: Lookup): Phase {
    if lookup.LookupThrew? then Releasing
    else if Recipient(lookup.org).None? then Skipped
    else Sending
  }

  function AfterSend(s: System, w: nat, delivery: Delivery): System
    requires In(s, w, Sending)
  {
    match delivery
    case Delivered => Move(s, w, Sent)
    case SendThrew(wentOut) =>
      var next := Move(s, w, Releasing);
      if wentOut then next.(lost := s.lost + multiset{s.workers[w].key.value}) else next
  }

  function AfterDelete(s: System, w: nat, ok: bool): System
    requires In(s, w, Releasing)
  {
    if ok then Move(s, w, Failed).(locks := s.locks - {s.workers[w].key.value}) else Move(s, w, Stuck)
  }

  function Next(s: System, e: Event): System
    requires Enabled(s, e)
  {
    match e
    case Arrives(j) => Arrive(s, j)
    case LookedUp(w, lookup) => Move(s, w, AfterLookup(lookup))
    case Mailed(w, delivery) => AfterSend(s, w, delivery)
    case Deleted(w, ok) => AfterDelete(s, w, ok)
    case Expires(k) => s.(locks := s.locks - {k}, expired := s.expired + multiset{k})
  }

  /** The processor over shared Redis state, segment by segment. */
  class Processor {
    var locks: map<Key, nat>
    var workers: seq<Worker>
    var lost: multiset<Key>
    var expired: multiset<Key>

    function View(): System
      reads this
    {
      System(locks, workers, lost, expired)
    }

    constructor ()
      ensures View() == Start()
    {
      locks, workers, lost, expired := map[], [], multiset{}, multiset{};
    }

    method Process(job: Job)
      modifies this
      ensures View() == Next(old(View()), Arrives(job))
    {
      if job.name != "send-onboarding-email" {
        workers := workers + [Worker(None, Ignored)];
        return;
      }
      var orgId := Text.Trim(job.orgId);
      if orgId == "" || job.stage.None? {
        workers := workers + [Worker(None, Ignored)];
        return;
      }
      var dedupeKey := Key(orgId, job.stage.value);
      if dedupeKey in locks {
        workers := workers + [Worker(Some(dedupeKey), Duplicate)];
        return;
      }
      locks := locks[dedupeKey := |workers|];
      workers := workers + [Worker(Some(dedupeKey), Loading)];
    }

    method SetPhase(w: nat, phase: Phase)
      requires w < |workers|
      modifies `workers
      ensures View() == Move(old(View()), w, phase)
    {
      workers := workers[w := workers[w].(phase := phase)];
    }

    method OnLookup(w: nat, lookup: Lookup)
      requires In(View(), w, Loading)
      modifies this
      ensures View() == Next(old(View()), LookedUp(w, lookup))
    {
      match lookup {
        case LookupThrew => SetPhase(w, Releasing);
        case Found(None) => SetPhase(w, Skipped);
        case Found(Some(org)) =>
          if Text.Lower(org.status) != "active" {
            SetPhase(w, Skipped);
          } else {
            var toEmail := Text.Trim(if org.billingEmail != "" then org.billingEmail else org.adminEmail);
            SetPhase(w, if toEmail == "" then Skipped else Sending);
          }
      }
    }

    method OnMailed(w: nat, delivery: Delivery)
      requires In(View(), w, Sending)
      modifies this
      ensures View() == Next(old(View()), Mailed(w, delivery))
    {
      var key := workers[w].key.value;
      SetPhase(w, if delivery.Delivered? then Sent else Releasing);
      if delivery.SendThrew? && delivery.wentOut {
        lost := lost + multiset{key};
      }
    }

    method OnDeleted(w: nat, ok: bool)
      requires In(View(), w, Releasing)
      modifies this
      ensures View() == Next(old(View()), Deleted(w, ok))
    {
      if ok {
        locks := locks - {workers[w].key.value};
      }
      SetPhase(w, if ok then Failed else Stuck);
    }

    method Expire(key: Key)
      requires key in locks
      modifies this
      ensures View() == Next(old(View()), Expires(key))
    {
      locks := locks - {key};
      expired := expired + multiset{key};
    }
  }

  // ----- What is counted -----

  predicate Working(p: Phase) {
    p in {Loading, Sending, Releasing}
  }

  predicate Of(s: System, w: nat, k: Key)
    requires w < |s.workers|
  {
    s.workers[w].key == Some(k)
  }

  /** The workers that got the lock of `k` and did not give it back. */
  function Holding(s: System, k: Key): set<nat> {
    set w: nat | w < |s.workers| && Of(s, w, k) && s.workers[w].phase !in {Failed, Duplicate, Ignored}
  }

  function SentBy(s: System, k: Key): set<nat> {
    set w: nat | w < |s.workers| && Of(s, w, k) && s.workers[w].phase == Sent
  }

  /** How often the mail of `k` went out. */
  function Deliveries(s: System, k: Key): nat {
    |SentBy(s, k)| + s.lost[k]
  }

  // ----- Step by step -----

  /**
   A job that asks for a mail takes the lock of its organisation and stage if that is free, and
   that lock alone; if it is taken, or the job asks for none, nothing is set.
   */
  lemma ArrivalTakesLock(s: System, j: Job)
    ensures var next, orgId := Next(s, Arrives(j)), Text.Trim(j.orgId);
      && next.lost == s.lost && next.expired == s.expired
      && |next.workers| == |s.workers| + 1 && next.workers[..|s.workers|] == s.workers
      && var newcomer := next.workers[|s.workers|];
         if j.name != "send-onboarding-email" || orgId == "" || j.stage.None? then
           newcomer == Worker(None, Ignored) && next.locks == s.locks
         else if Key(orgId, j.stage.value) in s.locks then
           newcomer == Worker(Some(Key(orgId, j.stage.value)), Duplicate) && next.locks == s.locks
         else
           && newcomer == Worker(Some(Key(orgId, j.stage.value)), Loading)
           && next.locks == s.locks[Key(orgId, j.stage.value) := |s.workers|]
  {
  }

  /** Only the worker whose turn it is moves on, and where to depends on what it waited for. */
  lemma PhaseNext(s: System, e: Event, w: nat)
    requires Enabled(s, e) && w < |s.workers|
    ensures var next := Next(s, e);
      && w < |next.workers| && next.workers[w].key == s.workers[w].key
      && next.workers[w].phase ==
           match e
           case LookedUp(v, lookup) =>
             if v != w then s.workers[w].phase
             else if lookup.LookupThrew? then Releasing
             else if exists email :: Recipient(lookup.org) == Some(email) then Sending
             else Skipped
           case Mailed(v, delivery) =>
             if v != w then s.workers[w].phase else if delivery.Delivered? then Sent else Releasing
           case Deleted(v, ok) =>
             if v != w then s.workers[w].phase else if ok then Failed else Stuck
           case _ => s.workers[w].phase
  {
    if e.LookedUp? && e.lookup.Found? {
      assert Recipient(e.lookup.org).Some? ==> Recipient(e.lookup.org) == Some(Recipient(e.lookup.org).value);
    }
  }

  /** The mail of `k` goes out by this event. */
  predicate GoesOut(s: System, e: Event, k: Key) {
    e.Mailed? && e.w < |s.workers| && Of(s, e.w, k) && (e.delivery.Delivered? || e.delivery.wentOut)
  }

  lemma SentNext(s: System, e: Event, k: Key)
    requires Enabled(s, e)
    ensures SentBy(Next(s, e), k)
      == SentBy(s, k) + if e.Mailed? && Of(s, e.w, k) && e.delivery.Delivered? then {e.w} else {}
    ensures e.Mailed? ==> e.w !in SentBy(s, k)
  {
    var next := Next(s, e);
    forall w: nat | w < |s.workers|
      ensures w < |next.workers| && next.workers[w].key == s.workers[w].key
      ensures next.workers[w].phase == Sent <==>
        s.workers[w].phase == Sent || (e.Mailed? && e.w == w && e.delivery.Delivered?)
    {
      PhaseNext(s, e, w);
    }
    if e.Arrives? {
      ArrivalTakesLock(s, e.job);
    }
  }

  lemma DeliveriesNext(s: System, e: Event, k: Key)
    requires Enabled(s, e)
    ensures Deliveries(Next(s, e), k) == Deliveries(s, k) + if GoesOut(s, e, k) then 1 else 0
  {
    SentNext(s, e, k);
    assert Next(s, e).lost[k] == s.lost[k] + if GoesOut(s, e, k) && !e.delivery.Delivered? then 1 else 0;
  }

  // ----- What every interleaving keeps -----

  /** Whoever got the lock and did not give it back accounts for the lock, or for one that expired. */
  ghost predicate LocksAccounted(s: System, k: Key) {
    |Holding(s, k)| <= Room(s, k)
  }

  /** The lock, if there is one, and those that expired. */
  function Room(s: System, k: Key): nat {
    (if k in s.locks then 1 else 0) + s.expired[k]
  }

  lemma RoomNext(s: System, e: Event, k: Key)
    requires Enabled(s, e)
    ensures Room(Next(s, e), k) ==
      match e
      case Arrives(j) => if KeyOf(j) == Some(k) && k !in s.locks then Room(s, k) + 1 else Room(s, k)
      case Deleted(w, ok) => if ok && Of(s, w, k) && k in s.locks then Room(s, k) - 1 else Room(s, k)
      case _ => Room(s, k)
  {
  }

  predicate Returned(p: Phase) {
    p in {Failed, Duplicate, Ignored}
  }

  lemma HoldingSame(s: System, t: System, k: Key)
    requires s.workers == t.workers
    ensures Holding(s, k) == Holding(t, k)
  {
  }

  lemma HoldingMove(s: System, w: nat, phase: Phase, k: Key)
    requires w < |s.workers| && !Returned(s.workers[w].phase)
    ensures Holding(Move(s, w, phase), k)
      == if Returned(phase) && Of(s, w, k) then Holding(s, k) - {w} else Holding(s, k)
  {
  }

  lemma HoldingArrive(s: System, j: Job, k: Key)
    ensures Holding(Arrive(s, j), k)
      == if KeyOf(j) == Some(k) && k !in s.locks then Holding(s, k) + {|s.workers|} else Holding(s, k)
  {
  }

  lemma HoldingNext(s: System, e: Event, k: Key)
    requires Enabled(s, e)
    ensures Holding(Next(s, e), k) ==
      match e
      case Arrives(j) =>
        if KeyOf(j) == Some(k) && k !in s.locks then Holding(s, k) + {|s.workers|} else Holding(s, k)
      case Deleted(w, ok) => if ok && Of(s, w, k) then Holding(s, k) - {w} else Holding(s, k)
      case _ => Holding(s, k)
  {
    match e
    case Arrives(j) => HoldingArrive(s, j, k);
    case LookedUp(w, lookup) => HoldingMove(s, w, AfterLookup(lookup), k);
    case Mailed(w, delivery) =>
      var phase := if delivery.Delivered? then Sent else Releasing;
      HoldingMove(s, w, phase, k);
      HoldingSame(Next(s, e), Move(s, w, phase), k);
    case Deleted(w, ok) =>
      var phase := if ok then Failed else Stuck;
      HoldingMove(s, w, phase, k);
      HoldingSame(Next(s, e), Move(s, w, phase), k);
    case Expires(_) => HoldingSame(Next(s, e), s, k);
  }

  lemma NextAccounts(s: System, e: Event, k: Key)
    requires LocksAccounted(s, k) && Enabled(s, e)
    ensures LocksAccounted(Next(s, e), k)
  {
    HoldingNext(s, e, k);
    RoomNext(s, e, k);
    match e
    case Deleted(w, ok) =>
      assert ok && Of(s, w, k) ==> w in Holding(s, k);
    case _ =>
  }

  predicate Legal(s: System, es: seq<Event>)
    decreases |es|
  {
    es == [] || (Enabled(s, es[0]) && Legal(Next(s, es[0]), es[1..]))
  }

  function After(s: System, es: seq<Event>): System
    requires Legal(s, es)
    decreases |es|
  {
    if es == [] then s else After(Next(s, es[0]), es[1..])
  }

  lemma {:induction false} RunAccounts(s: System, es: seq<Event>, k: Key)
    requires LocksAccounted(s, k) && Legal(s, es)
    ensures LocksAccounted(After(s, es), k)
    decreases |es|
  {
    if es != [] {
      NextAccounts(s, es[0], k);
      RunAccounts(Next(s, es[0]), es[1..], k);
    }
  }

  /** How often the mail of `k` went out in a run. */
  function TimesOut(s: System, es: seq<Event>, k: Key): nat
    requires Legal(s, es)
    decreases |es|
  {
    if es == [] then 0 else (if GoesOut(s, es[0], k) then 1 else 0) + TimesOut(Next(s, es[0]), es[1..], k)
  }

  lemma {:induction false} DeliveriesAreCounted(s: System, es: seq<Event>, k: Key)
    requires Legal(s, es)
    ensures Deliveries(After(s, es), k) == Deliveries(s, k) + TimesOut(s, es, k)
    decreases |es|
  {
    if es != [] {
      DeliveriesNext(s, es[0], k);
      DeliveriesAreCounted(Next(s, es[0]), es[1..], k);
    }
  }

  lemma {:induction false} SubsetSize(a: set<nat>, b: set<nat>)
    requires a <= b
    ensures |a| <= |b|
  {
    if a != {} {
      var x :| x in a;
      SubsetSize(a - {x}, b - {x});
    }
  }

  /**
   In every interleaving, whenever locks expire: at most one worker sends the mail, and one
   more for each lock that expired; so the mail goes out no more often than that and once more
   for each send that threw although the mail went out.
   */
  lemma SentOncePerLock(es: seq<Event>, k: Key)
    requires Legal(Start(), es)
    ensures var s := After(Start(), es);
      |SentBy(s, k)| <= 1 + s.expired[k] && Deliveries(s, k) <= 1 + s.expired[k] + s.lost[k]
  {
    RunAccounts(Start(), es, k);
    var s := After(Start(), es);
    SubsetSize(SentBy(s, k), Holding(s, k));
  }

  /** A worker of the key sent the mail or skipped it. */
  ghost predicate Over(s: System, k: Key) {
    exists w: nat :: w < |s.workers| && Of(s, w, k) && s.workers[w].phase in {Sent, Skipped}
  }

  /** The lock is there and nobody of the key is at work. */
  ghost predicate Settled(s: System, k: Key) {
    k in s.locks && forall w: nat :: w < |s.workers| && Of(s, w, k) ==> !Working(s.workers[w].phase)
  }

  lemma OverIsSettled(s: System, k: Key)
    requires LocksAccounted(s, k) && Over(s, k) && s.expired[k] == 0
    ensures Settled(s, k)
  {
    var v: nat :| v < |s.workers| && Of(s, v, k) && s.workers[v].phase in {Sent, Skipped};
    SubsetSize({v}, Holding(s, k));
    forall w: nat | w < |s.workers| && Of(s, w, k) ensures !Working(s.workers[w].phase) {
      if Working(s.workers[w].phase) {
        SubsetSize({v, w}, Holding(s, k));
      }
    }
  }

  /** Once a worker has sent or skipped the mail, and while the lock lives, nobody sends it again. */
  lemma SettledForLifetime(es: seq<Event>, more: seq<Event>, k: Key)
    requires Legal(Start(), es) && Legal(After(Start(), es), more) && Over(After(Start(), es), k)
    requires After(After(Start(), es), more).expired[k] == 0
    ensures var s := After(Start(), es); Settled(s, k) && Deliveries(After(s, more), k) == Deliveries(s, k)
  {
    var s := After(Start(), es);
    RunAccounts(Start(), es, k);
    ExpiredGrows(s, more, k);
    OverIsSettled(s, k);
    SettledStays(s, more, k);
  }

  lemma {:induction false} ExpiredGrows(s: System, es: seq<Event>, k: Key)
    requires Legal(s, es)
    ensures s.expired[k] <= After(s, es).expired[k]
    decreases |es|
  {
    if es != [] {
      ExpiredGrows(Next(s, es[0]), es[1..], k);
    }
  }

  /** Only workers at work move, and a new one gets to work only on a free lock. */
  lemma WorkersNext(s: System, e: Event)
    requires Enabled(s, e)
    ensures var next := Next(s, e);
      && |s.workers| <= |next.workers|
      && (forall w: nat :: w < |s.workers| && !Working(s.workers[w].phase) ==> next.workers[w] == s.workers[w])
      && (forall w: nat :: w < |s.workers| ==> next.workers[w].key == s.workers[w].key)
      && (forall w: nat :: |s.workers| <= w < |next.workers| ==> NewcomerFits(s, next.workers[w]))
  {
  }

  predicate NewcomerFits(s: System, w: Worker) {
    w.phase != Sent && (Working(w.phase) ==> w.key.Some? && w.key.value !in s.locks)
  }

  lemma SettledStep(s: System, e: Event, k: Key)
    requires Settled(s, k) && Enabled(s, e) && Next(s, e).expired[k] == s.expired[k]
    ensures Settled(Next(s, e), k) && Deliveries(Next(s, e), k) == Deliveries(s, k)
  {
    WorkersNext(s, e);
    var next := Next(s, e);
    if e.LookedUp? || e.Mailed? || e.Deleted? {
      assert !Of(s, e.w, k);
    }
    assert k in next.locks && next.lost[k] == s.lost[k];
    forall w: nat | w < |next.workers| && Of(next, w, k)
      ensures !Working(next.workers[w].phase)
      ensures w in SentBy(next, k) <==> w in SentBy(s, k)
    {
      if w < |s.workers| {
        assert Of(s, w, k);
      } else {
        assert NewcomerFits(s, next.workers[w]);
      }
    }
    assert SentBy(next, k) == SentBy(s, k);
  }

  lemma {:induction false} SettledStays(s: System, es: seq<Event>, k: Key)
    requires Settled(s, k) && Legal(s, es) && After(s, es).expired[k] == s.expired[k]
    ensures Deliveries(After(s, es), k) == Deliveries(s, k)
    decreases |es|
  {
    if es != [] {
      ExpiredGrows(Next(s, es[0]), es[1..], k);
      SettledStep(s, es[0], k);
      SettledStays(Next(s, es[0]), es[1..], k);
    }
  }

  // ----- Whose lock a failing worker deletes -----

  predicate Owns(s: System, w: nat)
    requires w < |s.workers| && s.workers[w].key.Some?
  {
    s.workers[w].key.value in s.locks && s.locks[s.workers[w].key.value] == w
  }

  /** The lock of `k` expires, or a worker of `k` deletes it. */
  predicate Frees(s: System, e: Event, k: Key) {
    e == Expires(k) || (e.Deleted? && e.ok && In(s, e.w, Releasing) && Of(s, e.w, k))
  }

  lemma KeysStay(s: System, e: Event, w: nat)
    requires Enabled(s, e) && w < |s.workers|
    ensures w < |Next(s, e).workers| && Next(s, e).workers[w].key == s.workers[w].key
  {
  }

  lemma LocksNext(s: System, e: Event)
    requires Enabled(s, e)
    ensures Next(s, e).locks ==
      match e
      case Arrives(j) =>
        if KeyOf(j).Some? && KeyOf(j).value !in s.locks then s.locks[KeyOf(j).value := |s.workers|] else s.locks
      case Deleted(w, ok) => if ok then s.locks - {s.workers[w].key.value} else s.locks
      case Expires(k) => s.locks - {k}
      case _ => s.locks
  {
  }

  lemma OwnsStep(s: System, e: Event, w: nat, k: Key)
    requires Enabled(s, e) && w < |s.workers| && Of(s, w, k)
    ensures w < |Next(s, e).workers| && Of(Next(s, e), w, k)
    ensures Owns(Next(s, e), w) <==> Owns(s, w) && !Frees(s, e, k)
  {
    KeysStay(s, e, w);
    LocksNext(s, e);
  }

  ghost predicate NeverFreed(s: System, es: seq<Event>, k: Key)
    requires Legal(s, es)
    decreases |es|
  {
    es == [] || (!Frees(s, es[0], k) && NeverFreed(Next(s, es[0]), es[1..], k))
  }

  /** A worker owns the lock of its key exactly as long as it had it and the lock was not freed. */
  lemma {:induction false} OwnsRun(s: System, es: seq<Event>, w: nat, k: Key)
    requires Legal(s, es) && w < |s.workers| && Of(s, w, k)
    ensures w < |After(s, es).workers| && Of(After(s, es), w, k)
    ensures Owns(After(s, es), w) <==> Owns(s, w) && NeverFreed(s, es, k)
    decreases |es|
  {
    if es != [] {
      OwnsStep(s, es[0], w, k);
      OwnsRun(Next(s, es[0]), es[1..], w, k);
    }
  }

  /**
   A worker that got the lock of its key and fails deletes the lock it set, and no other,
   exactly when that lock neither expired nor was deleted meanwhile; else it deletes none, or
   another worker's. In any case the next job for the key then gets the lock.
   */
  lemma FailureReleasesItsOwn(before: System, job: Job, k: Key, es: seq<Event>, retry: Job)
    requires KeyOf(job) == KeyOf(retry) == Some(k) && k !in before.locks
    requires var start, w := Next(before, Arrives(job)), |before.workers|;
      Legal(start, es) && In(After(start, es), w, Releasing)
    ensures var start, w := Next(before, Arrives(job)), |before.workers|;
      var s := After(start, es);
      var next := Next(s, Deleted(w, true));
      && s.workers[w].key == Some(k)
      && (Owns(s, w) <==> NeverFreed(start, es, k))
      && (NeverFreed(start, es, k) ==> next.locks + map[k := w] == s.locks)
      && (!NeverFreed(start, es, k) ==> next.locks == s.locks || (k in s.locks && s.locks[k] != w))
      && k !in next.locks && Arrive(next, retry).workers == next.workers + [Worker(Some(k), Loading)]
  {
    var start, w := Next(before, Arrives(job)), |before.workers|;
    assert Of(start, w, k) && Owns(start, w);
    OwnsRun(start, es, w, k);
  }

  /** The lock of `k` expires only while no worker of `k` is at work. */
  predicate InTime(s: System, e: Event, k: Key) {
    e == Expires(k) ==> forall w: nat :: w < |s.workers| && Of(s, w, k) ==> !Working(s.workers[w].phase)
  }

  ghost predicate AllInTime(s: System, es: seq<Event>, k: Key)
    requires Legal(s, es)
    decreases |es|
  {
    es == [] || (InTime(s, es[0], k) && AllInTime(Next(s, es[0]), es[1..], k))
  }

  /** Every worker at work on `k` owns the lock of it. */
  ghost predicate OwnersWork(s: System, k: Key) {
    forall w: nat :: w < |s.workers| && Of(s, w, k) && Working(s.workers[w].phase) ==> Owns(s, w)
  }

  lemma OwnersStep(s: System, e: Event, k: Key)
    requires OwnersWork(s, k) && Enabled(s, e) && InTime(s, e, k)
    ensures OwnersWork(Next(s, e), k)
  {
    var next := Next(s, e);
    WorkersNext(s, e);
    assert e.Deleted? && Of(s, e.w, k) ==> Owns(s, e.w);
    forall w: nat | w < |next.workers| && Of(next, w, k) && Working(next.workers[w].phase) ensures Owns(next, w) {
      if w < |s.workers| {
        assert Of(s, w, k) && Working(s.workers[w].phase);
        assert Owns(s, w);
        OwnsStep(s, e, w, k);
      }
    }
  }

  /** When every worker of a key is done before the lock expires, each one at work owns the lock it will delete. */
  lemma {:induction false} WorkersInTimeOwn(s: System, es: seq<Event>, k: Key)
    requires OwnersWork(s, k) && Legal(s, es) && AllInTime(s, es, k)
    ensures OwnersWork(After(s, es), k)
    decreases |es|
  {
    if es != [] {
      OwnersStep(s, es[0], k);
      WorkersInTimeOwn(Next(s, es[0]), es[1..], k);
    }
  }

  function Slow(j: Job, k: Key): seq<Event> {
    [Expires(k), Arrives(j), LookedUp(0, LookupThrew)]
  }

  /** When a lock expires under its worker, a failure deletes the lock of another worker that is still at work. */
  lemma SlowFailureReleasesAnothers(j: Job, k: Key)
    requires KeyOf(j) == Some(k)
    ensures var start := Next(Start(), Arrives(j));
      && Legal(start, Slow(j, k)) && !NeverFreed(start, Slow(j, k), k)
      && var s := After(start, Slow(j, k));
         && k in s.locks && s.locks[k] == 1 && In(s, 1, Loading) && s.workers[1].key == Some(k)
         && In(s, 0, Releasing) && k !in Next(s, Deleted(0, true)).locks
  {
    var es := Slow(j, k);
    var s0 := Next(Start(), Arrives(j));
    var s1 := Next(s0, es[0]);
    var s2 := Next(s1, es[1]);
    var s3 := Next(s2, es[2]);
    assert es[2..][1..] == [];
    assert Legal(s3, []) && After(s3, []) == s3;
    assert Legal(s2, es[2..]) && After(s2, es[2..]) == s3;
    assert Legal(s1, es[1..]) && After(s1, es[1..]) == s3;
  }

  // ----- One organisation, four mails -----

  function StageJob(orgId: string, stage: Stage): Event {
    Arrives(Job("send-onboarding-email", orgId, Some(stage)))
  }

  function StageJobs(orgId: string, stages: seq<Stage>): seq<Event> {
    if stages == [] then [] else [StageJob(orgId, stages[0])] + StageJobs(orgId, stages[1..])
  }

  /** The worker at `w` is at work on the mail of `k`, and its lock is set. */
  ghost predicate Taken(s: System, w: nat, k: Key) {
    w < |s.workers| && s.workers[w] == Worker(Some(k), Loading) && k in s.locks
  }

  lemma StageJobTaken(s: System, orgId: string, stage: Stage)
    requires Text.Trim(orgId) != "" && Key(Text.Trim(orgId), stage) !in s.locks
    ensures var next, k := Next(s, StageJob(orgId, stage)), Key(Text.Trim(orgId), stage);
      |next.workers| == |s.workers| + 1 && next.locks == s.locks[k := |s.workers|] && Taken(next, |s.workers|, k)
  {
    ArrivalTakesLock(s, StageJob(orgId, stage).job);
  }

  predicate AllArrive(es: seq<Event>) {
    forall e :: e in es ==> e.Arrives?
  }

  lemma {:induction false} StageJobsArrive(orgId: string, stages: seq<Stage>)
    ensures AllArrive(StageJobs(orgId, stages))
  {
    if stages != [] {
      StageJobsArrive(orgId, stages[1..]);
    }
  }

  lemma {:induction false} ArrivalsAreLegal(s: System, es: seq<Event>)
    requires AllArrive(es)
    ensures Legal(s, es)
    decreases |es|
  {
    if es != [] {
      assert es[0] in es;
      ArrivalsAreLegal(Next(s, es[0]), es[1..]);
    }
  }

  /** Arrivals change neither the workers that are there nor the locks that are set. */
  lemma {:induction false} ArrivalsStay(s: System, es: seq<Event>, w: nat, k: Key)
    requires Legal(s, es) && AllArrive(es) && w < |s.workers| && k in s.locks
    ensures w < |After(s, es).workers| && After(s, es).workers[w] == s.workers[w] && k in After(s, es).locks
    decreases |es|
  {
    if es != [] {
      assert es[0] in es;
      ArrivalTakesLock(s, es[0].job);
      ArrivalsStay(Next(s, es[0]), es[1..], w, k);
    }
  }

  lemma {:induction false} StageIsTaken(s: System, orgId: string, stages: seq<Stage>, i: nat)
    requires Text.Trim(orgId) != "" && i < |stages|
    requires forall j :: 0 <= j <= i ==> Key(Text.Trim(orgId), stages[j]) !in s.locks
    requires forall x, y :: 0 <= x < y <= i ==> stages[x] != stages[y]
    requires Legal(s, StageJobs(orgId, stages))
    ensures Taken(After(s, StageJobs(orgId, stages)), |s.workers| + i, Key(Text.Trim(orgId), stages[i]))
    decreases |stages|
  {
    var next, rest := Next(s, StageJob(orgId, stages[0])), StageJobs(orgId, stages[1..]);
    StageJobTaken(s, orgId, stages[0]);
    assert StageJobs(orgId, stages)[1..] == rest;
    if i == 0 {
      StageJobsArrive(orgId, stages[1..]);
      ArrivalsStay(next, rest, |s.workers|, Key(Text.Trim(orgId), stages[0]));
    } else {
      StageIsTaken(next, orgId, stages[1..], i - 1);
    }
  }

  /** Each stage has a lock of its own: after the mail of one the others still go out. */
  lemma EveryStageIsTaken(s: System, orgId: string, stages: seq<Stage>)
    requires Text.Trim(orgId) != "" && forall i :: 0 <= i < |stages| ==> Key(Text.Trim(orgId), stages[i]) !in s.locks
    requires forall i, j :: 0 <= i < j < |stages| ==> stages[i] != stages[j]
    ensures Legal(s, StageJobs(orgId, stages))
    ensures forall i: nat :: i < |stages| ==>
      Taken(After(s, StageJobs(orgId, stages)), |s.workers| + i, Key(Text.Trim(orgId), stages[i]))
  {
    StageJobsArrive(orgId, stages);
    ArrivalsAreLegal(s, StageJobs(orgId, stages));
    forall i: nat | i < |stages|
      ensures Taken(After(s, StageJobs(orgId, stages)), |s.workers| + i, Key(Text.Trim(orgId), stages[i]))
    {
      StageIsTaken(s, orgId, stages, i);
    }
  }
}
