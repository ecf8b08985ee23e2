/**
 The answer queue of the exam client: answers waiting for a connection, the last
 value handed to the socket for each key, and the acknowledgements still awaited.
 */
module ExamAnswers {
  import opened Wrappers

  type Key = string

  /** An answer, known only up to `===`: equal numbers stand for values that compare equal. */
  type Value = int

  /** One `save_answer` packet: the socket it was emitted on, its session and its payload. */
  datatype Save = Save(socket: nat, session: string, answer: map<Key, Value>, isBatch: bool)

  /**
   `emitted` is everything handed to socket.io so far, in order. A save is named by its
   index there; `open` holds the saves whose acknowledgement callback has not run yet.
   */
  datatype Answers = Answers(
    pending: map<Key, Value>,
    latestSent: map<Key, Value>,
    retryArmed: bool,
    emitted: seq<Save>,
    open: set<nat>)

  function EmitSave(a: Answers, session: string, socket: nat, answer: map<Key, Value>, isBatch: bool): Answers {
    if session == "" then
      a.(pending := a.pending + answer)
    else
      a.(latestSent := a.latestSent + answer,
         emitted := a.emitted + [Save(socket, session, answer, isBatch)],
         open := a.open + {|a.emitted|})
  }

  /** Everything pending goes out as one batch, if there is anything. */
  function Flush(a: Answers, session: string, socket: nat): Answers {
    if a.pending == map[] then a
    else EmitSave(a.(pending := map[]), session, socket, a.pending, true)
  }

  /** The values of an unanswered save that are still the newest and not queued already. */
  function Requeued(a: Answers, answer: map<Key, Value>): map<Key, Value> {
    map k | k in answer && k !in a.pending && k in a.latestSent && a.latestSent[k] == answer[k] :: answer[k]
  }

  /** The callback runs with an error, or with a status other than saved and rejected. */
  function Unanswered(a: Answers, kicked: bool, id: nat): Answers
    requires id < |a.emitted|
  {
    var closed := a.(open := a.open - {id});
    if kicked then closed
    else closed.(pending := a.pending + Requeued(a, a.emitted[id].answer), retryArmed := true)
  }

  /** The callback runs with status saved. */
  function Acked(a: Answers, id: nat): Answers {
    a.(open := a.open - {id})
  }

  predicate Splits(save: Save, reason: string) {
    save.isBatch && |save.answer| > 1 && (reason == "TOO_MANY_ANSWERS" || reason == "ANSWER_TOO_LARGE")
  }

  /** One save per key of `keys`, in that order. */
  function EmitEach(a: Answers, session: string, socket: nat, answer: map<Key, Value>, keys: seq<Key>): Answers
    requires forall k :: k in keys ==> k in answer
    decreases |keys|
  {
    if keys == [] then a
    else EmitEach(EmitSave(a, session, socket, map[keys[0] := answer[keys[0]]], false),
                  session, socket, answer, keys[1..])
  }

  /** `keys` enumerates the keys of `answer`, each once: what `Object.keys` returns. */
  ghost predicate Enumerates(keys: seq<Key>, answer: map<Key, Value>) {
    && (forall k :: k in keys <==> k in answer)
    && (forall i, j :: 0 <= i < j < |keys| ==> keys[i] != keys[j])
  }

  /** The callback runs with status rejected. */
  function Rejected(a: Answers, kicked: bool, session: string, id: nat, reason: string, keys: seq<Key>): Answers
    requires id < |a.emitted|
    requires forall k :: k in keys ==> k in a.emitted[id].answer
  {
    var closed := a.(open := a.open - {id});
    var save := a.emitted[id];
    if !kicked && Splits(save, reason) then EmitEach(closed, session, save.socket, save.answer, keys)
    else closed
  }

  /** The retry timer fires; `live` is the connected current socket, if there is one. */
  function RetryFires(a: Answers, session: string, live: Option<nat>): Answers {
    var idle := a.(retryArmed := false);
    if live.None? then idle else Flush(idle, session, live.value)
  }

  function QueueAnswer(a: Answers, kicked: bool, session: string, live: Option<nat>, key: Key, value: Value): Answers {
    if kicked then a
    else
      var superseded := a.(pending := a.pending - {key});
      if live.Some? && session != "" then
        EmitSave(superseded, session, live.value, map[key := value], false)
      else
        superseded.(pending := superseded.pending[key := value])
  }

  // ----- What the user is owed -----

  /**
   History, kept beside the queue: the last answer the user gave for each key, the saves
   the server acknowledged, the keys whose newest answer was finally rejected, and the
   keys on which a split batch overwrote a newer answer.
   */
  datatype Ledger = Ledger(given: map<Key, Value>, acked: set<nat>, rejected: set<Key>, overtaken: set<Key>)

  /** The last save that carries `k`, or -1. */
  ghost function Last(emitted: seq<Save>, k: Key): (n: int)
    ensures -1 <= n < |emitted|
    ensures n >= 0 ==> k in emitted[n].answer
    ensures forall j :: n < j < |emitted| ==> k !in emitted[j].answer
  {
    if emitted == [] then -1
    else if k in emitted[|emitted| - 1].answer then |emitted| - 1
    else Last(emitted[..|emitted| - 1], k)
  }

  /** Bookkeeping that holds of every key, whatever happened to it. */
  ghost predicate Tracked(a: Answers, h: Ledger, k: Key) {
    var n := Last(a.emitted, k);
    && (k in a.pending ==> k in h.given)
    && (k in a.latestSent <==> n >= 0)
    && (n >= 0 ==> k in h.given && a.emitted[n].answer[k] == a.latestSent[k])
  }

  /** A queued answer is the newest one; with nothing queued, the newest one was sent last. */
  ghost predicate Fresh(a: Answers, h: Ledger, k: Key) {
    k in h.given && k !in h.overtaken ==>
      if k in a.pending then a.pending[k] == h.given[k]
      else k in a.latestSent && a.latestSent[k] == h.given[k]
  }

  /** Unless it is queued or was finally rejected, the last save of `k` is in flight or acknowledged. */
  ghost predicate Carried(a: Answers, h: Ledger, k: Key) {
    k in h.given && k !in h.overtaken && k !in h.rejected && k !in a.pending ==>
      var n := Last(a.emitted, k);
      n >= 0 && (n in a.open || n in h.acked)
  }

  ghost predicate Kept(a: Answers, h: Ledger, kicked: bool, k: Key) {
    Tracked(a, h, k) && Fresh(a, h, k) && (!kicked ==> Carried(a, h, k))
  }

  ghost predicate OpenEmitted(a: Answers) {
    forall id :: id in a.open ==> id < |a.emitted|
  }

  // ----- History kept by each operation -----

  function GiveAnswer(h: Ledger, kicked: bool, key: Key, value: Value): Ledger {
    if kicked then h
    else h.(given := h.given[key := value], rejected := h.rejected - {key}, overtaken := h.overtaken - {key})
  }

  function NoteAcked(h: Ledger, id: nat): Ledger {
    h.(acked := h.acked + {id})
  }

  /**
   True when re-emitting `answer[k]` puts an older value over the newest one. It is the
   negation of the test the timeout path makes before it requeues a value; only with no
   session id, where emitting means queueing, is the queued value itself at stake.
   */
  predicate Stale(a: Answers, session: string, answer: map<Key, Value>, k: Key) {
    && k in answer
    && if k in a.pending then session == "" && a.pending[k] != answer[k]
       else k !in a.latestSent || a.latestSent[k] != answer[k]
  }

  function NoteRejected(h: Ledger, a: Answers, kicked: bool, session: string, id: nat, reason: string): Ledger
    requires id < |a.emitted|
  {
    var save := a.emitted[id];
    if kicked then h
    else if Splits(save, reason) then
      h.(overtaken := h.overtaken + set k | k in save.answer && Stale(a, session, save.answer, k))
    else
      h.(rejected := h.rejected + set k | k in save.answer && k in h.given && h.given[k] == save.answer[k])
  }

  // ----- Every operation keeps every key -----

  lemma LastAppend(emitted: seq<Save>, save: Save, k: Key)
    ensures Last(emitted + [save], k) == if k in save.answer then |emitted| else Last(emitted, k)
  {
    assert (emitted + [save])[..|emitted|] == emitted;
  }

  /** Emitting newest values, or older ones while a newer one stays queued, keeps a key. */
  lemma EmitKeeps(a: Answers, h: Ledger, kicked: bool, session: string, socket: nat,
                  answer: map<Key, Value>, isBatch: bool, k: Key)
    requires k in answer ==> k in h.given
    requires Tracked(a, h, k)
    requires
      || (Kept(a, h, kicked, k) && (k !in answer || (k in a.pending && session != "")))
      || (k in answer && (k in h.overtaken || h.given[k] == answer[k]) && (k in a.pending ==> Fresh(a, h, k)))
    ensures Kept(EmitSave(a, session, socket, answer, isBatch), h, kicked, k)
  {
    LastAppend(a.emitted, Save(socket, session, answer, isBatch), k);
  }

  lemma FlushKeeps(a: Answers, h: Ledger, kicked: bool, session: string, socket: nat, k: Key)
    requires Kept(a, h, kicked, k)
    ensures Kept(Flush(a, session, socket), h, kicked, k)
  {
    if a.pending != map[] {
      EmitKeeps(a.(pending := map[]), h, kicked, session, socket, a.pending, true, k);
    }
  }

  lemma QueueAnswerKeeps(a: Answers, h: Ledger, kicked: bool, session: string, live: Option<nat>,
                         key: Key, value: Value, k: Key)
    requires Kept(a, h, kicked, k)
    ensures Kept(QueueAnswer(a, kicked, session, live, key, value), GiveAnswer(h, kicked, key, value), kicked, k)
  {
    if !kicked && live.Some? && session != "" {
      EmitKeeps(a.(pending := a.pending - {key}), GiveAnswer(h, kicked, key, value), kicked,
                session, live.value, map[key := value], false, k);
    }
  }

  lemma UnansweredKeeps(a: Answers, h: Ledger, kicked: bool, id: nat, k: Key)
    requires id < |a.emitted| && Kept(a, h, kicked, k)
    ensures Kept(Unanswered(a, kicked, id), h, kicked, k)
  {
  }

  lemma AckedKeeps(a: Answers, h: Ledger, kicked: bool, id: nat, k: Key)
    requires id < |a.emitted| && Kept(a, h, kicked, k)
    ensures Kept(Acked(a, id), NoteAcked(h, id), kicked, k)
  {
  }

  /** What is sent of other keys changes nothing about `k`. */
  lemma EmitOther(a: Answers, h: Ledger, kicked: bool, session: string, socket: nat, answer: map<Key, Value>, k: Key)
    requires k !in answer
    ensures var b := EmitSave(a, session, socket, answer, false);
      && (k in b.pending <==> k in a.pending)
      && (Tracked(b, h, k) <==> Tracked(a, h, k)) && (Fresh(b, h, k) <==> Fresh(a, h, k))
      && (Kept(a, h, kicked, k) ==> Kept(b, h, kicked, k))
  {
    LastAppend(a.emitted, Save(socket, session, answer, false), k);
  }

  /** Re-emission keeps a key that is not stale, and repairs one whose last save was just closed. */
  lemma {:induction false} EmitEachKeeps(a: Answers, h: Ledger, kicked: bool, session: string, socket: nat,
                                         answer: map<Key, Value>, keys: seq<Key>, k: Key)
    requires forall x :: x in keys ==> x in answer
    requires forall i, j :: 0 <= i < j < |keys| ==> keys[i] != keys[j]
    requires k in answer ==> k in h.given
    requires Tracked(a, h, k) && Fresh(a, h, k)
    requires k !in keys ==> Kept(a, h, kicked, k)
    requires k in keys ==>
      || k in h.overtaken
      || h.given[k] == answer[k]
      || (k in a.pending && session != "")
    ensures Kept(EmitEach(a, session, socket, answer, keys), h, kicked, k)
    decreases |keys|
  {
    if keys != [] {
      var one := map[keys[0] := answer[keys[0]]];
      var next := EmitSave(a, session, socket, one, false);
      if k == keys[0] {
        EmitKeeps(a, h, kicked, session, socket, one, false, k);
        assert k !in keys[1..];
      } else {
        EmitOther(a, h, kicked, session, socket, one, k);
      }
      EmitEachKeeps(next, h, kicked, session, socket, answer, keys[1..], k);
    }
  }

  lemma RejectedKeeps(a: Answers, h: Ledger, kicked: bool, session: string, id: nat, reason: string,
                      keys: seq<Key>, k: Key)
    requires id < |a.emitted| && Enumerates(keys, a.emitted[id].answer)
    requires k in a.emitted[id].answer ==> k in h.given
    requires Kept(a, h, kicked, k)
    ensures Kept(Rejected(a, kicked, session, id, reason, keys),
                 NoteRejected(h, a, kicked, session, id, reason), kicked, k)
  {
    var save := a.emitted[id];
    if !kicked && Splits(save, reason) {
      EmitEachKeeps(a.(open := a.open - {id}), NoteRejected(h, a, kicked, session, id, reason), kicked,
                    session, save.socket, save.answer, keys, k);
    }
  }

  // ----- What a split does, exactly -----

  function Only(answer: map<Key, Value>, keys: seq<Key>): map<Key, Value> {
    map k | k in keys && k in answer :: answer[k]
  }

  lemma OnlyCons(base: map<Key, Value>, answer: map<Key, Value>, keys: seq<Key>)
    requires keys != [] && keys[0] in answer
    ensures base + Only(answer, keys) == (base + map[keys[0] := answer[keys[0]]]) + Only(answer, keys[1..])
  {
    assert forall k :: k in keys <==> k == keys[0] || k in keys[1..];
  }

  /** With a session, each key goes out alone, once, in order; nothing else about the queue changes. */
  lemma {:induction false} EmitEachSends(a: Answers, session: string, socket: nat,
                                         answer: map<Key, Value>, keys: seq<Key>)
    requires session != "" && forall x :: x in keys ==> x in answer
    ensures var b := EmitEach(a, session, socket, answer, keys);
      && b.pending == a.pending && b.retryArmed == a.retryArmed
      && b.latestSent == a.latestSent + Only(answer, keys)
      && |b.emitted| == |a.emitted| + |keys| && b.emitted[..|a.emitted|] == a.emitted
      && (forall j :: 0 <= j < |keys| ==>
            b.emitted[|a.emitted| + j] == Save(socket, session, map[keys[j] := answer[keys[j]]], false))
      && (forall id :: id in b.open <==> id in a.open || |a.emitted| <= id < |b.emitted|)
    decreases |keys|
  {
    if keys != [] {
      var next := EmitSave(a, session, socket, map[keys[0] := answer[keys[0]]], false);
      var b := EmitEach(a, session, socket, answer, keys);
      EmitEachSends(next, session, socket, answer, keys[1..]);
      OnlyCons(a.latestSent, answer, keys);
      assert b.emitted[|a.emitted|] == b.emitted[..|next.emitted|][|a.emitted|];
      assert b.emitted[..|a.emitted|] == b.emitted[..|next.emitted|][..|a.emitted|];
      forall j | 0 <= j < |keys|
        ensures b.emitted[|a.emitted| + j] == Save(socket, session, map[keys[j] := answer[keys[j]]], false)
      {
        if j > 0 {
          assert keys[1..][j - 1] == keys[j];
          assert b.emitted[|next.emitted| + (j - 1)] == b.emitted[|a.emitted| + j];
        }
      }
    }
  }

  /** Without a session, the split values only go back to the queue. */
  lemma {:induction false} EmitEachQueues(a: Answers, socket: nat, answer: map<Key, Value>, keys: seq<Key>)
    requires forall x :: x in keys ==> x in answer
    ensures EmitEach(a, "", socket, answer, keys) == a.(pending := a.pending + Only(answer, keys))
    decreases |keys|
  {
    if keys == [] {
      assert a.pending + Only(answer, keys) == a.pending;
    } else {
      OnlyCons(a.pending, answer, keys);
      EmitEachQueues(EmitSave(a, "", socket, map[keys[0] := answer[keys[0]]], false), socket, answer, keys[1..]);
    }
  }

  /**
   A split keeps the freshness of a key exactly when the staleness test, which the code
   makes on the timeout path but not here, would have passed for that key.
   */
  lemma SplitStaysFreshIff(a: Answers, h: Ledger, session: string, id: nat, reason: string,
                           keys: seq<Key>, k: Key)
    requires id < |a.emitted| && Splits(a.emitted[id], reason) && Enumerates(keys, a.emitted[id].answer)
    requires k in h.given && k !in h.overtaken && Tracked(a, h, k) && Fresh(a, h, k)
    ensures Fresh(Rejected(a, false, session, id, reason, keys), h, k)
       <==> !Stale(a, session, a.emitted[id].answer, k)
  {
    var save := a.emitted[id];
    var closed := a.(open := a.open - {id});
    if session == "" {
      EmitEachQueues(closed, save.socket, save.answer, keys);
    } else {
      EmitEachSends(closed, session, save.socket, save.answer, keys);
    }
  }
}
