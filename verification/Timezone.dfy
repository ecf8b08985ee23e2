/**
 Wall clocks and instants. A zone is an offset that changes at listed transitions; what the
 platform's formatter shows at an instant is the instant shifted by the offset in force.
 Instants and wall clocks are milliseconds, a wall clock read as if it were UTC.
 */
module Timezone {
  import opened Numbers

  const MINUTE: int := 60000

  /** From `at` on, the zone is `offset` minutes ahead of UTC. */
  datatype Transition = Transition(at: int, offset: int)

  datatype Zone = Zone(initial: int, transitions: seq<Transition>)

  ghost predicate Sorted(ts: seq<Transition>) {
    forall i, j :: 0 <= i < j < |ts| ==> ts[i].at < ts[j].at
  }

  /** How many transitions have happened by `t`. */
  function Regime(ts: seq<Transition>, t: int): (r: nat)
    ensures r <= |ts|
  {
    if ts == [] then 0
    else if ts[|ts| - 1].at <= t then |ts|
    else Regime(ts[..|ts| - 1], t)
  }

  function OffsetIn(z: Zone, regime: nat): int
    requires regime <= |z.transitions|
  {
    if regime == 0 then z.initial else z.transitions[regime - 1].offset
  }

  /** The offset in force, in minutes. */
  function OffsetAt(z: Zone, t: int): int {
    OffsetIn(z, Regime(z.transitions, t))
  }

  /** What a clock in the zone shows, to the millisecond. */
  function Display(z: Zone, t: int): int {
    t + OffsetAt(z, t) * MINUTE
  }

  // ----- The conversions -----

  /** `Math.round(ms / 60000)`. */
  function RoundToMinutes(ms: int): int {
    (ms + MINUTE / 2) / MINUTE
  }

  /** The formatter shows whole seconds, and the difference to the instant is rounded to minutes. */
  function OffsetMinutesAt(z: Zone, instant: int): int {
    var asUtc := Display(z, instant) / 1000 * 1000;
    RoundToMinutes(asUtc - instant)
  }

  lemma OffsetIsRead(z: Zone, t: int)
    ensures OffsetMinutesAt(z, t) == OffsetAt(z, t)
  {
    var shown := Display(z, t);
    assert shown - 999 <= shown / 1000 * 1000 <= shown;
  }

  /** A wall clock, read as UTC, becomes an instant: a guess and two corrections. */
  method WallToInstant(z: Zone, guess: int) returns (instant: int)
    ensures instant == ToInstant(z, guess)
  {
    instant := guess - OffsetMinutesAt(z, guess) * MINUTE;
    var secondOffset := OffsetMinutesAt(z, instant);
    instant := guess - secondOffset * MINUTE;
  }

  /** `minutes` earlier. */
  function Back(ms: int, minutes: int): int {
    ms - minutes * MINUTE
  }

  function FirstEstimate(z: Zone, guess: int): int {
    Back(guess, OffsetMinutesAt(z, guess))
  }

  function ToInstant(z: Zone, guess: int): int {
    Back(guess, OffsetMinutesAt(z, FirstEstimate(z, guess)))
  }

  /** The wall clock shown in a date input, which stops at the minute. */
  function ToWall(z: Zone, instant: int): int {
    Display(z, instant) / MINUTE * MINUTE
  }

  /** It is what the zone's clock shows, without the seconds. */
  lemma WallIsMinute(z: Zone, instant: int)
    ensures ToWall(z, instant) % MINUTE == 0
    ensures ToWall(z, instant) <= Display(z, instant) < ToWall(z, instant) + 60000
  {
  }

  // ----- Zones whose transitions are far apart -----

  predicate OffsetsWithin(z: Zone, lo: int, hi: int) {
    && lo <= z.initial <= hi
    && forall i :: 0 <= i < |z.transitions| ==> lo <= z.transitions[i].offset <= hi
  }

  /** Between any two transitions lies more than `gap`. */
  ghost predicate FurtherApart(ts: seq<Transition>, gap: int) {
    forall i, j :: 0 <= i < j < |ts| ==> ts[j].at - ts[i].at > gap
  }

  /** The spread of the offsets together with UTC itself. */
  function Reach(lo: int, hi: int): int {
    (Max(hi, 0) - Min(lo, 0)) * MINUTE
  }

  /** Offsets between `lo` and `hi` minutes, and transitions further apart than the spread of those. */
  ghost predicate SpreadSpaced(z: Zone, lo: int, hi: int) {
    lo <= hi && OffsetsWithin(z, lo, hi) && FurtherApart(z.transitions, (hi - lo) * MINUTE)
  }

  /** Offsets between `lo` and `hi` minutes, and transitions further apart than the reach of those. */
  ghost predicate WellSpaced(z: Zone, lo: int, hi: int) {
    lo <= hi && OffsetsWithin(z, lo, hi) && FurtherApart(z.transitions, Reach(lo, hi))
  }

  lemma WellSpacedIsSpreadSpaced(z: Zone, lo: int, hi: int)
    requires WellSpaced(z, lo, hi)
    ensures SpreadSpaced(z, lo, hi)
  {
    assert (hi - lo) * MINUTE <= Reach(lo, hi);
  }

  lemma {:induction false} RegimeSplits(ts: seq<Transition>, t: int)
    requires Sorted(ts)
    ensures var r := Regime(ts, t);
      && (forall i :: 0 <= i < r ==> ts[i].at <= t)
      && (forall i :: r <= i < |ts| ==> t < ts[i].at)
    decreases |ts|
  {
    if ts != [] && t < ts[|ts| - 1].at {
      RegimeSplits(ts[..|ts| - 1], t);
    }
  }

  lemma OffsetBounds(z: Zone, lo: int, hi: int, t: int)
    requires OffsetsWithin(z, lo, hi)
    ensures lo <= OffsetAt(z, t) <= hi
  {
  }

  /** Around a transition in a window no longer than `gap`, nothing else changes the offset. */
  lemma RegimeAround(z: Zone, gap: int, a: int, i: nat, t: int)
    requires FurtherApart(z.transitions, gap) && i < |z.transitions|
    requires a <= z.transitions[i].at <= a + gap && a <= t <= a + gap
    ensures Regime(z.transitions, t) == if t < z.transitions[i].at then i else i + 1
  {
    var ts := z.transitions;
    RegimeSplits(ts, t);
    var r := Regime(ts, t);
    assert 0 < r ==> ts[r - 1].at <= t;
    assert r < |ts| ==> t < ts[r].at;
  }

  lemma TransitionBetween(z: Zone, t: int, u: int) returns (i: nat)
    requires Sorted(z.transitions) && OffsetAt(z, t) != OffsetAt(z, u)
    ensures i < |z.transitions| && Min(t, u) < z.transitions[i].at <= Max(t, u)
  {
    RegimeSplits(z.transitions, t);
    RegimeSplits(z.transitions, u);
    i := Regime(z.transitions, Min(t, u));
  }

  // ----- Where the conversion is right -----

  /** In any zone, the result is right exactly when a third correction would change nothing. */
  lemma RightIffThirdPassAgrees(z: Zone, guess: int)
    ensures var instant := ToInstant(z, guess);
      Display(z, instant) == guess <==> guess - OffsetMinutesAt(z, instant) * MINUTE == instant
  {
    OffsetIsRead(z, ToInstant(z, guess));
  }

  /**
   The first estimate falls on the wrong side of transition `i`: before it, though the wall
   clock read with the earlier offset comes after it, or after it, though the wall clock
   read with the later offset comes before it.
   */
  ghost predicate MisjudgedAt(z: Zone, guess: int, i: nat)
    requires i < |z.transitions|
  {
    var at, before, after := z.transitions[i].at, OffsetIn(z, i), OffsetIn(z, i + 1);
    var first := guess - OffsetAt(z, guess) * MINUTE;
    && before != after
    && (first < at <= guess - before * MINUTE || guess - after * MINUTE < at <= first)
  }

  ghost predicate Misjudged(z: Zone, guess: int) {
    exists i: nat :: i < |z.transitions| && MisjudgedAt(z, guess, i)
  }

  /**
   With transitions further apart than the spread of the offsets and no more, the result is
   right, for occurring and for skipped wall clocks alike, exactly when the first estimate
   falls on the right side of every transition.
   */
  lemma RightIffNotMisjudged(z: Zone, lo: int, hi: int, guess: int)
    requires SpreadSpaced(z, lo, hi)
    ensures Display(z, ToInstant(z, guess)) == guess <==> !Misjudged(z, guess)
  {
    var ts, gap, a := z.transitions, (hi - lo) * MINUTE, guess - hi * MINUTE;
    var first, second := FirstEstimate(z, guess), ToInstant(z, guess);
    OffsetIsRead(z, guess);
    OffsetIsRead(z, first);
    OffsetBounds(z, lo, hi, guess);
    OffsetBounds(z, lo, hi, first);
    if Display(z, second) == guess {
      forall i: nat | i < |ts| && MisjudgedAt(z, guess, i) ensures false {
        RegimeAround(z, gap, a, i, first);
        RegimeAround(z, gap, a, i, second);
      }
    } else {
      var i := TransitionBetween(z, first, second);
      RegimeAround(z, gap, a, i, first);
      RegimeAround(z, gap, a, i, second);
      assert MisjudgedAt(z, guess, i);
    }
  }

  /**
   Transitions further apart than the spread of the offsets alone are not enough: the guess may
   lie past another one.
   */
  lemma SpreadAloneIsNotEnough()
    ensures var z := Zone(720, [Transition(0, 660), Transition(180 * MINUTE, 780)]);
      var guess := 750 * MINUTE;
      && OffsetsWithin(z, 660, 780) && FurtherApart(z.transitions, (780 - 660) * MINUTE)
      && Display(z, 90 * MINUTE) == guess
      && Display(z, ToInstant(z, guess)) == guess - 60 * MINUTE
  {
    var z := Zone(720, [Transition(0, 660), Transition(180 * MINUTE, 780)]);
    var guess := 750 * MINUTE;
    OffsetIsRead(z, guess);
    OffsetIsRead(z, -30 * MINUTE);
    RegimeSplits(z.transitions, -30 * MINUTE);
    RegimeSplits(z.transitions, 30 * MINUTE);
    RegimeSplits(z.transitions, 90 * MINUTE);
    RegimeSplits(z.transitions, guess);
    assert z.transitions[0].at == 0 && z.transitions[1].at == 180 * MINUTE;
    assert OffsetAt(z, -30 * MINUTE) == 720;
    assert OffsetAt(z, 30 * MINUTE) == 660 && OffsetAt(z, 90 * MINUTE) == 660;
  }

  /** Where both passes look, when UTC lies among the offsets. */
  predicate InReach(lo: int, hi: int, guess: int, t: int) {
    guess - Max(hi, 0) * MINUTE <= t <= guess - Min(lo, 0) * MINUTE
  }

  /** In a window no longer than `gap`, at most one transition happens. */
  lemma OneTransitionInWindow(z: Zone, gap: int, a: int, b: int) returns (at: int, before: int, after: int)
    requires FurtherApart(z.transitions, gap) && a <= b <= a + gap
    ensures forall t :: a <= t <= b ==> OffsetAt(z, t) == if t < at then before else after
  {
    var ts := z.transitions;
    var r := Regime(ts, a);
    RegimeSplits(ts, a);
    RegimeSplits(ts, b);
    before := OffsetIn(z, r);
    if Regime(ts, b) <= r {
      at, after := b + 1, before;
      forall t | a <= t <= b ensures OffsetAt(z, t) == before {
        RegimeSplits(ts, t);
      }
    } else {
      at, after := ts[r].at, OffsetIn(z, r + 1);
      forall t | a <= t <= b ensures OffsetAt(z, t) == if t < at then before else after {
        RegimeSplits(ts, t);
        assert r + 1 < |ts| ==> ts[r + 1].at - ts[r].at > gap;
      }
    }
  }

  /** Every wall clock that occurs in the zone converts to an instant that shows it. */
  lemma OccurringWallConverts(z: Zone, lo: int, hi: int, guess: int, t: int)
    requires WellSpaced(z, lo, hi) && Display(z, t) == guess
    ensures Display(z, ToInstant(z, guess)) == guess
  {
    var at, before, after :=
      OneTransitionInWindow(z, Reach(lo, hi), guess - Max(hi, 0) * MINUTE, guess - Min(lo, 0) * MINUTE);
    var first, second := FirstEstimate(z, guess), ToInstant(z, guess);
    OffsetIsRead(z, guess);
    OffsetIsRead(z, first);
    OffsetBounds(z, lo, hi, guess);
    OffsetBounds(z, lo, hi, first);
    OffsetBounds(z, lo, hi, t);
    assert InReach(lo, hi, guess, guess) && InReach(lo, hi, guess, first) && InReach(lo, hi, guess, t);
  }

  // ----- Gaps -----

  /** No instant shows this wall clock: a transition skipped it. */
  ghost predicate Skipped(z: Zone, guess: int) {
    forall t :: Display(z, t) != guess
  }

  /** The wall clock lies in the gap of transition `i`, which moves clocks forward by `length` minutes. */
  ghost predicate InGap(z: Zone, guess: int, i: nat, length: int)
    requires i < |z.transitions|
  {
    var at, before, after := z.transitions[i].at, OffsetIn(z, i), OffsetIn(z, i + 1);
    length == after - before > 0 && at + before * MINUTE <= guess < at + after * MINUTE
  }

  /**
   A skipped wall clock lies in the gap of one transition, and converts to an instant that
   shows a time off by exactly the length of the gap: later when the first estimate falls
   before the transition, earlier when it falls after.
   */
  lemma SkippedWallIsOffByGap(z: Zone, lo: int, hi: int, guess: int) returns (i: nat, length: int)
    requires SpreadSpaced(z, lo, hi) && Skipped(z, guess)
    ensures i < |z.transitions| && InGap(z, guess, i, length)
    ensures Display(z, ToInstant(z, guess)) - guess
         == (if FirstEstimate(z, guess) < z.transitions[i].at then length else -length) * MINUTE
  {
    var gap, a := (hi - lo) * MINUTE, guess - hi * MINUTE;
    var first, second := FirstEstimate(z, guess), ToInstant(z, guess);
    OffsetIsRead(z, guess);
    OffsetIsRead(z, first);
    OffsetBounds(z, lo, hi, guess);
    OffsetBounds(z, lo, hi, first);
    OffsetBounds(z, lo, hi, second);
    assert Display(z, second) != guess;
    i := TransitionBetween(z, first, second);
    RegimeAround(z, gap, a, i, first);
    RegimeAround(z, gap, a, i, second);
    var other := guess - OffsetAt(z, second) * MINUTE;
    RegimeAround(z, gap, a, i, other);
    assert Display(z, other) != guess;
    length := OffsetIn(z, i + 1) - OffsetIn(z, i);
  }

  /** With UTC among the offsets it is the guess that decides: earlier when it falls before the transition. */
  lemma SkippedWallFollowsGuess(z: Zone, lo: int, hi: int, guess: int) returns (i: nat, length: int)
    requires WellSpaced(z, lo, hi) && Skipped(z, guess)
    ensures i < |z.transitions| && InGap(z, guess, i, length)
    ensures Display(z, ToInstant(z, guess)) - guess
         == (if guess < z.transitions[i].at then -length else length) * MINUTE
  {
    WellSpacedIsSpreadSpaced(z, lo, hi);
    i, length := SkippedWallIsOffByGap(z, lo, hi, guess);
    OffsetIsRead(z, guess);
    GapEndsBound(z, lo, hi, i);
    RegimeAround(z, Reach(lo, hi), guess - Max(hi, 0) * MINUTE, i, guess);
  }

  lemma GapEndsBound(z: Zone, lo: int, hi: int, i: nat)
    requires OffsetsWithin(z, lo, hi) && i < |z.transitions|
    ensures lo <= OffsetIn(z, i) <= hi && lo <= OffsetIn(z, i + 1) <= hi
  {
  }

  // ----- Overlaps -----

  /** Transition `i` moves clocks back between the two instants, by as much as lies between them. */
  ghost predicate OverlapsAt(z: Zone, t: int, u: int, i: nat)
    requires i < |z.transitions|
  {
    && Min(t, u) < z.transitions[i].at <= Max(t, u)
    && Max(t, u) - Min(t, u) == (OffsetIn(z, i) - OffsetIn(z, i + 1)) * MINUTE > 0
  }

  /** Two different instants show the same wall clock across a transition that moves clocks back. */
  ghost predicate Overlaps(z: Zone, t: int, u: int) {
    exists i: nat :: i < |z.transitions| && OverlapsAt(z, t, u, i)
  }

  /** Only an overlap makes two instants show the same wall clock. */
  lemma SameWallOverlaps(z: Zone, lo: int, hi: int, t: int, u: int)
    requires SpreadSpaced(z, lo, hi) && t != u && Display(z, t) == Display(z, u)
    ensures Overlaps(z, t, u)
  {
    var gap, a := (hi - lo) * MINUTE, Display(z, t) - hi * MINUTE;
    OffsetBounds(z, lo, hi, t);
    OffsetBounds(z, lo, hi, u);
    var i := TransitionBetween(z, t, u);
    RegimeAround(z, gap, a, i, t);
    RegimeAround(z, gap, a, i, u);
    assert OverlapsAt(z, t, u, i);
  }

  lemma WholeMinutes(t: int, offset: int)
    requires t % MINUTE == 0
    ensures (t + offset * MINUTE) % MINUTE == 0 && (t - offset * MINUTE) % MINUTE == 0
    ensures (t + offset * MINUTE) / MINUTE * MINUTE == t + offset * MINUTE
  {
    var minutes := t / 60000;
    assert t + offset * MINUTE == (minutes + offset) * 60000;
    assert t - offset * MINUTE == (minutes - offset) * 60000;
  }

  /**
   To wall clock and back shows the same wall clock exactly when the first estimate falls on the
   right side of every transition, and then gives the instant itself, or its twin across an overlap.
   */
  lemma RoundTripIffNotMisjudged(z: Zone, lo: int, hi: int, t: int)
    requires SpreadSpaced(z, lo, hi) && t % MINUTE == 0
    ensures var guess := ToWall(z, t);
      var u := ToInstant(z, guess);
      && u % MINUTE == 0
      && (ToWall(z, u) == guess <==> !Misjudged(z, guess))
      && (!Misjudged(z, guess) ==> u == t || Overlaps(z, t, u))
  {
    var guess := ToWall(z, t);
    WholeMinutes(t, OffsetAt(z, t));
    assert guess == Display(z, t);
    var u := ToInstant(z, guess);
    RightIffNotMisjudged(z, lo, hi, guess);
    WholeMinutes(guess, OffsetMinutesAt(z, FirstEstimate(z, guess)));
    WholeMinutes(u, OffsetAt(z, u));
    if u != t && Display(z, u) == guess {
      SameWallOverlaps(z, lo, hi, t, u);
    }
  }

  /** With UTC among the offsets it always is the instant itself, or its twin. */
  lemma RoundTrip(z: Zone, lo: int, hi: int, t: int)
    requires WellSpaced(z, lo, hi) && t % MINUTE == 0
    ensures var u := ToInstant(z, ToWall(z, t));
      && ToWall(z, u) == ToWall(z, t) && u % MINUTE == 0
      && (u == t || Overlaps(z, t, u))
  {
    WellSpacedIsSpreadSpaced(z, lo, hi);
    WholeMinutes(t, OffsetAt(z, t));
    OccurringWallConverts(z, lo, hi, ToWall(z, t), t);
    RightIffNotMisjudged(z, lo, hi, ToWall(z, t));
    RoundTripIffNotMisjudged(z, lo, hi, t);
  }
}
