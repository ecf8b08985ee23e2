/** The camera watch of an exam: one call a frame, with a face check, an object check or neither. */
module Proctoring {
  import opened Wrappers

  datatype Violation = NoFace | MultipleFaces | HeadTurn | PhoneDetected

  /**
   One frame, at `now` ms. `sized`: the video has a size. `faces`: how many the face model
   sees, `turned`: the one it sees looks aside, `phone`: the object model sees a phone; a model
   that is not loaded gives None.
   */
  datatype Frame = Frame(now: real, sized: bool, faces: Option<nat>, turned: bool, phone: Option<bool>)

  datatype Refs = Refs(
    lastFaceCheck: real, lastObjectCheck: real,
    noFaceStart: Option<real>, lastNoFaceWarning: real,
    multiFaceCount: nat,
    headTurnStart: Option<real>, headTurnWarned: bool,
    lastPhoneDetected: real)

  function Fresh(): Refs {
    Refs(0.0, 0.0, None, 0.0, 0, None, false, 0.0)
  }

  /** A start time that is missing, or zero. */
  predicate Unset(start: Option<real>) {
    start.None? || start.value == 0.0
  }

  function CheckNoFace(d: Refs, now: real): (Refs, Option<Violation>) {
    if Unset(d.noFaceStart) then (d.(noFaceStart := Some(now)), None)
    else if now - d.noFaceStart.value > 5000.0 && now - d.lastNoFaceWarning > 10000.0 then
      (d.(lastNoFaceWarning := now), Some(NoFace))
    else (d, None)
  }

  function CheckManyFaces(d: Refs, now: real): (Refs, Option<Violation>) {
    var counted := d.(multiFaceCount := d.multiFaceCount + 1);
    if counted.multiFaceCount > 5 && now - d.lastPhoneDetected > 5000.0 then
      (counted.(multiFaceCount := 0), Some(MultipleFaces))
    else (counted, None)
  }

  function CheckHead(d: Refs, now: real, turned: bool): (Refs, Option<Violation>) {
    if !turned then (d.(headTurnStart := None, headTurnWarned := false), None)
    else if Unset(d.headTurnStart) then (d.(headTurnStart := Some(now)), None)
    else if now - d.headTurnStart.value > 20000.0 && !d.headTurnWarned then
      (d.(headTurnWarned := true), Some(HeadTurn))
    else (d, None)
  }

  function CheckFaces(d: Refs, now: real, faces: nat, turned: bool): (Refs, Option<Violation>) {
    if faces == 0 then CheckNoFace(d.(multiFaceCount := 0), now)
    else if faces == 1 then CheckHead(d.(noFaceStart := None, multiFaceCount := 0), now, turned)
    else CheckManyFaces(d.(noFaceStart := None), now)
  }

  predicate FaceCheckDue(d: Refs, f: Frame) {
    f.sized && f.now - d.lastFaceCheck >= 600.0
  }

  predicate ObjectCheckDue(d: Refs, f: Frame) {
    f.sized && !FaceCheckDue(d, f) && f.now - d.lastObjectCheck >= 1200.0
  }

  function Step(d: Refs, f: Frame): (Refs, Option<Violation>) {
    if FaceCheckDue(d, f) then
      var checked := d.(lastFaceCheck := f.now);
      if f.faces.None? then (checked, None) else CheckFaces(checked, f.now, f.faces.value, f.turned)
    else if ObjectCheckDue(d, f) then
      var checked := d.(lastObjectCheck := f.now);
      if f.phone == Some(true) && f.now - d.lastPhoneDetected > 5000.0 then
        (checked.(lastPhoneDetected := f.now), Some(PhoneDetected))
      else (checked, None)
    else (d, None)
  }

  class Detector {
    var lastFaceCheck: real
    var lastObjectCheck: real
    var noFaceStart: Option<real>
    var lastNoFaceWarning: real
    var consecutiveMultiFace: nat
    var headTurnStart: Option<real>
    var headTurnWarned: bool
    var lastPhoneDetected: real
    ghost var history: seq<Moment>

    function View(): Refs
      reads this
    {
      Refs(lastFaceCheck, lastObjectCheck, noFaceStart, lastNoFaceWarning,
           consecutiveMultiFace, headTurnStart, headTurnWarned, lastPhoneDetected)
    }

    /** The history records every frame, and ends in the present state. */
    ghost predicate Valid()
      reads this
    {
      Recorded(history) && View() == At(history, |history|)
    }

    constructor ()
      ensures Valid() && history == []
    {
      lastFaceCheck, lastObjectCheck, lastPhoneDetected := 0.0, 0.0, 0.0;
      noFaceStart, lastNoFaceWarning := None, 0.0;
      consecutiveMultiFace := 0;
      headTurnStart, headTurnWarned := None, false;
      history := [];
    }

    method PredictWebcam(f: Frame) returns (report: Option<Violation>)
      requires Valid()
      modifies this
      ensures Valid()
      ensures (View(), report) == Step(old(View()), f)
      ensures history == old(history) + [Moment(f, old(View()), View(), report)]
    {
      report := None;
      if f.sized {
        var ranFaceInFrame := false;
        if f.now - lastFaceCheck >= 600.0 {
          lastFaceCheck := f.now;
          ranFaceInFrame := true;
          if f.faces.Some? {
            report := OnFaces(f.now, f.faces.value, f.turned);
          }
        }
        if !ranFaceInFrame && f.now - lastObjectCheck >= 1200.0 {
          lastObjectCheck := f.now;
          if f.phone == Some(true) && f.now - lastPhoneDetected > 5000.0 {
            lastPhoneDetected := f.now;
            report := Some(PhoneDetected);
          }
        }
      }
      history := history + [Moment(f, old(View()), View(), report)];
      assert forall i: nat :: i < |history| - 1 ==> Linked(old(history), i) ==> Linked(history, i);
    }

    method OnFaces(now: real, faces: nat, turned: bool) returns (report: Option<Violation>)
      modifies this
      ensures (View(), report) == CheckFaces(old(View()), now, faces, turned)
      ensures history == old(history)
    {
      report := None;
      if faces == 0 {
        if Unset(noFaceStart) {
          noFaceStart := Some(now);
        } else if now - noFaceStart.value > 5000.0 {
          if now - lastNoFaceWarning > 10000.0 {
            lastNoFaceWarning := now;
            report := Some(NoFace);
          }
        }
      } else {
        noFaceStart := None;
      }
      if faces > 1 {
        consecutiveMultiFace := consecutiveMultiFace + 1;
        if consecutiveMultiFace > 5 && now - lastPhoneDetected > 5000.0 {
          report := Some(MultipleFaces);
          consecutiveMultiFace := 0;
        }
      } else {
        consecutiveMultiFace := 0;
      }
      if faces == 1 {
        if !turned {
          headTurnStart, headTurnWarned := None, false;
        } else if Unset(headTurnStart) {
          headTurnStart := Some(now);
        } else if now - headTurnStart.value > 20000.0 && !headTurnWarned {
          headTurnWarned := true;
          report := Some(HeadTurn);
        }
      }
    }
  }

  // ----- Histories -----

  /** A frame with the state before and after it, and what it reported. */
  datatype Moment = Moment(frame: Frame, before: Refs, after: Refs, report: Option<Violation>)

  function At(h: seq<Moment>, n: nat): Refs
    requires n <= |h|
  {
    if n == 0 then Fresh() else h[n - 1].after
  }

  ghost predicate Linked(h: seq<Moment>, i: nat)
    requires i < |h|
  {
    h[i].before == At(h, i) && (h[i].after, h[i].report) == Step(h[i].before, h[i].frame)
  }

  /** `h` is a whole run from the start. */
  ghost predicate Recorded(h: seq<Moment>) {
    forall i: nat :: i < |h| ==> Linked(h, i)
  }

  function Now(h: seq<Moment>, i: nat): real
    requires i < |h|
  {
    h[i].frame.now
  }

  /** Time does not run backwards. */
  ghost predicate Chronological(h: seq<Moment>) {
    && (forall i: nat :: i < |h| ==> Now(h, i) >= 0.0)
    && (forall i: nat, j: nat :: i < j < |h| ==> Now(h, i) <= Now(h, j))
  }

  predicate FaceSlot(h: seq<Moment>, i: nat)
    requires i < |h|
  {
    FaceCheckDue(h[i].before, h[i].frame)
  }

  predicate ObjectSlot(h: seq<Moment>, i: nat)
    requires i < |h|
  {
    ObjectCheckDue(h[i].before, h[i].frame)
  }

  /** A face check with a loaded model. */
  predicate FaceCheck(h: seq<Moment>, i: nat)
    requires i < |h|
  {
    FaceSlot(h, i) && h[i].frame.faces.Some?
  }

  predicate Empty(h: seq<Moment>, i: nat)
    requires i < |h|
  {
    FaceCheck(h, i) && h[i].frame.faces.value == 0
  }

  predicate Crowded(h: seq<Moment>, i: nat)
    requires i < |h|
  {
    FaceCheck(h, i) && h[i].frame.faces.value > 1
  }

  predicate Aside(h: seq<Moment>, i: nat)
    requires i < |h|
  {
    FaceCheck(h, i) && h[i].frame.faces.value == 1 && h[i].frame.turned
  }

  predicate Frontal(h: seq<Moment>, i: nat)
    requires i < |h|
  {
    FaceCheck(h, i) && h[i].frame.faces.value == 1 && !h[i].frame.turned
  }

  predicate PhoneSeen(h: seq<Moment>, i: nat)
    requires i < |h|
  {
    ObjectSlot(h, i) && h[i].frame.phone == Some(true)
  }

  predicate Reports(h: seq<Moment>, i: nat, v: Violation)
    requires i < |h|
  {
    h[i].report == Some(v)
  }

  /** `v` was not reported in the `ms` before frame `i`; the watch itself counts as started with a report at 0. */
  ghost predicate Quiet(h: seq<Moment>, i: nat, v: Violation, ms: real)
    requires i < |h|
  {
    Now(h, i) > ms && forall k: nat :: k < i && Reports(h, k, v) ==> Now(h, i) - Now(h, k) > ms
  }

  // ----- Spacing of the checks -----

  lemma {:induction false} LastCheckTimes(h: seq<Moment>, n: nat)
    requires Recorded(h) && Chronological(h) && n <= |h|
    ensures At(h, n).lastFaceCheck >= 0.0 && At(h, n).lastObjectCheck >= 0.0
    ensures forall k: nat :: k < n && FaceSlot(h, k) ==> 600.0 <= Now(h, k) <= At(h, n).lastFaceCheck
    ensures forall k: nat :: k < n && ObjectSlot(h, k) ==> 1200.0 <= Now(h, k) <= At(h, n).lastObjectCheck
    ensures At(h, n).lastFaceCheck > 0.0 ==>
      exists k: nat :: k < n && FaceSlot(h, k) && Now(h, k) == At(h, n).lastFaceCheck
    ensures At(h, n).lastObjectCheck > 0.0
      ==> exists k: nat :: k < n && ObjectSlot(h, k) && Now(h, k) == At(h, n).lastObjectCheck
  {
    if n > 0 {
      var i := n - 1;
      LastCheckTimes(h, i);
      assert Linked(h, i);
      assert At(h, n).lastFaceCheck == if FaceSlot(h, i) then Now(h, i) else At(h, i).lastFaceCheck;
      assert At(h, n).lastObjectCheck == if ObjectSlot(h, i) then Now(h, i) else At(h, i).lastObjectCheck;
    }
  }

  /**
   Face checks run on exactly the frames with a picture that come 600 ms or more after every
   earlier one, object checks on the other frames that come 1200 ms or more after every earlier one.
   */
  lemma ChecksAreSpaced(h: seq<Moment>, i: nat)
    requires Recorded(h) && Chronological(h) && i < |h|
    ensures FaceSlot(h, i) <==>
      && h[i].frame.sized && Now(h, i) >= 600.0
      && forall k: nat :: k < i && FaceSlot(h, k) ==> Now(h, i) - Now(h, k) >= 600.0
    ensures ObjectSlot(h, i) <==>
      && h[i].frame.sized && !FaceSlot(h, i) && Now(h, i) >= 1200.0
      && forall k: nat :: k < i && ObjectSlot(h, k) ==> Now(h, i) - Now(h, k) >= 1200.0
  {
    LastCheckTimes(h, i);
    assert Linked(h, i);
  }

  // ----- No face -----

  /** Every face check from frame `j` up to frame `n` saw no face. */
  ghost predicate EmptySince(h: seq<Moment>, j: nat, n: nat)
    requires n <= |h|
  {
    forall k: nat :: j <= k < n && FaceCheck(h, k) ==> Empty(h, k)
  }

  ghost predicate EmptyFrom(h: seq<Moment>, n: nat, start: real)
    requires n <= |h|
  {
    start > 0.0 && exists j: nat :: j < n && Empty(h, j) && Now(h, j) == start && EmptySince(h, j, n)
  }

  predicate StartedBy(start: Option<real>, time: real) {
    start.Some? && start.value <= time
  }

  /** The start time is set to that of the first frame of the present run of empty checks, if there is one. */
  ghost predicate EmptyRunKept(h: seq<Moment>, n: nat)
    requires n <= |h|
  {
    var start := At(h, n).noFaceStart;
    && (start.Some? ==> EmptyFrom(h, n, start.value))
    && (forall j: nat :: j < n && Empty(h, j) && EmptySince(h, j, n) ==> StartedBy(start, Now(h, j)))
  }

  lemma {:induction false} EmptyRunIsKept(h: seq<Moment>, n: nat)
    requires Recorded(h) && Chronological(h) && n <= |h|
    ensures EmptyRunKept(h, n)
  {
    if n > 0 {
      var i := n - 1;
      assert Linked(h, i);
      EmptyRunIsKept(h, i);
      LastCheckTimes(h, n);
      var start, next := At(h, i).noFaceStart, At(h, n).noFaceStart;
      forall j: nat | j < n ensures EmptySince(h, j, n) <==> EmptySince(h, j, i) && (FaceCheck(h, i) ==> Empty(h, i)) {
      }
      if !FaceCheck(h, i) {
        assert next == start && !Empty(h, i);
      } else if Empty(h, i) {
        assert next == if Unset(start) then Some(Now(h, i)) else start;
      } else {
        assert next == None;
      }
      if next.Some? && next == start {
        var j: nat :| j < i && Empty(h, j) && Now(h, j) == start.value && EmptySince(h, j, i);
        assert EmptySince(h, j, n);
      }
    }
  }

  /** `at` is when `v` was last reported, or 0. */
  ghost predicate LastReport(h: seq<Moment>, n: nat, v: Violation, at: real)
    requires n <= |h|
  {
    && (forall k: nat :: k < n && Reports(h, k, v) ==> Now(h, k) <= at)
    && (at == 0.0 || exists k: nat :: k < n && Reports(h, k, v) && Now(h, k) == at)
  }

  lemma ReportIsNoted(h: seq<Moment>, i: nat, v: Violation, at: real)
    requires Chronological(h) && i < |h| && LastReport(h, i, v, at)
    ensures LastReport(h, i + 1, v, if Reports(h, i, v) then Now(h, i) else at)
  {
    if !Reports(h, i, v) && at != 0.0 {
      var k: nat :| k < i && Reports(h, k, v) && Now(h, k) == at;
    }
  }

  lemma ReportIsTimed(d: Refs, f: Frame)
    ensures var (next, report) := Step(d, f);
      && next.lastNoFaceWarning == (if report == Some(NoFace) then f.now else d.lastNoFaceWarning)
      && next.lastPhoneDetected == (if report == Some(PhoneDetected) then f.now else d.lastPhoneDetected)
  {
  }

  lemma {:induction false} ReportTimesAreKept(h: seq<Moment>, n: nat)
    requires Recorded(h) && Chronological(h) && n <= |h|
    ensures LastReport(h, n, NoFace, At(h, n).lastNoFaceWarning)
    ensures LastReport(h, n, PhoneDetected, At(h, n).lastPhoneDetected)
  {
    if n > 0 {
      var i := n - 1;
      assert Linked(h, i);
      ReportTimesAreKept(h, i);
      ReportIsTimed(h[i].before, h[i].frame);
      ReportIsNoted(h, i, NoFace, At(h, i).lastNoFaceWarning);
      ReportIsNoted(h, i, PhoneDetected, At(h, i).lastPhoneDetected);
    }
  }

  /**
   No-face is reported at exactly these frames: an empty face check that ends an unbroken run
   of empty ones longer than 5 s, with no such report in the last 10 s.
   */
  lemma NoFaceReported(h: seq<Moment>, i: nat)
    requires Recorded(h) && Chronological(h) && i < |h|
    ensures Reports(h, i, NoFace) <==>
      && Empty(h, i) && Quiet(h, i, NoFace, 10000.0)
      && exists j: nat :: j < i && Empty(h, j) && EmptySince(h, j, i) && Now(h, i) - Now(h, j) > 5000.0
  {
    assert Linked(h, i);
    EmptyRunIsKept(h, i);
    ReportTimesAreKept(h, i);
    LastCheckTimes(h, i);
  }

  // ----- Phones -----

  /** A phone is noted at exactly these frames: an object check that sees one, with none noted in the last 5 s. */
  lemma PhoneReported(h: seq<Moment>, i: nat)
    requires Recorded(h) && Chronological(h) && i < |h|
    ensures Reports(h, i, PhoneDetected) <==> PhoneSeen(h, i) && Quiet(h, i, PhoneDetected, 5000.0)
  {
    assert Linked(h, i);
    ReportTimesAreKept(h, i);
  }

  // ----- Several faces -----

  /** The crowded checks before frame `n` since which every check was crowded and none was reported. */
  ghost function CrowdedRun(h: seq<Moment>, n: nat): set<nat>
    requires n <= |h|
  {
    set j: nat | j < n && Crowded(h, j) && CrowdedSince(h, j, n)
  }

  ghost predicate CrowdedSince(h: seq<Moment>, j: nat, n: nat)
    requires n <= |h|
  {
    forall k: nat :: j <= k < n && FaceCheck(h, k) ==> Crowded(h, k) && !Reports(h, k, MultipleFaces)
  }

  lemma CrowdedRunNext(h: seq<Moment>, i: nat)
    requires i < |h|
    ensures CrowdedRun(h, i + 1) ==
      if !FaceCheck(h, i) then CrowdedRun(h, i)
      else if Crowded(h, i) && !Reports(h, i, MultipleFaces) then CrowdedRun(h, i) + {i}
      else {}
  {
    forall j: nat | j <= i ensures CrowdedSince(h, j, i + 1) <==>
        CrowdedSince(h, j, i) && (FaceCheck(h, i) ==> Crowded(h, i) && !Reports(h, i, MultipleFaces)) {
    }
  }

  lemma CountNext(d: Refs, f: Frame)
    ensures Step(d, f).0.multiFaceCount ==
      if !FaceCheckDue(d, f) || f.faces.None? then d.multiFaceCount
      else if f.faces.value > 1 && Step(d, f).1 != Some(MultipleFaces) then d.multiFaceCount + 1
      else 0
  {
  }

  lemma {:induction false} CrowdIsCounted(h: seq<Moment>, n: nat)
    requires Recorded(h) && n <= |h|
    ensures At(h, n).multiFaceCount == |CrowdedRun(h, n)|
  {
    if n > 0 {
      var i := n - 1;
      assert Linked(h, i);
      CrowdIsCounted(h, i);
      CrowdedRunNext(h, i);
      CountNext(h[i].before, h[i].frame);
      assert i !in CrowdedRun(h, i);
    }
  }

  /**
   Several faces are reported at exactly these frames: a crowded check after five others or
   more with no other check and no such report between, and no phone noted in the last 5 s.
   */
  lemma MultipleFacesReported(h: seq<Moment>, i: nat)
    requires Recorded(h) && Chronological(h) && i < |h|
    ensures Reports(h, i, MultipleFaces) <==>
      Crowded(h, i) && |CrowdedRun(h, i)| >= 5 && Quiet(h, i, PhoneDetected, 5000.0)
  {
    CrowdIsCounted(h, i);
    assert Linked(h, i);
    ReportTimesAreKept(h, i);
  }

  lemma {:induction false} Latest(s: set<nat>) returns (m: nat)
    requires s != {}
    ensures m in s && forall x :: x in s ==> x <= m
  {
    var x :| x in s;
    var rest := s - {x};
    assert s == {x} + rest;
    if rest == {} {
      m := x;
    } else {
      var y := Latest(rest);
      m := if x < y then y else x;
    }
  }

  /** Face checks strictly between two others take 600 ms each. */
  lemma {:induction false} ChecksTakeTime(h: seq<Moment>, lo: nat, between: set<nat>, hi: nat)
    requires Recorded(h) && Chronological(h) && lo < hi < |h| && FaceSlot(h, lo) && FaceSlot(h, hi)
    requires forall k :: k in between ==> lo < k < hi && FaceSlot(h, k)
    ensures Now(h, hi) - Now(h, lo) >= 600.0 * (|between| + 1) as real
    decreases hi
  {
    if between == {} {
      ChecksAreSpaced(h, hi);
    } else {
      var m := Latest(between);
      ChecksTakeTime(h, lo, between - {m}, m);
      ChecksAreSpaced(h, hi);
    }
  }

  /** Two reports of several faces are at least 3.6 s apart. */
  lemma MultipleFacesApart(h: seq<Moment>, i: nat, j: nat)
    requires Recorded(h) && Chronological(h) && i < j < |h|
    requires Reports(h, i, MultipleFaces) && Reports(h, j, MultipleFaces)
    ensures Now(h, j) - Now(h, i) >= 3600.0
  {
    MultipleFacesReported(h, i);
    MultipleFacesReported(h, j);
    ChecksTakeTime(h, i, CrowdedRun(h, j), j);
  }

  // ----- Turned heads -----

  ghost predicate NoFrontalSince(h: seq<Moment>, j: nat, n: nat)
    requires n <= |h|
  {
    forall k: nat :: j <= k < n ==> !Frontal(h, k)
  }

  ghost predicate TurnedFrom(h: seq<Moment>, n: nat, start: real)
    requires n <= |h|
  {
    start > 0.0 && exists j: nat :: j < n && Aside(h, j) && Now(h, j) == start && NoFrontalSince(h, j, n)
  }

  /** The start time is set to that of the first turned check since the last frontal one, if there is one. */
  ghost predicate TurnKept(h: seq<Moment>, n: nat)
    requires n <= |h|
  {
    var start := At(h, n).headTurnStart;
    && (start.Some? ==> TurnedFrom(h, n, start.value))
    && (forall j: nat :: j < n && Aside(h, j) && NoFrontalSince(h, j, n) ==> StartedBy(start, Now(h, j)))
  }

  lemma {:induction false} TurnIsKept(h: seq<Moment>, n: nat)
    requires Recorded(h) && Chronological(h) && n <= |h|
    ensures TurnKept(h, n)
  {
    if n > 0 {
      var i := n - 1;
      assert Linked(h, i);
      TurnIsKept(h, i);
      LastCheckTimes(h, n);
      var start, next := At(h, i).headTurnStart, At(h, n).headTurnStart;
      forall j: nat | j < n ensures NoFrontalSince(h, j, n) <==> NoFrontalSince(h, j, i) && !Frontal(h, i) {
      }
      if Frontal(h, i) {
        assert next == None;
      } else {
        assert next == if Aside(h, i) && Unset(start) then Some(Now(h, i)) else start;
      }
      if next.Some? && next == start {
        var j: nat :| j < i && Aside(h, j) && Now(h, j) == start.value && NoFrontalSince(h, j, i);
        assert NoFrontalSince(h, j, n);
      }
    }
  }

  /** A turned head was reported since the last frontal check. */
  ghost predicate Warned(h: seq<Moment>, n: nat)
    requires n <= |h|
  {
    exists k: nat :: k < n && Reports(h, k, HeadTurn) && NoFrontalSince(h, k, n)
  }

  lemma {:induction false} WarningIsKept(h: seq<Moment>, n: nat)
    requires Recorded(h) && n <= |h|
    ensures At(h, n).headTurnWarned <==> Warned(h, n)
  {
    if n > 0 {
      var i := n - 1;
      assert Linked(h, i);
      WarningIsKept(h, i);
      forall j: nat | j < n ensures NoFrontalSince(h, j, n) <==> NoFrontalSince(h, j, i) && !Frontal(h, i) {
      }
      assert At(h, n).headTurnWarned <==> !Frontal(h, i) && (At(h, i).headTurnWarned || Reports(h, i, HeadTurn));
      if At(h, i).headTurnWarned && !Frontal(h, i) {
        var k: nat :| k < i && Reports(h, k, HeadTurn) && NoFrontalSince(h, k, i);
        assert NoFrontalSince(h, k, n);
      }
    }
  }

  /**
   A turned head is reported at exactly these frames: a check that sees it turned, more than
   20 s after one that did, with no frontal check between and no report since the last frontal one.
   */
  lemma HeadTurnReported(h: seq<Moment>, i: nat)
    requires Recorded(h) && Chronological(h) && i < |h|
    ensures Reports(h, i, HeadTurn) <==>
      && Aside(h, i)
      && (exists j: nat :: j < i && Aside(h, j) && NoFrontalSince(h, j, i) && Now(h, i) - Now(h, j) > 20000.0)
      && !Warned(h, i)
  {
    assert Linked(h, i);
    TurnIsKept(h, i);
    WarningIsKept(h, i);
  }
}
