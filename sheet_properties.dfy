/**
 What the bottom sheet's entry points promise, proved about the transition
 functions of SheetModel: the layout refresh, the clamp of `.changed`, the
 bookkeeping of `.began`, the flick/settle decision of `.ended`, the early
 return without a constraint, and the invariants kept across whole sessions.
 */
module SheetProperties {
  import opened Wrappers
  import opened NearestStop
  import opened SheetModel

  /** `abs(translation.y + topConstraint.constant)`, the magnitude every phase
      of the pan handler works with. */
  function EndOffset(s: Sheet, translationY: real): real
    requires s.topConstraint.Some?
  {
    Abs(translationY + s.topConstraint.value.constant)
  }

  /** `translationDelta`: net travel since `.began`. */
  function Travelled(s: Sheet, translationY: real): real
    requires s.topConstraint.Some?
  {
    Abs(EndOffset(s, translationY) - s.startPanTranslation)
  }

  /** The sheet sits between its peek height and its full height. */
  predicate InRange(s: Sheet)
  {
    s.topConstraint.Some? && s.peekHeight <= Abs(s.topConstraint.value.constant) <= s.sheetHeight
  }

  /** The constant is the (negated) stop that `currentPosition` names. */
  predicate Settled(s: Sheet)
    requires PositionInRange(s)
  {
    s.stopPositions != [] ==> s.topConstraint == Some(Constraint(-s.stopPositions[s.currentPosition]))
  }

  // ----- Layout refresh ---------------------------------------------------

  /** `viewDidLayoutSubviews` recomputes the stops from the peek height and the
      new height, and moves nothing. */
  lemma LayoutRefreshesStops(s: Sheet, height: real)
    requires Valid(s)
    ensures var r := LayoutChanged(s, height);
      && r.stopPositions == [s.peekHeight, height]
      && r.sheetHeight == height
      && r.topConstraint == s.topConstraint
      && r.currentPosition == s.currentPosition
      && r.startPanTranslation == s.startPanTranslation
      && r.peekHeight == s.peekHeight
  {
  }

  /** Any number of layout passes keeps `currentPosition` an index of the
      stops and leaves the constant where it was. */
  lemma {:induction false} LayoutPassesAreMotionFree(s: Sheet, events: seq<Event>)
    requires Valid(s)
    requires forall i :: 0 <= i < |events| ==> events[i].LayoutPass?
    ensures var r := Run(s, events);
      && r.next.topConstraint == s.topConstraint
      && r.next.currentPosition == s.currentPosition
      && r.effects == []
      && (events != [] ==> r.next.stopPositions == [s.peekHeight, events[|events| - 1].height])
      && (events != [] ==> 0 <= r.next.currentPosition < |r.next.stopPositions|)
    decreases |events|
  {
    if events != [] {
      var next := LayoutChanged(s, events[0].height);
      assert forall i :: 0 <= i < |events[1..]| ==> events[1..][i] == events[i + 1];
      LayoutPassesAreMotionFree(next, events[1..]);
    }
  }

  // ----- Attach and present -----------------------------------------------

  /** Presenting sets the constant to the negated peek height when there is a
      constraint, changes nothing else, and always issues one 0.3 s animation. */
  lemma PresentMovesToPeek(s: Sheet)
    ensures var r := Present(s);
      && r.effects == [Animate(0.3)]
      && (s.topConstraint.Some? ==> r.next == s.(topConstraint := Some(Constraint(-s.peekHeight))))
      && (s.topConstraint.None? ==> r.next == s)
  {
  }

  /** Attaching and presenting a second time lands in the same state and
      repeats the same animation. */
  lemma ReattachIsIdempotent(s: Sheet)
    ensures var once := Present(Attach(s));
      var twice := Present(Attach(once.next));
      twice.next == once.next && twice.effects == once.effects
  {
  }

  // ----- The pan handler, phase by phase ----------------------------------

  /** Without a constraint the handler returns before anything, so not even
      the recognizer's translation is reset. */
  lemma NoConstraintNoChange(s: Sheet, phase: Phase, translationY: real, velocityY: real)
    requires PositionInRange(s)
    requires s.topConstraint.None?
    ensures Pan(s, phase, translationY, velocityY) == Step(s, [])
  {
  }

  /** With a constraint, every phase, unhandled ones included, ends with
      exactly one reset of the recognizer's translation; only `.ended`
      animates, exactly once. */
  lemma TranslationZeroedAfterEveryPhase(s: Sheet, phase: Phase, translationY: real, velocityY: real)
    requires PositionInRange(s)
    requires s.topConstraint.Some?
    ensures var r := Pan(s, phase, translationY, velocityY);
      && |r.effects| > 0
      && r.effects[|r.effects| - 1] == TranslationZeroed
      && (forall i :: 0 <= i < |r.effects| - 1 ==> r.effects[i].Animate?)
      && |r.effects| == (if phase == Ended then 2 else 1)
  {
  }

  /** `.began` records the magnitude including the current translation, and
      changes nothing else. */
  lemma BeganRecordsStart(s: Sheet, translationY: real, velocityY: real)
    requires PositionInRange(s)
    requires s.topConstraint.Some?
    ensures var r := Pan(s, Began, translationY, velocityY);
      && r.next.startPanTranslation == EndOffset(s, translationY)
      && r.next.(startPanTranslation := s.startPanTranslation) == s
      && r.effects == [TranslationZeroed]
  {
  }

  /** `.changed` tracks the finger 1:1, storing the signed sum, exactly when
      its magnitude lies between the peek height and the sheet height, and is
      ignored otherwise. */
  lemma ChangedClamp(s: Sheet, translationY: real, velocityY: real)
    requires PositionInRange(s)
    requires s.topConstraint.Some?
    ensures var r := Pan(s, Changed, translationY, velocityY);
      var finalTranslation := translationY + s.topConstraint.value.constant;
      && (s.peekHeight <= Abs(finalTranslation) <= s.sheetHeight ==>
            r.next == s.(topConstraint := Some(Constraint(finalTranslation))))
      && (!(s.peekHeight <= Abs(finalTranslation) <= s.sheetHeight) ==> r.next == s)
      && r.effects == [TranslationZeroed]
  {
  }

  /** One `.changed` event never takes the sheet out of range. */
  lemma ChangedKeepsInRange(s: Sheet, translationY: real, velocityY: real)
    requires PositionInRange(s)
    requires InRange(s)
    ensures InRange(Pan(s, Changed, translationY, velocityY).next)
  {
  }

  /** Nor does any sequence of them. */
  lemma {:induction false} ChangedSequenceKeepsInRange(s: Sheet, events: seq<Event>)
    requires Valid(s) && InRange(s)
    requires forall i :: 0 <= i < |events| ==> events[i].Gesture? && events[i].phase == Changed
    ensures InRange(Run(s, events).next)
    decreases |events|
  {
    if events != [] {
      var e := events[0];
      ChangedKeepsInRange(s, e.translationY, e.velocityY);
      assert forall i :: 0 <= i < |events[1..]| ==> events[1..][i] == events[i + 1];
      ChangedSequenceKeepsInRange(Apply(s, e).next, events[1..]);
    }
  }

  /** `.ended` takes the flick branch exactly when the speed exceeds 100 and
      the net travel is strictly between 0 and 50; the branch shows in the
      duration of the one animation it issues. */
  lemma EndedAnimatesOnce(s: Sheet, translationY: real, velocityY: real)
    requires PositionInRange(s)
    requires s.topConstraint.Some?
    ensures var r := Pan(s, Ended, translationY, velocityY);
      var travelled := Travelled(s, translationY);
      var flick := Abs(velocityY) > 100.0 && 0.0 < travelled < 50.0;
      r.effects == [Animate(if flick then 0.1 else 0.3), TranslationZeroed]
  {
  }

  /** The flick branch moves `currentPosition` by one: up unless already at
      the last stop, else down unless already at the first, and the constant
      follows. With fewer than two stops it changes nothing. */
  lemma FlickMovesOneStop(s: Sheet, translationY: real, velocityY: real)
    requires PositionInRange(s)
    requires s.topConstraint.Some?
    requires IsFlick(velocityY, Travelled(s, translationY))
    ensures var r := Pan(s, Ended, translationY, velocityY).next;
      var n := |s.stopPositions|;
      && (s.currentPosition < n - 1 ==> r.currentPosition == s.currentPosition + 1)
      && (s.currentPosition >= n - 1 && s.currentPosition > 0 ==> r.currentPosition == s.currentPosition - 1)
      && (n >= 2 ==> r.currentPosition - s.currentPosition in {1, -1})
      && (n >= 2 ==> r.topConstraint == Some(Constraint(-s.stopPositions[r.currentPosition])))
      && (n < 2 ==> r == s)
      && r.startPanTranslation == s.startPanTranslation
  {
  }

  /** The settle branch snaps to the first stop nearest the release
      magnitude, or falls back to index 0 and the peek height without stops. */
  lemma SettleSnapsToNearest(s: Sheet, translationY: real, velocityY: real)
    requires PositionInRange(s)
    requires s.topConstraint.Some?
    requires !IsFlick(velocityY, Travelled(s, translationY))
    ensures var r := Pan(s, Ended, translationY, velocityY).next;
      && (s.stopPositions != [] ==>
            && IsFirstNearest(s.stopPositions, EndOffset(s, translationY), r.currentPosition)
            && r.topConstraint == Some(Constraint(-s.stopPositions[r.currentPosition])))
      && (s.stopPositions == [] ==>
            r.currentPosition == 0 && r.topConstraint == Some(Constraint(-s.peekHeight)))
      && r.startPanTranslation == s.startPanTranslation
  {
  }

  /** The flick direction ignores the sign of the velocity. */
  lemma FlickIgnoresVelocitySign(s: Sheet, translationY: real, velocityY: real)
    requires PositionInRange(s)
    ensures Pan(s, Ended, translationY, velocityY) == Pan(s, Ended, translationY, -velocityY)
  {
  }

  /** The clamp tests only the magnitude, so a single large downward update
      can store a positive constant: the sheet's top then lies below the
      container's bottom edge until the release snaps it back. */
  lemma ChangedCanStorePositiveConstant()
    ensures var s := Sheet(Some(Constraint(-150.0)), 500.0, 100.0, [100.0, 500.0], 0, 150.0);
      && Valid(s) && InRange(s)
      && Pan(s, Changed, 300.0, 0.0).next.topConstraint == Some(Constraint(150.0))
  {
  }

  // ----- Whole sessions -----------------------------------------------------

  /** Once the stops hold a layout pass's two values in ascending order, a
      release always lands on the stop that `currentPosition` names. */
  lemma EndedSettles(s: Sheet, translationY: real, velocityY: real)
    requires Valid(s)
    requires s.topConstraint.Some?
    requires s.stopPositions != []
    ensures Settled(Pan(s, Ended, translationY, velocityY).next)
  {
  }

  /** Every gesture event keeps the sheet in range once the stops are
      `[peekHeight, sheetHeight]` with `0 <= peekHeight <= sheetHeight`. */
  lemma GestureKeepsInRange(s: Sheet, phase: Phase, translationY: real, velocityY: real)
    requires Valid(s) && InRange(s)
    requires s.stopPositions != []
    requires 0.0 <= s.peekHeight <= s.sheetHeight
    ensures InRange(Pan(s, phase, translationY, velocityY).next)
  {
  }

  /** Hence a whole sequence of gestures keeps it in range too. */
  lemma {:induction false} GestureSequenceKeepsInRange(s: Sheet, events: seq<Event>)
    requires Valid(s) && InRange(s)
    requires s.stopPositions != []
    requires 0.0 <= s.peekHeight <= s.sheetHeight
    requires forall i :: 0 <= i < |events| ==> events[i].Gesture?
    ensures InRange(Run(s, events).next)
    decreases |events|
  {
    if events != [] {
      var e := events[0];
      GestureKeepsInRange(s, e.phase, e.translationY, e.velocityY);
      assert forall i :: 0 <= i < |events[1..]| ==> events[1..][i] == events[i + 1];
      GestureSequenceKeepsInRange(Apply(s, e).next, events[1..]);
    }
  }

  /** From the initial fields, every session keeps `currentPosition` in range
      and the stops as a layout pass left them. */
  lemma ReachableStatesAreValid(events: seq<Event>)
    ensures Valid(Run(Initial(), events).next)
  {
  }
}
