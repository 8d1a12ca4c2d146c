/**
 `BottomSheetViewController` with the fields its code updates in place. Each
 entry point follows the Swift code statement by statement and is proved to
 produce the state and the effects that the matching function of SheetModel
 gives for the old state. The effects (animations, the recognizer's
 translation reset) are appended to a ghost log.
 */
module BottomSheet {
  import opened Wrappers
  import opened NearestStop
  import opened SheetModel

  class BottomSheetViewController {
    var topConstraint: Option<Constraint>
    var sheetHeight: real
    var peekHeight: real
    var stopPositions: seq<real>
    var currentPosition: int
    var startPanTranslation: real

    /** The calls made into UIKit so far, in order. */
    ghost var log: seq<Effect>

    /** The fields as a SheetModel value. */
    ghost function State(): Sheet
      reads this
    {
      Sheet(topConstraint, sheetHeight, peekHeight, stopPositions, currentPosition, startPanTranslation)
    }

    ghost predicate Valid()
      reads this
    {
      SheetModel.Valid(State())
    }

    /** The field initialisers. */
    constructor ()
      ensures Valid()
      ensures State() == Initial() && log == []
    {
      topConstraint := None;
      sheetHeight := 0.0;
      peekHeight := DefaultPeekHeight;
      stopPositions := [];
      currentPosition := 0;
      startPanTranslation := 0.0;
      log := [];
    }

    /** `viewDidLayoutSubviews`, with the view's frame height as a parameter. */
    method ViewDidLayoutSubviews(height: real)
      requires Valid()
      modifies this
      ensures Valid()
      ensures State() == LayoutChanged(old(State()), height)
      ensures log == old(log)
    {
      sheetHeight := height;
      stopPositions := [peekHeight, sheetHeight];
    }

    /** The state part of `attachBottomSheet(superView:)`. */
    method AttachBottomSheet()
      requires Valid()
      modifies this
      ensures Valid()
      ensures State() == Attach(old(State()))
      ensures log == old(log)
    {
      topConstraint := Some(Constraint(0.0));
    }

    /** `presentAnimated()`. */
    method PresentAnimated()
      requires Valid()
      modifies this
      ensures Valid()
      ensures State() == Present(old(State())).next
      ensures log == old(log) + Present(old(State())).effects
    {
      if topConstraint.Some? {
        topConstraint := Some(Constraint(-peekHeight));
      }
      log := log + [Animate(PresentDuration)];
    }

    /** `panGesture(recognizer:)`, with the recognizer's state, its
        translation and its velocity along y as parameters. */
    method PanGesture(phase: Phase, translationY: real, velocityY: real)
      requires Valid()
      modifies this
      ensures Valid()
      ensures State() == Pan(old(State()), phase, translationY, velocityY).next
      ensures log == old(log) + Pan(old(State()), phase, translationY, velocityY).effects
    {
      if topConstraint.None? {
        return;
      }
      var finalTranslation := translationY + topConstraint.value.constant;
      var absFinalTranslation := Abs(finalTranslation);
      match phase {
        case Began =>
          startPanTranslation := absFinalTranslation;
        case Changed =>
          if absFinalTranslation <= sheetHeight && absFinalTranslation >= peekHeight {
            topConstraint := Some(Constraint(finalTranslation));
          }
        case Ended =>
          var translationDelta := Abs(absFinalTranslation - startPanTranslation);
          if Abs(velocityY) > FlickMinSpeed && translationDelta < FlickMaxTravel && translationDelta > 0.0 {
            if currentPosition < |stopPositions| - 1 {
              currentPosition := currentPosition + 1;
              topConstraint := Some(Constraint(-stopPositions[currentPosition]));
            } else if currentPosition > 0 {
              currentPosition := currentPosition - 1;
              topConstraint := Some(Constraint(-stopPositions[currentPosition]));
            }
            log := log + [Animate(FlickDuration)];
          } else {
            var constant := ClosestStopToPosition(absFinalTranslation);
            topConstraint := Some(Constraint(constant));
            log := log + [Animate(SettleDuration)];
          }
        case Other =>
      }
      log := log + [TranslationZeroed];
    }

    /** `closestStopToPosition(position:)`: the `min(by:)` scan keeps the
        first of the nearest stops, stores its index in `currentPosition` and
        returns it negated; without stops it stores 0 and returns the negated
        peek height. */
    method ClosestStopToPosition(position: real) returns (constant: real)
      modifies this`currentPosition
      ensures currentPosition == Closest(stopPositions, position, peekHeight).index
      ensures constant == Closest(stopPositions, position, peekHeight).constant
    {
      if |stopPositions| == 0 {
        currentPosition := 0;
        return -peekHeight;
      }
      var closest := 0;
      var i := 1;
      while i < |stopPositions|
        invariant 1 <= i <= |stopPositions|
        invariant closest == NearestIndex(stopPositions[..i], position)
      {
        assert stopPositions[..i + 1][..i] == stopPositions[..i];
        if Dist(stopPositions[i], position) < Dist(stopPositions[closest], position) {
          closest := i;
        }
        i := i + 1;
      }
      assert stopPositions[..i] == stopPositions;
      currentPosition := closest;
      return -stopPositions[closest];
    }
  }
}
