/**
 The state of a `BottomSheetViewController` as a value, and each of its entry
 points as a function from the old state to the new one together with the
 effects it has on its collaborators (animations issued, the pan recognizer's
 translation zeroed). The class in bottom_sheet_view_controller.dfy is proved
 to follow these functions; sheet_properties.dfy proves what they promise.

 Sign convention, as in the code: `topConstraint.constant` is the negated
 distance of the sheet's top edge above the container's bottom edge, so the
 sheet at its peek stop has constant `-peekHeight`.
 */
module SheetModel {
  import opened Wrappers
  import opened NearestStop

  /** `peekHeight`'s initial value. */
  const DefaultPeekHeight: real := 100.0
  /** A release is a flick only when the vertical speed exceeds this. */
  const FlickMinSpeed: real := 100.0
  /** ... and the net travel since `.began` stays below this. */
  const FlickMaxTravel: real := 50.0
  /** Animation durations, in seconds. */
  const FlickDuration: real := 0.1
  const SettleDuration: real := 0.3
  const PresentDuration: real := 0.3

  /** The top constraint, of which only the constant is ever read or written. */
  datatype Constraint = Constraint(constant: real)

  /** UIGestureRecognizer.State as the pan handler distinguishes it; every
      other state (possible, cancelled, failed) falls to `default`. */
  datatype Phase = Began | Changed | Ended | Other

  /** The calls the controller makes into code it does not own. */
  datatype Effect =
    | Animate(duration: real)   // UIView.animate(withDuration:) running layoutIfNeeded
    | TranslationZeroed         // recognizer.setTranslation(CGPoint(), in:)

  /** The controller's fields. */
  datatype Sheet = Sheet(
    topConstraint: Option<Constraint>,
    sheetHeight: real,
    peekHeight: real,
    stopPositions: seq<real>,
    currentPosition: int,
    startPanTranslation: real)

  /** The state after an entry point and the effects it issued, in order. */
  datatype Step = Step(next: Sheet, effects: seq<Effect>)

  /** The field initialisers: no constraint yet, no stops. */
  function Initial(): Sheet
  {
    Sheet(None, 0.0, DefaultPeekHeight, [], 0, 0.0)
  }

  /** `currentPosition` can be used to index `stopPositions` after one step
      forward or back: it is a valid index, or 0 when there are no stops. */
  predicate PositionInRange(s: Sheet)
  {
    0 <= s.currentPosition && (s.currentPosition == 0 || s.currentPosition < |s.stopPositions|)
  }

  /** The controller's invariant: the index is in range and the stops are the
      ones the last layout pass computed, if there was one. */
  predicate Valid(s: Sheet)
  {
    && PositionInRange(s)
    && (s.stopPositions == [] || s.stopPositions == [s.peekHeight, s.sheetHeight])
  }

  /** `viewDidLayoutSubviews`, where `height` is the view's new frame height. */
  function LayoutChanged(s: Sheet, height: real): (r: Sheet)
    requires Valid(s)
    ensures Valid(r)
  {
    s.(sheetHeight := height, stopPositions := [s.peekHeight, height])
  }

  /** The state part of `attachBottomSheet`: a fresh constraint pinning the
      sheet's top to the container's bottom, so its constant is 0. */
  function Attach(s: Sheet): Sheet
  {
    s.(topConstraint := Some(Constraint(0.0)))
  }

  /** `presentAnimated`: the optional chain sets the constant only when there
      is a constraint, the animation is requested either way. */
  function Present(s: Sheet): Step
  {
    var next := if s.topConstraint.Some? then s.(topConstraint := Some(Constraint(-s.peekHeight))) else s;
    Step(next, [Animate(PresentDuration)])
  }

  /** The release test: fast, and a short but nonzero net travel. */
  predicate IsFlick(velocityY: real, translationDelta: real)
  {
    Abs(velocityY) > FlickMinSpeed && translationDelta < FlickMaxTravel && translationDelta > 0.0
  }

  /** The flick branch: one stop up if there is one, else one stop down if
      there is one, else nothing; the velocity's sign plays no part. */
  function Flick(s: Sheet): (r: Sheet)
    requires PositionInRange(s)
    ensures PositionInRange(r)
  {
    if s.currentPosition < |s.stopPositions| - 1 then
      var p := s.currentPosition + 1;
      s.(currentPosition := p, topConstraint := Some(Constraint(-s.stopPositions[p])))
    else if s.currentPosition > 0 then
      var p := s.currentPosition - 1;
      s.(currentPosition := p, topConstraint := Some(Constraint(-s.stopPositions[p])))
    else
      s
  }

  /** The settle branch: snap to the first nearest stop. */
  function Settle(s: Sheet, position: real): (r: Sheet)
    ensures PositionInRange(r)
  {
    var c := Closest(s.stopPositions, position, s.peekHeight);
    s.(currentPosition := c.index, topConstraint := Some(Constraint(c.constant)))
  }

  /** `panGesture(recognizer:)` for a recognizer in `phase` reporting
      `translationY` and `velocityY`. Without a constraint it returns at once;
      otherwise every phase ends by zeroing the recognizer's translation. */
  function Pan(s: Sheet, phase: Phase, translationY: real, velocityY: real): (r: Step)
    requires PositionInRange(s)
    ensures PositionInRange(r.next)
    ensures r.next.stopPositions == s.stopPositions
    ensures r.next.sheetHeight == s.sheetHeight && r.next.peekHeight == s.peekHeight
  {
    match s.topConstraint
    case None => Step(s, [])
    case Some(tc) =>
      var finalTranslation := translationY + tc.constant;
      var absFinalTranslation := Abs(finalTranslation);
      var handled: Step :=
        match phase
        case Began =>
          Step(s.(startPanTranslation := absFinalTranslation), [])
        case Changed =>
          if absFinalTranslation <= s.sheetHeight && absFinalTranslation >= s.peekHeight
          then Step(s.(topConstraint := Some(Constraint(finalTranslation))), [])
          else Step(s, [])
        case Ended =>
          var translationDelta := Abs(absFinalTranslation - s.startPanTranslation);
          if IsFlick(velocityY, translationDelta)
          then Step(Flick(s), [Animate(FlickDuration)])
          else Step(Settle(s, absFinalTranslation), [Animate(SettleDuration)])
        case Other =>
          Step(s, []);
      Step(handled.next, handled.effects + [TranslationZeroed])
  }

  /** The events the host delivers to the controller, one at a time. */
  datatype Event =
    | LayoutPass(height: real)                                   // viewDidLayoutSubviews
    | AttachToSuperview                                          // viewWillAppear with a superview
    | Appear                                                     // viewDidAppear
    | Gesture(phase: Phase, translationY: real, velocityY: real) // the pan recognizer's action

  function Apply(s: Sheet, e: Event): (r: Step)
    requires Valid(s)
    ensures Valid(r.next)
  {
    match e
    case LayoutPass(height) => Step(LayoutChanged(s, height), [])
    case AttachToSuperview => Step(Attach(s), [])
    case Appear => Present(s)
    case Gesture(phase, translationY, velocityY) => Pan(s, phase, translationY, velocityY)
  }

  /** A whole session: the events applied in order, the effects concatenated. */
  function Run(s: Sheet, events: seq<Event>): (r: Step)
    requires Valid(s)
    ensures Valid(r.next)
    decreases |events|
  {
    if events == [] then Step(s, [])
    else
      var first := Apply(s, events[0]);
      var rest := Run(first.next, events[1..]);
      Step(rest.next, first.effects + rest.effects)
  }
}
