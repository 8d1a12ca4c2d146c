# Bottom sheet drag-to-snap controller, in Dafny

This project models the interaction logic of `BottomSheetViewController`, a
UIKit panel fixed to the bottom edge of its superview. The user drags the panel
up and down. When the finger lifts, the panel snaps to one of its stops: the
peek height (100) or the full height of the sheet. The model covers:

- the stop list that each layout pass recomputes;
- the three-phase pan handler:
  - `.began` records where the drag started;
  - `.changed` tracks the finger 1:1, clamped to the range between the peek height and the sheet height;
  - `.ended` chooses between a flick (advance or retreat one stop) and a settle (snap to the nearest stop);
- the nearest-stop search, including its fallback when there are no stops;
- the present step.

Files:

- `nearest_stop.dfy` (module `NearestStop`): the `min(by:)` search of
  `closestStopToPosition` as a pure function. Its contract says the chosen stop
  is a nearest one and that ties go to the lowest index.
- `sheet_model.dfy` (module `SheetModel`): the controller's fields as a value
  `Sheet`. Each entry point is a function from the old state to the new state
  plus the effects it issues: one `Animate(duration)` per `UIView.animate`
  call, and `TranslationZeroed` for `recognizer.setTranslation(CGPoint(), in:)`.
  `Run` applies a whole sequence of host events.
- `sheet_properties.dfy` (module `SheetProperties`): the lemmas about those
  functions, both per phase and over whole sessions.
- `bottom_sheet_view_controller.dfy` (module `BottomSheet`): the class with the
  Swift fields, updated in place. Each method follows the Swift statements. Its
  contract says the new fields equal the `SheetModel` function applied to the
  old fields, and the ghost `log` grows by that function's effects.
- `sheet_scenarios.dfy` (module `SheetScenarios`): concrete sessions run through
  the class methods, with stops `[100, 500]`.

`CGFloat` is modelled as `real`. Offsets follow the code's sign convention:
`topConstraint.constant` is minus the height of the sheet's top edge above the
container's bottom edge.

Four details of the code are easy to misread; the model follows the code in
each:

- `.changed` stores the signed `finalTranslation` (line 98). The clamp only
  tests `abs(finalTranslation)`, so one large downward update can store a
  positive constant. `SheetProperties.ChangedCanStorePositiveConstant`
  exhibits such an update.
- `.began` and `.ended` both include the current event's translation in the
  magnitude they use (lines 89-91).
- A layout pass does not change `peekHeight`. Presenting sets the constant to
  `-peekHeight` (line 79). Presenting also requests the animation when there
  is no constraint; the optional chain skips only the assignment.
- The flick uses only the magnitude of the velocity, never its sign (lines
  102-109). `SheetProperties.FlickIgnoresVelocitySign` states this.

## Model

| member | source | states |
|---|---|---|
| `NearestStop.NearestIndex` | Source/BottomSheetViewController.swift:127 | the index `min(by:)` returns over the enumerated stops: no stop is nearer to the position, and every earlier stop is strictly farther away (first minimum wins) |
| `NearestStop.NearestIndexUnique` | Source/BottomSheetViewController.swift:127 | any index with that first-nearest property is the one the search returns |
| `NearestStop.Closest` | Source/BottomSheetViewController.swift:126-134 | with stops: a first-nearest index, and the stop at that index negated; with no stops: index 0 and the negated peek height |
| `NearestStop.ClosestOfTwoStops` | Source/BottomSheetViewController.swift:127-130 | for stops `[peek, full]`, the full stop is chosen exactly when it is strictly nearer |
| `SheetModel.LayoutChanged` | Source/BottomSheetViewController.swift:54-58 | a layout pass keeps the controller invariant: `currentPosition` indexes the stops, and the stops are `[peekHeight, sheetHeight]` |
| `SheetModel.Flick` | Source/BottomSheetViewController.swift:103-109 | the flick branch never moves `currentPosition` out of range, so it never indexes the stops out of range |
| `SheetModel.Settle` | Source/BottomSheetViewController.swift:114 | the settle branch leaves `currentPosition` a valid index, or 0 when there are no stops |
| `SheetModel.Pan` | Source/BottomSheetViewController.swift:85-124 | every phase of the pan handler keeps `currentPosition` in range and leaves the stops, the sheet height and the peek height unchanged |
| `SheetModel.Apply` | Source/BottomSheetViewController.swift:47-124 | each host event (layout pass, attach, appear, pan) preserves the controller invariant |
| `SheetModel.Run` | Source/BottomSheetViewController.swift:47-124 | any sequence of host events preserves the controller invariant |
| `SheetProperties.LayoutRefreshesStops` | Source/BottomSheetViewController.swift:54-58 | after a layout pass the stops are `[peekHeight, height]` and `sheetHeight == height`; the constraint, `currentPosition`, `startPanTranslation` and `peekHeight` are unchanged |
| `SheetProperties.LayoutPassesAreMotionFree` | Source/BottomSheetViewController.swift:54-58 | any number of layout passes moves nothing and issues nothing; the stops come from the last height, and `currentPosition` is an index into them |
| `SheetProperties.PresentMovesToPeek` | Source/BottomSheetViewController.swift:78-83 | presenting sets the constant to `-peekHeight` only when a constraint exists, changes nothing else, and always issues one 0.3 s animation |
| `SheetProperties.ReattachIsIdempotent` | Source/BottomSheetViewController.swift:70-83 | attaching and presenting a second time gives the same state and the same animation |
| `SheetProperties.NoConstraintNoChange` | Source/BottomSheetViewController.swift:86-88 | without a constraint the pan handler changes nothing and issues nothing, not even the translation reset |
| `SheetProperties.TranslationZeroedAfterEveryPhase` | Source/BottomSheetViewController.swift:92-123 | with a constraint, every phase (unhandled ones included) ends with exactly one translation reset; only `.ended` animates, exactly once |
| `SheetProperties.BeganRecordsStart` | Source/BottomSheetViewController.swift:89-94 | `.began` sets `startPanTranslation = abs(translation + constant)` and changes nothing else |
| `SheetProperties.ChangedClamp` | Source/BottomSheetViewController.swift:95-99 | `.changed` stores the signed `translation + constant` when its magnitude lies in `[peekHeight, sheetHeight]`, and otherwise leaves the state unchanged |
| `SheetProperties.ChangedKeepsInRange` | Source/BottomSheetViewController.swift:95-99 | one `.changed` event keeps the constant's magnitude in `[peekHeight, sheetHeight]` |
| `SheetProperties.ChangedSequenceKeepsInRange` | Source/BottomSheetViewController.swift:95-99 | any sequence of `.changed` events keeps that magnitude in range |
| `SheetProperties.EndedAnimatesOnce` | Source/BottomSheetViewController.swift:100-118 | `.ended` issues one animation: 0.1 s exactly when `abs(velocity) > 100` and `0 < travel < 50` (the flick branch), 0.3 s otherwise |
| `SheetProperties.FlickMovesOneStop` | Source/BottomSheetViewController.swift:102-109 | a flick advances `currentPosition` by one below the last stop, otherwise retreats by one above the first; the constant becomes the negated stop at the new index; with fewer than two stops nothing changes |
| `SheetProperties.SettleSnapsToNearest` | Source/BottomSheetViewController.swift:113-114 | a settle sets `currentPosition` to the first stop nearest the release magnitude and the constant to that stop negated; with no stops it sets index 0 and `-peekHeight` |
| `SheetProperties.FlickIgnoresVelocitySign` | Source/BottomSheetViewController.swift:102 | `.ended` gives the same result for velocity `v` and `-v` |
| `SheetProperties.ChangedCanStorePositiveConstant` | Source/BottomSheetViewController.swift:97-98 | from constant -150 with stops `[100, 500]`, an update of +300 stores constant +150 |
| `SheetProperties.EndedSettles` | Source/BottomSheetViewController.swift:100-118 | once the stops are set, after a release the constant is the negated stop that `currentPosition` names |
| `SheetProperties.GestureKeepsInRange` | Source/BottomSheetViewController.swift:85-124 | with stops `[peekHeight, sheetHeight]` and `0 <= peekHeight <= sheetHeight`, every pan event keeps the magnitude in range |
| `SheetProperties.GestureSequenceKeepsInRange` | Source/BottomSheetViewController.swift:85-124 | so does any sequence of pan events |
| `SheetProperties.ReachableStatesAreValid` | Source/BottomSheetViewController.swift:28-33 | starting from the field initialisers, every session keeps the controller invariant |
| `BottomSheet.BottomSheetViewController.constructor` | Source/BottomSheetViewController.swift:28-33 | the field initialisers: no constraint, height 0, peek height 100, no stops, index 0, start 0 |
| `BottomSheet.BottomSheetViewController.ViewDidLayoutSubviews` | Source/BottomSheetViewController.swift:54-58 | the fields become `LayoutChanged` of the old fields; nothing is logged |
| `BottomSheet.BottomSheetViewController.AttachBottomSheet` | Source/BottomSheetViewController.swift:70-76 | the constraint becomes one with constant 0; nothing else changes |
| `BottomSheet.BottomSheetViewController.PresentAnimated` | Source/BottomSheetViewController.swift:78-83 | the fields and the log follow `Present` |
| `BottomSheet.BottomSheetViewController.PanGesture` | Source/BottomSheetViewController.swift:85-124 | the fields and the log follow `Pan` for the given phase, translation and velocity |
| `BottomSheet.BottomSheetViewController.ClosestStopToPosition` | Source/BottomSheetViewController.swift:126-134 | the `min(by:)` scan stores the `Closest` index in `currentPosition` and returns the `Closest` constant; no other field changes |
| `SheetScenarios.PresentedSheet` | Source/BottomSheetViewController.swift:54-83 | layout at height 500, then attach and present, gives stops `[100, 500]`, index 0 and constant -100, with one 0.3 s animation |
| `SheetScenarios.FlickFromPeek` | Source/BottomSheetViewController.swift:100-112 | from the peek stop, a release at velocity 200 after 10 units of travel reaches index 1 and constant -500, with the 0.1 s animation |
| `SheetScenarios.FlickFromTop` | Source/BottomSheetViewController.swift:103-109 | the same flick from the top stop retreats to index 0 and constant -100 |
| `SheetScenarios.SettleNearest` | Source/BottomSheetViewController.swift:113-117 | a slow release at 260 settles on index 0 and constant -100, with the 0.3 s animation |
| `SheetScenarios.SettleTieTakesFirst` | Source/BottomSheetViewController.swift:126-130 | a release at 300, equally far from both stops, settles on index 0 |
| `SheetScenarios.FastLongDragSettles` | Source/BottomSheetViewController.swift:102 | a fast release after 300 units of travel is not a flick; it settles on index 1 |
| `SheetScenarios.UpdateBelowPeekIgnored` | Source/BottomSheetViewController.swift:97 | an update whose magnitude would be 50 leaves the constant at -100 |
| `SheetScenarios.GestureBeforeAttach` | Source/BottomSheetViewController.swift:86-88 | before attachment, a whole gesture leaves every field as the layout pass left it (no constraint, height 500, peek 100, stops `[100, 500]`, index 0, start 0) and logs nothing |

## Left out

- `viewDidLoad` and `setupPanGestures` (lines 35-45) are not modelled. They only install the gesture recognizer, so the model receives pan events directly as method calls.
- `viewWillAppear` and `viewDidAppear` (lines 47-52, 60-63) appear only as events in `SheetModel.Event`. The branch on a missing superview in `viewWillAppear` is folded into whether an attach event occurs.
- `didReceiveMemoryWarning` and the commented-out navigation block (lines 65-68, 136-144) are not modelled. Neither has any behaviour.
- Only the effect of the Auto Layout work in `attachBottomSheet` (lines 70-76) is modelled: a constraint with constant 0 now exists. The leading and trailing constraints are not modelled. Neither is the fact that attaching again leaves the earlier top constraint active in UIKit.
- `UIView.animate` and `layoutIfNeeded` are recorded only as `Animate(duration)` entries in the log. The animation is asynchronous rendering through UIKit, so it is not modelled.
- The view's frame height and the recognizer's translation, velocity and state are parameters. `setTranslation` is recorded only as `TranslationZeroed`.
- `CGFloat` is modelled as exact `real`, with no rounding. The logic uses only comparisons, `abs`, addition and negation.
- `peekHeight` is an internal stored property in the code, which any code in the module may assign. The model never reassigns it; a client writing it directly is outside this model.
