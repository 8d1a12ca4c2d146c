/**
 Sessions driven through the controller's own entry points, with the peek
 height of 100 and a sheet 500 high, so the stops are `[100, 500]`. Each
 returns the index and the constant the sheet ends with; the proofs use
 nothing but the methods' contracts.
 */
module SheetScenarios {
  import opened Wrappers
  import opened SheetModel
  import opened BottomSheet

  /** A laid-out, attached and presented sheet at its peek stop. */
  method PresentedSheet() returns (c: BottomSheetViewController)
    ensures fresh(c) && c.Valid()
    ensures c.State() == Sheet(Some(Constraint(-100.0)), 500.0, 100.0, [100.0, 500.0], 0, 0.0)
    ensures c.log == [Animate(0.3)]
  {
    c := new BottomSheetViewController();
    c.ViewDidLayoutSubviews(500.0);
    c.AttachBottomSheet();
    c.PresentAnimated();
  }

  /** A fast release after 10 units of travel from the peek stop advances one
      stop, to 500, with the short animation. */
  method FlickFromPeek() returns (position: int, constant: real, ghost effects: seq<Effect>)
    ensures position == 1 && constant == -500.0
    ensures effects == [TranslationZeroed, TranslationZeroed, Animate(0.1), TranslationZeroed]
  {
    var c := PresentedSheet();
    c.PanGesture(Began, 0.0, 0.0);
    c.PanGesture(Changed, -10.0, 0.0);
    c.PanGesture(Ended, 0.0, 200.0);
    position, constant := c.currentPosition, c.topConstraint.value.constant;
    effects := c.log[1..];
  }

  /** The same flick from the full-height stop retreats to the peek stop. */
  method FlickFromTop() returns (position: int, constant: real)
    ensures position == 0 && constant == -100.0
  {
    var c := PresentedSheet();
    c.PanGesture(Began, 0.0, 0.0);
    c.PanGesture(Changed, -10.0, 0.0);
    c.PanGesture(Ended, 0.0, 200.0);
    c.PanGesture(Began, 0.0, 0.0);
    assert c.currentPosition == 1 && c.topConstraint == Some(Constraint(-500.0));
    c.PanGesture(Changed, 10.0, 0.0);
    c.PanGesture(Ended, 0.0, 200.0);
    position, constant := c.currentPosition, c.topConstraint.value.constant;
  }

  /** A slow release at 260 settles on the nearer stop, 100 (160 away rather
      than 240), with the long animation. */
  method SettleNearest() returns (position: int, constant: real, ghost effects: seq<Effect>)
    ensures position == 0 && constant == -100.0
    ensures effects == [TranslationZeroed, TranslationZeroed, Animate(0.3), TranslationZeroed]
  {
    var c := PresentedSheet();
    c.PanGesture(Began, 0.0, 0.0);
    c.PanGesture(Changed, -160.0, 0.0);
    c.PanGesture(Ended, 0.0, 10.0);
    position, constant := c.currentPosition, c.topConstraint.value.constant;
    effects := c.log[1..];
  }

  /** A release at 300, equally far from both stops, takes the first one. */
  method SettleTieTakesFirst() returns (position: int, constant: real)
    ensures position == 0 && constant == -100.0
  {
    var c := PresentedSheet();
    c.PanGesture(Began, 0.0, 0.0);
    c.PanGesture(Changed, -200.0, 0.0);
    c.PanGesture(Ended, 0.0, 10.0);
    position, constant := c.currentPosition, c.topConstraint.value.constant;
  }

  /** A fast release after a long drag is not a flick: it settles on the stop
      nearest 400, which is 500. */
  method FastLongDragSettles() returns (position: int, constant: real)
    ensures position == 1 && constant == -500.0
  {
    var c := PresentedSheet();
    c.PanGesture(Began, 0.0, 0.0);
    c.PanGesture(Changed, -300.0, 0.0);
    c.PanGesture(Ended, 0.0, 1000.0);
    position, constant := c.currentPosition, c.topConstraint.value.constant;
  }

  /** An update whose magnitude would be 50, below the peek height, is
      ignored. */
  method UpdateBelowPeekIgnored() returns (constant: real)
    ensures constant == -100.0
  {
    var c := PresentedSheet();
    c.PanGesture(Began, 0.0, 0.0);
    c.PanGesture(Changed, 50.0, 0.0);
    constant := c.topConstraint.value.constant;
  }

  /** Before the sheet is attached, gestures change nothing and issue
      nothing, not even the translation reset: the fields stay as the layout
      pass left them. */
  method GestureBeforeAttach() returns (fields: Sheet, ghost effects: seq<Effect>)
    ensures fields == Sheet(None, 500.0, 100.0, [100.0, 500.0], 0, 0.0)
    ensures effects == []
  {
    var c := new BottomSheetViewController();
    c.ViewDidLayoutSubviews(500.0);
    c.PanGesture(Began, 0.0, 0.0);
    c.PanGesture(Changed, -50.0, 0.0);
    c.PanGesture(Ended, 0.0, 500.0);
    fields := Sheet(c.topConstraint, c.sheetHeight, c.peekHeight, c.stopPositions,
                    c.currentPosition, c.startPanTranslation);
    effects := c.log;
  }
}
