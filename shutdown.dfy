/** Leaving the capture loop on the quit key. The loop as written just stops,
    so a button pressed by a drag stays pressed; releasing it on exit keeps
    every press matched by a release. */
module Shutdown {
  import opened Landmarks
  import opened Gestures
  import opened Controller
  import opened FrameLemmas
  import opened Traces

  /** The quit key as the loop handles it: break out, issue nothing. */
  function QuitAsWritten(s: State): seq<Intent>
  {
    []
  }

  /** Quitting as written after any run that ends with the button held leaves
      the last button event a press that is never released. */
  lemma QuitAsWrittenStrandsButton(xs: seq<Input>)
    ensures var t := Run(Initial, xs);
      var e := Keep(t.intents + QuitAsWritten(t.state), Buttons);
      t.state.dragging ==> |e| % 2 == 1 && e[|e| - 1] == MouseDown
  {
    var t := Run(Initial, xs);
    ButtonsAlternate(xs);
    assert t.intents + QuitAsWritten(t.state) == t.intents;
    var e := Keep(t.intents, Buttons);
    if t.state.dragging {
      var j := |e| - 1;
      assert j % 2 == 0;
      assert e[j] == MouseDown;
    }
  }

  /** A frame that closes the third fist in a row while the button is up
      presses it and nothing else happens to the button. */
  lemma FistPresses(xs: seq<Input>)
    requires |xs| >= DRAG_ACTIVATE_FRAMES
    requires Shows(xs[|xs| - 3], FistGesture) && Shows(xs[|xs| - 2], FistGesture) && Shows(xs[|xs| - 1], FistGesture)
    requires !Run(Initial, xs[..|xs| - 1]).state.dragging
    ensures var t := Run(Initial, xs);
      t.state.dragging &&
      Keep(t.intents, Buttons) == Keep(Run(Initial, xs[..|xs| - 1]).intents, Buttons) + [MouseDown]
  {
    var t := Run(Initial, xs[..|xs| - 1]);
    var inp := xs[|xs| - 1];
    FistHeldIffLastThree(xs);
    ClosedIsNotOpen(Fingers(inp));
    StepDrag(t.state, inp);
    StepButtons(t.state, inp);
    KeepAppend(t.intents, Next(t.state, inp).intents, Buttons);
  }

  /** A fist held for three frames from the start presses the button, and
      nothing released it yet: a quit key on the next frame strands it. */
  lemma FistThenQuit(xs: seq<Input>)
    requires |xs| == 3
    requires Shows(xs[0], FistGesture) && Shows(xs[1], FistGesture) && Shows(xs[2], FistGesture)
    ensures var t := Run(Initial, xs);
      t.state.dragging &&
      Keep(t.intents + QuitAsWritten(t.state), Buttons) == [MouseDown] &&
      Keep(t.intents + ReleaseOnExit(t.state), Buttons) == [MouseDown, MouseUp]
  {
    FistFramesHoldOff(xs[..2]);
    FistPresses(xs);
    var u := Run(Initial, xs);
    assert u.intents + QuitAsWritten(u.state) == u.intents;
    KeepAppend(u.intents, ReleaseOnExit(u.state), Buttons);
  }

  /** Fewer than three fist frames from the start press nothing. */
  lemma {:induction false} FistFramesHoldOff(xs: seq<Input>)
    requires |xs| < DRAG_ACTIVATE_FRAMES
    requires forall i :: 0 <= i < |xs| ==> Shows(xs[i], FistGesture)
    ensures var t := Run(Initial, xs);
      !t.state.dragging && Keep(t.intents, Buttons) == []
    decreases |xs|
  {
    if xs != [] {
      var front := xs[..|xs| - 1];
      FistFramesHoldOff(front);
      var t := Run(Initial, front);
      var inp := xs[|xs| - 1];
      FistHeldIffLastThree(xs);
      ClosedIsNotOpen(Fingers(inp));
      StepDrag(t.state, inp);
      StepButtons(t.state, inp);
      KeepAppend(t.intents, Next(t.state, inp).intents, Buttons);
    }
  }

  /** Releasing on exit: after any run, the button events including the exit
      alternate press, release, ... and end with a release (or are empty). */
  lemma ReleaseOnExitBalances(xs: seq<Input>)
    ensures var t := Run(Initial, xs);
      var e := Keep(t.intents + ReleaseOnExit(t.state), Buttons);
      Alternating(e) && |e| % 2 == 0
  {
    var t := Run(Initial, xs);
    ButtonsAlternate(xs);
    KeepAppend(t.intents, ReleaseOnExit(t.state), Buttons);
    AlternatingExtend(Keep(t.intents, Buttons), t.state.dragging, false, Keep(ReleaseOnExit(t.state), Buttons));
  }
}
