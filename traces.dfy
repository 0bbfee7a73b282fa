/** Runs of the controller over a sequence of frames, and what the capture
    loop guarantees across frames: the debounce counters, the strict
    alternation of button presses and releases, at most one click per pinch
    held outside the scroll pattern, and the scroll amounts of a scrolling hand. */
module Traces {
  import opened Wrappers
  import opened Landmarks
  import opened Gestures
  import opened Controller
  import opened FrameLemmas

  /** The state after a run and every action it emitted, in order. */
  datatype Trace = Trace(state: State, intents: seq<Intent>)

  /** The capture loop over the frames `xs`, starting from `s`. */
  function Run(s: State, xs: seq<Input>): Trace
    decreases |xs|
  {
    if xs == [] then Trace(s, [])
    else
      var t := Run(s, xs[..|xs| - 1]);
      var o := Next(t.state, xs[|xs| - 1]);
      Trace(o.state, t.intents + o.intents)
  }

  /** The two debounced gestures. */
  datatype Gesture = ScrollGesture | FistGesture

  /** The frame shows a hand making the gesture. */
  predicate Shows(inp: Input, g: Gesture)
  {
    inp.hand.Some? &&
    match g
    case ScrollGesture => ScrollPattern(Fingers(inp))
    case FistGesture => HandClosed(Fingers(inp))
  }

  function Counter(s: State, g: Gesture): nat {
    match g
    case ScrollGesture => s.scrollFrames
    case FistGesture => s.dragFrames
  }

  /** How many of the last frames, counted back from the end, show `g`. */
  function Trailing(xs: seq<Input>, g: Gesture): nat
    decreases |xs|
  {
    if xs == [] then 0
    else if Shows(xs[|xs| - 1], g) then Trailing(xs[..|xs| - 1], g) + 1
    else 0
  }

  /** Each debounce counter holds the number of consecutive frames, ending at
      the current one, that showed its gesture; a miss or a frame without a
      hand starts it again from 0. */
  lemma {:induction false} CounterIsTrailingRun(xs: seq<Input>, g: Gesture)
    ensures Counter(Run(Initial, xs).state, g) == Trailing(xs, g)
    decreases |xs|
  {
    if xs != [] {
      CounterIsTrailingRun(xs[..|xs| - 1], g);
    }
  }

  /** At least n trailing frames show `g` exactly when the last n frames all do. */
  lemma {:induction false} TrailingAtLeast(xs: seq<Input>, g: Gesture, n: nat)
    ensures Trailing(xs, g) >= n <==>
      n <= |xs| && forall i :: |xs| - n <= i < |xs| ==> Shows(xs[i], g)
    decreases |xs|
  {
    if n > 0 && xs != [] {
      var front := xs[..|xs| - 1];
      TrailingAtLeast(front, g, n - 1);
      if Shows(xs[|xs| - 1], g) {
        assert forall i :: 0 <= i < |front| ==> front[i] == xs[i];
      }
    }
  }

  /** Scroll mode holds after a frame exactly when that frame and the two
      before it all showed the scroll pattern. */
  lemma ScrollModeIffLastThree(xs: seq<Input>)
    ensures ScrollMode(Run(Initial, xs).state) <==>
      |xs| >= SCROLL_ACTIVATE_FRAMES &&
      forall i :: |xs| - SCROLL_ACTIVATE_FRAMES <= i < |xs| ==> Shows(xs[i], ScrollGesture)
  {
    CounterIsTrailingRun(xs, ScrollGesture);
    TrailingAtLeast(xs, ScrollGesture, SCROLL_ACTIVATE_FRAMES);
  }

  /** The fist counter has reached the activation count exactly when that
      frame and the two before it all showed a fist. */
  lemma FistHeldIffLastThree(xs: seq<Input>)
    ensures Run(Initial, xs).state.dragFrames >= DRAG_ACTIVATE_FRAMES <==>
      |xs| >= DRAG_ACTIVATE_FRAMES &&
      forall i :: |xs| - DRAG_ACTIVATE_FRAMES <= i < |xs| ==> Shows(xs[i], FistGesture)
  {
    CounterIsTrailingRun(xs, FistGesture);
    TrailingAtLeast(xs, FistGesture, DRAG_ACTIVATE_FRAMES);
  }

  /** Pattern twice, one miss, pattern three times: scroll mode first holds on
      the sixth frame, not on the fifth. */
  lemma DebounceExample(xs: seq<Input>)
    requires |xs| == 6
    requires Shows(xs[0], ScrollGesture) && Shows(xs[1], ScrollGesture)
    requires !Shows(xs[2], ScrollGesture)
    requires Shows(xs[3], ScrollGesture) && Shows(xs[4], ScrollGesture) && Shows(xs[5], ScrollGesture)
    ensures forall k :: 0 <= k < 6 ==> !ScrollMode(Run(Initial, xs[..k]).state)
    ensures ScrollMode(Run(Initial, xs).state)
  {
    forall k | 0 <= k < 6
      ensures !ScrollMode(Run(Initial, xs[..k]).state)
    {
      ScrollModeIffLastThree(xs[..k]);
      if k >= 3 {
        assert xs[..k][2] == xs[2];
      }
    }
    ScrollModeIffLastThree(xs);
  }

  /** Button events alternate press, release, press, ...; the button is held
      exactly when an odd number of them has been emitted. */
  predicate Alternating(e: seq<Intent>) {
    forall j :: 0 <= j < |e| ==> e[j] == if j % 2 == 0 then MouseDown else MouseUp
  }

  /** Appending the button events of one frame, which are exactly the change
      of the button from `held` to `held'`, keeps the events alternating. */
  lemma AlternatingExtend(e: seq<Intent>, held: bool, held': bool, step: seq<Intent>)
    requires Alternating(e) && (held <==> |e| % 2 == 1)
    requires step == if held == held' then [] else if held then [MouseUp] else [MouseDown]
    ensures Alternating(e + step) && (held' <==> |e + step| % 2 == 1)
  {
  }

  lemma {:induction false} ButtonsAlternate(xs: seq<Input>)
    ensures var t := Run(Initial, xs);
      var e := Keep(t.intents, Buttons);
      Alternating(e) && (t.state.dragging <==> |e| % 2 == 1)
    decreases |xs|
  {
    if xs != [] {
      var front := xs[..|xs| - 1];
      ButtonsAlternate(front);
      var t := Run(Initial, front);
      var o := Next(t.state, xs[|xs| - 1]);
      assert Run(Initial, xs) == Trace(o.state, t.intents + o.intents);
      StepButtons(t.state, xs[|xs| - 1]);
      KeepAppend(t.intents, o.intents, Buttons);
      AlternatingExtend(Keep(t.intents, Buttons), t.state.dragging, o.state.dragging, Keep(o.intents, Buttons));
    }
  }

  /** Presses minus releases is 1 while the button is held and 0 otherwise. */
  lemma {:induction false} PressesMinusReleases(xs: seq<Input>)
    ensures var t := Run(Initial, xs);
      |Keep(t.intents, Downs)| - |Keep(t.intents, Ups)| == if t.state.dragging then 1 else 0
    decreases |xs|
  {
    if xs != [] {
      var front := xs[..|xs| - 1];
      PressesMinusReleases(front);
      var t := Run(Initial, front);
      var o := Next(t.state, xs[|xs| - 1]);
      StepDrag(t.state, xs[|xs| - 1]);
      KeepAppend(t.intents, o.intents, Downs);
      KeepAppend(t.intents, o.intents, Ups);
    }
  }

  /** The frame holds a pinch with the finger vector `f`: a hand is seen with
      exactly those fingers up, index and middle among them, and the two tips
      closer than the click distance. The landmarks may differ from frame to
      frame. */
  predicate HoldsPinch(inp: Input, f: seq<int>)
  {
    inp.hand.Some? && Fingers(inp) == f && f[1] == 1 && f[2] == 1 &&
    Pinched(inp.hand.value[INDEX_TIP], inp.hand.value[MIDDLE_TIP])
  }

  /** After a click with the finger vector `f`, as long as the pinch is held:
      the button is up, and either the latch is closed or scroll mode has taken
      over (the pinch is then the scroll pattern). */
  predicate Latched(s: State, f: seq<int>)
    requires |f| == 5
  {
    f[1] == 1 && f[2] == 1 && !s.dragging &&
    (s.clickDown || (ScrollPattern(f) && ScrollMode(s)))
  }

  /** A click closes the latch, and a closed latch lets a held pinch click no more. */
  lemma ClickLatches(s: State, inp: Input, f: seq<int>)
    requires HoldsPinch(inp, f)
    ensures var o := Next(s, inp);
      (Keep(o.intents, Clicks) != [] ==> Latched(o.state, f)) &&
      (Latched(s, f) ==> Keep(o.intents, Clicks) == [] && Latched(o.state, f))
  {
    StepClick(s, inp);
    GestureShapes(f);
  }

  /** Holding one pinch with one finger vector over any number of frames,
      however the landmarks jitter, clicks at most once. */
  lemma {:induction false} HeldPinchClicksOnce(s: State, f: seq<int>, xs: seq<Input>)
    requires forall i :: 0 <= i < |xs| ==> HoldsPinch(xs[i], f)
    ensures var t := Run(s, xs);
      |Keep(t.intents, Clicks)| <= 1 &&
      (|Keep(t.intents, Clicks)| == 1 ==> |f| == 5 && Latched(t.state, f))
    decreases |xs|
  {
    if xs != [] {
      var front := xs[..|xs| - 1];
      HeldPinchClicksOnce(s, f, front);
      var t := Run(s, front);
      var o := Next(t.state, xs[|xs| - 1]);
      ClickLatches(t.state, xs[|xs| - 1], f);
      KeepAppend(t.intents, o.intents, Clicks);
    }
  }

  /** The frame pinches: a hand is seen with index and middle up and the two
      tips closer than the click distance; the other three fingers are free. */
  predicate PinchFrame(inp: Input)
  {
    inp.hand.Some? && Fingers(inp)[1] == 1 && Fingers(inp)[2] == 1 &&
    Pinched(inp.hand.value[INDEX_TIP], inp.hand.value[MIDDLE_TIP])
  }

  /** A pinching frame: the scroll counter follows the pattern; the latch
      afterwards is closed exactly when the frame is out of scroll mode and the
      button was up; a click happens exactly when that is so and the latch was
      open; the button stays held only while the hand is not open. */
  lemma PinchStep(s: State, inp: Input)
    requires PinchFrame(inp)
    ensures var o := Next(s, inp);
      var f := Fingers(inp);
      o.state.scrollFrames == (if ScrollPattern(f) then s.scrollFrames + 1 else 0) &&
      o.state.clickDown == (!ScrollMode(o.state) && !s.dragging) &&
      Keep(o.intents, Clicks) == (if !ScrollMode(o.state) && !s.dragging && !s.clickDown then [Click] else []) &&
      o.state.dragging == (s.dragging && !HandOpen(f))
  {
    StepClick(s, inp);
    StepDrag(s, inp);
    GestureShapes(Fingers(inp));
  }

  /** Pinching over any number of frames, none of them showing the scroll
      pattern, clicks at most once, whatever the thumb, ring and pinky do and
      however the landmarks jitter. */
  lemma {:induction false} PinchClicksOnce(s: State, xs: seq<Input>)
    requires forall i :: 0 <= i < |xs| ==> PinchFrame(xs[i]) && !ScrollPattern(Fingers(xs[i]))
    ensures var t := Run(s, xs);
      |Keep(t.intents, Clicks)| <= 1 &&
      (|Keep(t.intents, Clicks)| == 1 ==> t.state.clickDown && !t.state.dragging)
    decreases |xs|
  {
    if xs != [] {
      var front := xs[..|xs| - 1];
      PinchClicksOnce(s, front);
      var t := Run(s, front);
      var o := Next(t.state, xs[|xs| - 1]);
      PinchStep(t.state, xs[|xs| - 1]);
      KeepAppend(t.intents, o.intents, Clicks);
    }
  }

  /** `PinchStep` for the last frame of a run. */
  lemma RunPinch(s0: State, xs: seq<Input>)
    requires xs != [] && PinchFrame(xs[|xs| - 1])
    ensures var before := Run(s0, xs[..|xs| - 1]).state;
      var after := Run(s0, xs);
      var f := Fingers(xs[|xs| - 1]);
      after.state.scrollFrames == (if ScrollPattern(f) then before.scrollFrames + 1 else 0) &&
      after.state.clickDown == (!ScrollMode(after.state) && !before.dragging) &&
      Keep(after.intents, Clicks) == Keep(Run(s0, xs[..|xs| - 1]).intents, Clicks) +
        (if !ScrollMode(after.state) && !before.dragging && !before.clickDown then [Click] else []) &&
      after.state.dragging == (before.dragging && !HandOpen(f))
  {
    RunKeep(s0, xs, Clicks);
    PinchStep(Run(s0, xs[..|xs| - 1]).state, xs[|xs| - 1]);
  }

  /** A pinch that clicks on its first frame and then shows the scroll pattern
      for up to three frames: one click, the latch closed until scroll mode
      starts on the third pattern frame, which opens it. */
  lemma {:induction false} PinchIntoScroll(xs: seq<Input>)
    requires 1 <= |xs| <= 4
    requires PinchFrame(xs[0]) && !ScrollPattern(Fingers(xs[0]))
    requires forall i :: 1 <= i < |xs| ==> PinchFrame(xs[i]) && ScrollPattern(Fingers(xs[i]))
    ensures var t := Run(Initial, xs);
      Keep(t.intents, Clicks) == [Click] && t.state.scrollFrames == |xs| - 1 &&
      t.state.clickDown == (|xs| < 4) && !t.state.dragging
    decreases |xs|
  {
    var front := xs[..|xs| - 1];
    if |xs| == 1 {
      assert front == [];
    } else {
      assert forall i :: 1 <= i < |front| ==> front[i] == xs[i];
      PinchIntoScroll(front);
    }
    RunPinch(Initial, xs);
  }

  /** A pinch held while the ring finger goes up for three frames clicks twice:
      the first frame clicks, the three frames with the scroll pattern reach
      scroll mode, which opens the latch, and the fifth frame, out of the
      pattern again, clicks a second time. */
  lemma ScrollModeReopensLatch(xs: seq<Input>)
    requires |xs| == 5
    requires PinchFrame(xs[0]) && PinchFrame(xs[1]) && PinchFrame(xs[2]) && PinchFrame(xs[3]) && PinchFrame(xs[4])
    requires !ScrollPattern(Fingers(xs[0])) && !ScrollPattern(Fingers(xs[4]))
    requires ScrollPattern(Fingers(xs[1])) && ScrollPattern(Fingers(xs[2])) && ScrollPattern(Fingers(xs[3]))
    ensures Keep(Run(Initial, xs[..1]).intents, Clicks) == [Click]
    ensures Keep(Run(Initial, xs[..4]).intents, Clicks) == [Click]
    ensures Keep(Run(Initial, xs).intents, Clicks) == [Click, Click]
  {
    var p1, p4 := xs[..1], xs[..4];
    assert p1[0] == xs[0];
    PinchIntoScroll(p1);
    assert p4[0] == xs[0] && p4[1] == xs[1] && p4[2] == xs[2] && p4[3] == xs[3];
    PinchIntoScroll(p4);
    PinchReclicks(Initial, xs);
  }

  /** A pinching frame out of the scroll pattern, after a run that left the
      latch open and the button up, clicks. */
  lemma PinchReclicks(s0: State, xs: seq<Input>)
    requires xs != [] && PinchFrame(xs[|xs| - 1]) && !ScrollPattern(Fingers(xs[|xs| - 1]))
    requires !Run(s0, xs[..|xs| - 1]).state.clickDown && !Run(s0, xs[..|xs| - 1]).state.dragging
    ensures Keep(Run(s0, xs).intents, Clicks) == Keep(Run(s0, xs[..|xs| - 1]).intents, Clicks) + [Click]
  {
    RunPinch(s0, xs);
  }

  /** The index-tip height of a hand frame. */
  function TipY(inp: Input): int
    requires inp.hand.Some?
  {
    inp.hand.value[INDEX_TIP].y
  }

  /** The actions of a run of kind `k` are those of the run without its last
      frame followed by those of the last frame. */
  lemma RunKeep(s: State, xs: seq<Input>, k: Kind)
    requires xs != []
    ensures var t := Run(s, xs[..|xs| - 1]);
      Run(s, xs).state == Next(t.state, xs[|xs| - 1]).state &&
      Keep(Run(s, xs).intents, k) == Keep(t.intents, k) + Keep(Next(t.state, xs[|xs| - 1]).intents, k)
  {
    var t := Run(s, xs[..|xs| - 1]);
    KeepAppend(t.intents, Next(t.state, xs[|xs| - 1]).intents, k);
  }

  /** One frame holding the scroll pattern: the counter goes up by one; below
      the activation count nothing scrolls and there is no reference; from it
      on, the frame scrolls by -15 times the movement from the reference (the
      tip itself on the first scrolling frame) when that movement exceeds the
      deadzone. */
  lemma ScrollFrameStep(s: State, inp: Input)
    requires Shows(inp, ScrollGesture)
    ensures var o := Next(s, inp);
      var y := TipY(inp);
      var ref := if s.prevScrollY.Some? then s.prevScrollY.value else y;
      var scrolls := Keep(o.intents, Scrolls);
      o.state.scrollFrames == s.scrollFrames + 1 &&
      (o.state.scrollFrames < SCROLL_ACTIVATE_FRAMES ==> o.state.prevScrollY == None && scrolls == []) &&
      (o.state.scrollFrames >= SCROLL_ACTIVATE_FRAMES && Abs(y - ref) > SCROLL_DEADZONE ==>
        o.state.prevScrollY == Some(y) && scrolls == [ScrollBy(-(y - ref) * SCROLL_SCALE)]) &&
      (o.state.scrollFrames >= SCROLL_ACTIVATE_FRAMES && Abs(y - ref) <= SCROLL_DEADZONE ==>
        o.state.prevScrollY == Some(ref) && scrolls == [])
  {
    StepScroll(s, inp);
  }

  /** The scroll reference a run's last frame measures against: the one the
      run had before it, or the frame's own tip height. */
  function RunRef(s0: State, xs: seq<Input>): int
    requires xs != [] && Shows(xs[|xs| - 1], ScrollGesture)
  {
    var before := Run(s0, xs[..|xs| - 1]).state;
    if before.prevScrollY.Some? then before.prevScrollY.value else TipY(xs[|xs| - 1])
  }

  /** The last frame of a run, below the activation count: no reference and
      no scroll. */
  lemma ScrollRunWarming(s0: State, xs: seq<Input>)
    requires xs != [] && Shows(xs[|xs| - 1], ScrollGesture)
    requires Run(s0, xs).state.scrollFrames < SCROLL_ACTIVATE_FRAMES
    ensures Run(s0, xs).state.prevScrollY == None
    ensures Keep(Run(s0, xs).intents, Scrolls) == Keep(Run(s0, xs[..|xs| - 1]).intents, Scrolls)
  {
    RunKeep(s0, xs, Scrolls);
    ScrollFrameStep(Run(s0, xs[..|xs| - 1]).state, xs[|xs| - 1]);
  }

  /** The last frame of a run in scroll mode, moved past the deadzone: one
      scroll by -15 times the movement, and the reference moves to the tip. */
  lemma ScrollRunMoved(s0: State, xs: seq<Input>)
    requires xs != [] && Shows(xs[|xs| - 1], ScrollGesture)
    requires Run(s0, xs).state.scrollFrames >= SCROLL_ACTIVATE_FRAMES
    requires Abs(TipY(xs[|xs| - 1]) - RunRef(s0, xs)) > SCROLL_DEADZONE
    ensures Run(s0, xs).state.prevScrollY == Some(TipY(xs[|xs| - 1]))
    ensures Keep(Run(s0, xs).intents, Scrolls) ==
      Keep(Run(s0, xs[..|xs| - 1]).intents, Scrolls) + [ScrollBy(-(TipY(xs[|xs| - 1]) - RunRef(s0, xs)) * SCROLL_SCALE)]
  {
    RunKeep(s0, xs, Scrolls);
    ScrollFrameStep(Run(s0, xs[..|xs| - 1]).state, xs[|xs| - 1]);
  }

  /** The last frame of a run in scroll mode, within the deadzone: no scroll,
      and the reference stays. */
  lemma ScrollRunStill(s0: State, xs: seq<Input>)
    requires xs != [] && Shows(xs[|xs| - 1], ScrollGesture)
    requires Run(s0, xs).state.scrollFrames >= SCROLL_ACTIVATE_FRAMES
    requires Abs(TipY(xs[|xs| - 1]) - RunRef(s0, xs)) <= SCROLL_DEADZONE
    ensures Run(s0, xs).state.prevScrollY == Some(RunRef(s0, xs))
    ensures Keep(Run(s0, xs).intents, Scrolls) == Keep(Run(s0, xs[..|xs| - 1]).intents, Scrolls)
  {
    RunKeep(s0, xs, Scrolls);
    ScrollFrameStep(Run(s0, xs[..|xs| - 1]).state, xs[|xs| - 1]);
  }

  /** One more frame holding the scroll pattern in a run: the counter goes up
      by one, and the run's scrolls and reference follow `ScrollFrameStep`. */
  lemma ScrollRunStep(s0: State, xs: seq<Input>)
    requires xs != [] && Shows(xs[|xs| - 1], ScrollGesture)
    ensures var before := Run(s0, xs[..|xs| - 1]);
      var after := Run(s0, xs);
      var y := TipY(xs[|xs| - 1]);
      var ref := if before.state.prevScrollY.Some? then before.state.prevScrollY.value else y;
      after.state.scrollFrames == before.state.scrollFrames + 1 &&
      (after.state.scrollFrames < SCROLL_ACTIVATE_FRAMES ==>
        after.state.prevScrollY == None &&
        Keep(after.intents, Scrolls) == Keep(before.intents, Scrolls)) &&
      (after.state.scrollFrames >= SCROLL_ACTIVATE_FRAMES && Abs(y - ref) > SCROLL_DEADZONE ==>
        after.state.prevScrollY == Some(y) &&
        Keep(after.intents, Scrolls) == Keep(before.intents, Scrolls) + [ScrollBy(-(y - ref) * SCROLL_SCALE)]) &&
      (after.state.scrollFrames >= SCROLL_ACTIVATE_FRAMES && Abs(y - ref) <= SCROLL_DEADZONE ==>
        after.state.prevScrollY == Some(ref) &&
        Keep(after.intents, Scrolls) == Keep(before.intents, Scrolls))
  {
    assert RunRef(s0, xs) == (var before := Run(s0, xs[..|xs| - 1]).state;
      if before.prevScrollY.Some? then before.prevScrollY.value else TipY(xs[|xs| - 1]));
    CounterStep(s0, xs);
    if Run(s0, xs).state.scrollFrames < SCROLL_ACTIVATE_FRAMES {
      ScrollRunWarming(s0, xs);
    } else if Abs(TipY(xs[|xs| - 1]) - RunRef(s0, xs)) > SCROLL_DEADZONE {
      ScrollRunMoved(s0, xs);
    } else {
      ScrollRunStill(s0, xs);
    }
  }

  /** A scroll-pattern frame at the end of a run raises the scroll counter by one. */
  lemma CounterStep(s0: State, xs: seq<Input>)
    requires xs != [] && Shows(xs[|xs| - 1], ScrollGesture)
    ensures Run(s0, xs).state.scrollFrames == Run(s0, xs[..|xs| - 1]).state.scrollFrames + 1
  {
    ScrollFrameStep(Run(s0, xs[..|xs| - 1]).state, xs[|xs| - 1]);
  }

  /** The scroll pattern held for three frames from the start, the last with
      the index tip at height y: nothing has scrolled, scroll mode has just
      started and the reference is y. */
  lemma ScrollWarmUp(xs: seq<Input>)
    requires |xs| == 3
    requires forall i :: 0 <= i < 3 ==> Shows(xs[i], ScrollGesture)
    ensures var t := Run(Initial, xs);
      t.state.scrollFrames == 3 && t.state.prevScrollY == Some(TipY(xs[2])) &&
      Keep(t.intents, Scrolls) == []
  {
    var p1, p2 := xs[..1], xs[..2];
    assert p1[..0] == [] && p2[..1] == p1 && xs[..2] == p2;
    assert Shows(p1[0], ScrollGesture) && Shows(p2[1], ScrollGesture) && Shows(xs[2], ScrollGesture);
    ScrollRunStep(Initial, p1);
    ScrollRunStep(Initial, p2);
    ScrollRunStep(Initial, xs);
  }

  /** Four frames of the worked example: the fourth scrolls by -450 and
      moves the reference to 160. */
  lemma ScrollFourFrames(xs: seq<Input>)
    requires |xs| == 4
    requires Shows(xs[0], ScrollGesture) && Shows(xs[1], ScrollGesture)
    requires Shows(xs[2], ScrollGesture) && TipY(xs[2]) == 130
    requires Shows(xs[3], ScrollGesture) && TipY(xs[3]) == 160
    ensures var t := Run(Initial, xs);
      t.state.scrollFrames == 4 && t.state.prevScrollY == Some(160) &&
      Keep(Run(Initial, xs[..3]).intents, Scrolls) == [] &&
      Keep(t.intents, Scrolls) == [ScrollBy(-450)]
  {
    ScrollWarmUp(xs[..3]);
    ScrollRunStep(Initial, xs);
  }

  /** Five frames holding the scroll pattern with the index tip at heights
      100, 105, 130, 160, 200: nothing scrolls on the first three frames (scroll
      mode starts on the third, which sets the reference to 130), the fourth
      scrolls by -450 and the fifth by -600. */
  lemma ScrollExample(xs: seq<Input>)
    requires |xs| == 5
    requires Shows(xs[0], ScrollGesture) && TipY(xs[0]) == 100
    requires Shows(xs[1], ScrollGesture) && TipY(xs[1]) == 105
    requires Shows(xs[2], ScrollGesture) && TipY(xs[2]) == 130
    requires Shows(xs[3], ScrollGesture) && TipY(xs[3]) == 160
    requires Shows(xs[4], ScrollGesture) && TipY(xs[4]) == 200
    ensures Keep(Run(Initial, xs[..3]).intents, Scrolls) == []
    ensures Keep(Run(Initial, xs[..4]).intents, Scrolls) == [ScrollBy(-450)]
    ensures Keep(Run(Initial, xs).intents, Scrolls) == [ScrollBy(-450), ScrollBy(-600)]
  {
    var p4 := xs[..4];
    assert p4[..3] == xs[..3];
    ScrollFourFrames(p4);
    ScrollRunStep(Initial, xs);
  }
}
