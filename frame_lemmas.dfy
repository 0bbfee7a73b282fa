/** What one frame of the controller does, stated against the conditions the
    loop body of virtual_mouse.py tests: which actions a frame emits, when, and
    how each piece of the carried state moves. */
module FrameLemmas {
  import opened Wrappers
  import opened Landmarks
  import opened Gestures
  import opened Controller

  /** The kinds of action a trace is filtered by. */
  datatype Kind = Scrolls | Clicks | Downs | Ups | Buttons

  predicate Matches(i: Intent, k: Kind) {
    match k
    case Scrolls => i.ScrollBy?
    case Clicks => i == Click
    case Downs => i == MouseDown
    case Ups => i == MouseUp
    case Buttons => i == MouseDown || i == MouseUp
  }

  /** The actions of `acts` of kind `k`, in order. */
  function Keep(acts: seq<Intent>, k: Kind): (r: seq<Intent>)
    ensures |r| <= |acts|
    decreases |acts|
  {
    if acts == [] then []
    else (if Matches(acts[0], k) then [acts[0]] else []) + Keep(acts[1..], k)
  }

  lemma {:induction false} KeepAppend(a: seq<Intent>, b: seq<Intent>, k: Kind)
    ensures Keep(a + b, k) == Keep(a, k) + Keep(b, k)
    decreases |a|
  {
    if a == [] {
      assert a + b == b;
    } else {
      var head := if Matches(a[0], k) then [a[0]] else [];
      calc {
        Keep(a + b, k);
        { assert (a + b)[0] == a[0]; assert (a + b)[1..] == a[1..] + b; }
        head + Keep(a[1..] + b, k);
        { KeepAppend(a[1..], b, k); }
        head + (Keep(a[1..], k) + Keep(b, k));
        (head + Keep(a[1..], k)) + Keep(b, k);
        Keep(a, k) + Keep(b, k);
      }
    }
  }

  /** `Keep` of a block that issues `x` when `issued` holds. */
  function Emit(issued: bool, x: Intent, k: Kind): seq<Intent>
  {
    if issued && Matches(x, k) then [x] else []
  }

  lemma KeepOpt(issued: bool, x: Intent, k: Kind)
    ensures Keep(Opt(issued, x), k) == Emit(issued, x, k)
  {
    if issued {
      assert [x][1..] == [];
    }
  }

  /** The fingers of a well-formed hand frame. */
  function Fingers(inp: Input): (f: seq<int>)
    requires inp.hand.Some?
    ensures IsFingerVector(f)
  {
    FingerState(inp.hand.value)
  }

  /** The y of the index tip against the scroll reference (the tip itself when
      there is none). */
  function ScrollDelta(s: State, lm: Hand): int
  {
    lm[INDEX_TIP].y - (if s.prevScrollY.Some? then s.prevScrollY.value else lm[INDEX_TIP].y)
  }

  /** The click condition as the loop body states it: click evaluation enabled
      (not in scroll mode, not dragging, index and middle up) and the two tips
      closer than the click distance. */
  predicate PinchArmed(s: State, inp: Input)
  {
    inp.hand.Some? &&
    ClickEnabled(Fingers(inp), ScrollMode(Next(s, inp).state), s.dragging) &&
    Pinched(inp.hand.value[INDEX_TIP], inp.hand.value[MIDDLE_TIP])
  }

  /** Filtering the actions of a hand frame filters each block separately. */
  lemma KeepFrameIntents(track: Intent, scroll: Option<int>, clicked: bool, down: bool, up: bool, k: Kind)
    ensures Keep(FrameIntents(track, scroll, clicked, down, up), k) ==
      Emit(true, track, k)
      + Emit(scroll.Some?, ScrollBy(if scroll.Some? then scroll.value else 0), k)
      + Emit(clicked, Click, k)
      + (Emit(down, MouseDown, k) + Emit(up, MouseUp, k))
  {
    var t := Opt(true, track);
    var a := Opt(scroll.Some?, ScrollBy(if scroll.Some? then scroll.value else 0));
    var c := Opt(clicked, Click);
    var d := Opt(down, MouseDown);
    var u := Opt(up, MouseUp);
    assert FrameIntents(track, scroll, clicked, down, up) == t + a + c + (d + u);
    KeepAppend(t + a + c, d + u, k);
    KeepAppend(d, u, k);
    KeepAppend(t + a, c, k);
    KeepAppend(t, a, k);
    KeepOpt(true, track, k);
    KeepOpt(scroll.Some?, ScrollBy(if scroll.Some? then scroll.value else 0), k);
    KeepOpt(clicked, Click, k);
    KeepOpt(down, MouseDown, k);
    KeepOpt(up, MouseUp, k);
  }

  /** The intents of a hand frame, filtered block by block. */
  lemma HandIntents(s: State, inp: Input, k: Kind)
    requires inp.hand.Some?
    ensures var o := Next(s, inp);
      var lm := inp.hand.value;
      var sc := ScrollStep(s.prevScrollY, ScrollMode(o.state), lm[INDEX_TIP].y);
      var dg := DragStep(s.dragging, o.state.dragFrames, HandOpen(Fingers(inp)));
      Keep(o.intents, k) ==
        Emit(true, Track(lm[INDEX_TIP].x, lm[INDEX_TIP].y), k)
        + Emit(sc.amount.Some?, ScrollBy(if sc.amount.Some? then sc.amount.value else 0), k)
        + Emit(PinchArmed(s, inp) && !s.clickDown, Click, k)
        + (Emit(dg.down, MouseDown, k) + Emit(dg.up, MouseUp, k))
  {
    var o := Next(s, inp);
    var lm := inp.hand.value;
    var sc := ScrollStep(s.prevScrollY, ScrollMode(o.state), lm[INDEX_TIP].y);
    var dg := DragStep(s.dragging, o.state.dragFrames, HandOpen(Fingers(inp)));
    KeepFrameIntents(Track(lm[INDEX_TIP].x, lm[INDEX_TIP].y), sc.amount, PinchArmed(s, inp) && !s.clickDown,
                     dg.down, dg.up, k);
  }

  /** Scrolling: a frame scrolls only in scroll mode and only when the index
      tip has moved more than the deadzone from the reference; the amount is
      -15 times the movement, never zero and of the opposite sign. The
      reference is dropped outside scroll mode, set to the tip on the first
      scrolling frame, and moved only by a scroll. */
  lemma StepScroll(s: State, inp: Input)
    ensures var o := Next(s, inp);
      inp.hand.None? ==> Keep(o.intents, Scrolls) == [] && o.state.prevScrollY == None
    ensures inp.hand.Some? ==>
      var o := Next(s, inp);
      var lm := inp.hand.value;
      var dy := ScrollDelta(s, lm);
      var scrolls := Keep(o.intents, Scrolls);
      (scrolls != [] <==> ScrollMode(o.state) && Abs(dy) > SCROLL_DEADZONE) &&
      (scrolls != [] ==>
        scrolls == [ScrollBy(-dy * SCROLL_SCALE)] &&
        scrolls[0].amount != 0 && (scrolls[0].amount < 0 <==> dy > 0) &&
        o.state.prevScrollY == Some(lm[INDEX_TIP].y)) &&
      (!ScrollMode(o.state) ==> o.state.prevScrollY == None) &&
      (ScrollMode(o.state) && scrolls == [] ==>
        o.state.prevScrollY == (if s.prevScrollY.Some? then s.prevScrollY else Some(lm[INDEX_TIP].y)))
  {
    if inp.hand.Some? {
      HandIntents(s, inp, Scrolls);
    }
  }

  /** Clicking: a frame clicks exactly when the pinch is armed and the latch
      was open; the latch afterwards is exactly "pinch armed", so it is closed
      by a click and opened again by a released pinch or a disabled click; the
      click clock moves only on a click; the label of a click is DOUBLE CLICK
      exactly when it follows the previous click within 350 ms. */
  lemma StepClick(s: State, inp: Input)
    ensures var o := Next(s, inp);
      var clicked := PinchArmed(s, inp) && !s.clickDown;
      Keep(o.intents, Clicks) == (if clicked then [Click] else []) &&
      o.state.clickDown == PinchArmed(s, inp) &&
      o.state.lastClickTime == (if clicked then inp.now else s.lastClickTime) &&
      (o.mode == DoubleClickLabel <==> clicked && inp.now - s.lastClickTime <= DOUBLE_CLICK_THRESHOLD_MS) &&
      (o.mode == ClickLabel <==> clicked && inp.now - s.lastClickTime > DOUBLE_CLICK_THRESHOLD_MS)
  {
    if inp.hand.Some? {
      HandIntents(s, inp, Clicks);
    }
  }

  /** The frame presses the button. */
  predicate Presses(s: State, inp: Input)
  {
    inp.hand.Some? && Next(s, inp).state.dragFrames >= DRAG_ACTIVATE_FRAMES && !s.dragging
  }

  /** The frame releases the button. */
  predicate Releases(s: State, inp: Input)
  {
    s.dragging && (inp.hand.None? || HandOpen(Fingers(inp)))
  }

  /** With the wall clock past the double-click window, as a clock counting
      from the epoch always is, the first click of a session is labelled CLICK. */
  lemma FirstClickIsSingle(inp: Input)
    requires inp.now > DOUBLE_CLICK_THRESHOLD_MS
    ensures Next(Initial, inp).mode != DoubleClickLabel
  {
    StepClick(Initial, inp);
  }

  /** Dragging: the button goes down only once the fist has been held for the
      activation count and it is not already down; it comes up only while held
      and either the hand is open or no hand is seen; no frame does both. */
  lemma StepDrag(s: State, inp: Input)
    ensures var o := Next(s, inp);
      Keep(o.intents, Downs) == Opt(Presses(s, inp), MouseDown) &&
      Keep(o.intents, Ups) == Opt(Releases(s, inp), MouseUp) &&
      !(Presses(s, inp) && Releases(s, inp)) &&
      o.state.dragging == ((s.dragging || Presses(s, inp)) && !Releases(s, inp))
  {
    if inp.hand.Some? {
      HandIntents(s, inp, Downs);
      HandIntents(s, inp, Ups);
      GestureShapes(Fingers(inp));
    }
  }

  /** The button events of a frame are exactly the change of `dragging`, and
      a hand frame is labelled DRAG exactly when the button is held at its end. */
  lemma StepButtons(s: State, inp: Input)
    ensures var o := Next(s, inp);
      Keep(o.intents, Buttons) ==
        (if s.dragging == o.state.dragging then [] else if s.dragging then [MouseUp] else [MouseDown]) &&
      (inp.hand.Some? ==> (o.mode == DragLabel <==> o.state.dragging))
  {
    if inp.hand.Some? {
      HandIntents(s, inp, Buttons);
      GestureShapes(Fingers(inp));
    }
  }

  /** Modes: at the end of a hand frame scroll mode and dragging never hold
      together, and a click happens only in plain move mode. The label is
      SCROLL exactly in scroll mode, MOVE exactly when nothing else applies. */
  lemma StepModes(s: State, inp: Input)
    requires inp.hand.Some?
    ensures var o := Next(s, inp);
      var clicked := Keep(o.intents, Clicks) != [];
      !(ScrollMode(o.state) && o.state.dragging) &&
      (clicked ==> !ScrollMode(o.state) && !s.dragging && !o.state.dragging) &&
      (o.mode == ScrollLabel <==> ScrollMode(o.state)) &&
      (o.mode == MoveLabel <==> !ScrollMode(o.state) && !o.state.dragging && !clicked)
  {
    GestureShapes(Fingers(inp));
    HandIntents(s, inp, Clicks);
  }

  /** A frame without a hand releases a held button, labels nothing, resets
      every counter, latch and reference, and keeps the click clock. */
  lemma StepNoHand(s: State, now: int)
    ensures var o := Next(s, Input(None, now));
      o.state == Initial.(lastClickTime := s.lastClickTime) &&
      o.intents == (if s.dragging then [MouseUp] else []) &&
      o.mode == NoLabel
  {
  }
}
