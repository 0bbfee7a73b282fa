/** The per-frame mode and debounce state machine of virtual_mouse.py: the
    module-level globals become a `State` record (and, for the imperative
    rendering, the fields of `Session`), and one pass through the capture loop
    becomes `Next`, which returns the new state, the mouse actions the frame
    asks for and the mode label shown on screen. */
module Controller {
  import opened Wrappers
  import opened Landmarks
  import opened Gestures

  const SCROLL_DEADZONE: int := 2
  const SCROLL_SCALE: int := 15
  /** The double-click window, 0.35 s, in the millisecond clock of the model. */
  const DOUBLE_CLICK_THRESHOLD_MS: int := 350
  const SCROLL_ACTIVATE_FRAMES: nat := 3
  const DRAG_ACTIVATE_FRAMES: nat := 3

  /** What a frame asks the mouse to do. `Track(x, y)` is the cursor following
      the index fingertip at frame pixel (x, y); the mapping of that point to
      the screen is not part of this model. */
  datatype Intent = Track(x: int, y: int) | ScrollBy(amount: int) | Click | MouseDown | MouseUp

  /** The on-screen mode text: empty, "MOVE", "SCROLL", "CLICK", "DOUBLE CLICK"
      or "DRAG". */
  datatype Label = NoLabel | MoveLabel | ScrollLabel | ClickLabel | DoubleClickLabel | DragLabel

  /** The state carried from frame to frame. */
  datatype State = State(
    scrollFrames: nat,          // consecutive frames showing the scroll pattern
    dragFrames: nat,            // consecutive frames showing a fist
    prevScrollY: Option<int>,   // y reference for the next scroll delta
    clickDown: bool,            // the click latch
    dragging: bool,             // the mouse button is held down
    lastClickTime: int)         // time of the last click, in milliseconds since the epoch

  const Initial: State := State(0, 0, None, false, false, 0)

  /** One captured frame: the landmarks of the hand, if one was seen, and the
      wall clock in milliseconds since the epoch. The click clock starts at 0,
      so on a real clock the first click is never within the double-click window. */
  datatype Input = Input(hand: Option<Hand>, now: int)

  datatype Output = Output(state: State, intents: seq<Intent>, mode: Label)

  /** Scroll mode holds on a frame whose updated counter reached the threshold. */
  predicate ScrollMode(s: State) {
    s.scrollFrames >= SCROLL_ACTIVATE_FRAMES
  }

  /** Python's `abs`. */
  function Abs(x: int): (r: nat)
    ensures r == x || r == -x
  {
    if x < 0 then -x else x
  }

  /** A debounce counter: one more on a frame showing the gesture, 0 otherwise. */
  function Debounce(count: nat, shown: bool): nat
  {
    if shown then count + 1 else 0
  }

  /** The outcome of the scroll block: the new reference height and the
      amount scrolled, if a scroll was emitted. */
  datatype ScrollResult = ScrollResult(reference: Option<int>, amount: Option<int>)

  /** The scroll step for the index-tip height `y`. */
  function ScrollStep(prev: Option<int>, scrollMode: bool, y: int): (r: ScrollResult)
    ensures !scrollMode ==> r == ScrollResult(None, None)
    ensures scrollMode ==>
      var dy := y - (if prev.Some? then prev.value else y);
      (r.amount.Some? <==> Abs(dy) > SCROLL_DEADZONE) &&
      (r.amount.Some? ==> r.amount.value == -dy * SCROLL_SCALE && r.reference == Some(y)) &&
      (r.amount.None? ==> r.reference == Some(if prev.Some? then prev.value else y))
    ensures r.amount.Some? ==> r.amount.value != 0
    ensures r.amount.Some? ==> (r.amount.value < 0 <==> y > prev.value)
  {
    if !scrollMode then ScrollResult(None, None)
    else
      var ref := if prev.Some? then prev.value else y;
      var dy := y - ref;
      if Abs(dy) > SCROLL_DEADZONE then ScrollResult(Some(y), Some(-dy * SCROLL_SCALE))
      else ScrollResult(Some(ref), None)
  }

  /** Click evaluation is enabled: not scrolling, not dragging, index and middle up. */
  predicate ClickEnabled(f: seq<int>, scrollMode: bool, dragging: bool)
    requires |f| == 5
  {
    !scrollMode && f[1] == 1 && f[2] == 1 && !dragging
  }

  /** The outcome of the click block: the new latch, whether a click was
      emitted and the new click clock. */
  datatype ClickResult = ClickResult(latch: bool, clicked: bool, lastClickTime: int)

  /** The click latch, where `armed` is "click enabled and fingertips pinched":
      an armed frame clicks only through an open latch, and a click closes the
      latch and stamps the clock; the latch stays closed while the frames stay
      armed and opens on the first frame that is not. */
  function ClickStep(clickDown: bool, lastClickTime: int, armed: bool, now: int): (r: ClickResult)
    ensures r.clicked <==> armed && !clickDown
    ensures r.clicked ==> r.latch && r.lastClickTime == now
    ensures !r.clicked ==> r.lastClickTime == lastClickTime
    ensures clickDown && armed ==> r.latch
    ensures !armed ==> !r.latch
  {
    var clicked := armed && !clickDown;
    ClickResult(armed, clicked, if clicked then now else lastClickTime)
  }

  /** The outcome of the drag block: the button state at the end of the
      frame, and whether a press and a release were emitted. */
  datatype DragResult = DragResult(dragging: bool, down: bool, up: bool)

  /** The drag step, from the button state at the start of the frame, the
      updated fist counter and whether the hand is open: the emitted events
      are exactly the change of the button; a press needs the button up and
      the fist held long enough; an open hand always ends with the button up,
      and otherwise the button is held iff it was or the fist is held long enough. */
  function DragStep(dragging: bool, dragFrames: nat, handOpen: bool): (r: DragResult)
    ensures (r.dragging != dragging) <==> (r.down != r.up)
    ensures r.down ==> !dragging && dragFrames >= DRAG_ACTIVATE_FRAMES
    ensures r.up ==> handOpen
    ensures handOpen ==> !r.dragging
    ensures !handOpen ==> !r.up && (r.dragging <==> dragging || dragFrames >= DRAG_ACTIVATE_FRAMES)
  {
    var down := dragFrames >= DRAG_ACTIVATE_FRAMES && !dragging;
    var up := handOpen && (dragging || down);
    DragResult((dragging || down) && !up, down, up)
  }

  /** The actions of a hand frame in the order the loop body issues them: the
      cursor, then a scroll, a click, a press and a release, each if decided. */
  function FrameIntents(track: Intent, scroll: Option<int>, clicked: bool, down: bool, up: bool): seq<Intent>
  {
    [track]
      + Opt(scroll.Some?, ScrollBy(if scroll.Some? then scroll.value else 0))
      + Opt(clicked, Click)
      + (Opt(down, MouseDown) + Opt(up, MouseUp))
  }

  /** The action `x` if it is issued, nothing otherwise. */
  function Opt(issued: bool, x: Intent): seq<Intent>
  {
    if issued then [x] else []
  }

  /** The label of a hand frame: a held button wins, then a click, then scroll mode. */
  function HandLabel(dragging: bool, clicked: bool, sinceLastClick: int, scrollMode: bool): (l: Label)
    ensures l != NoLabel
    ensures l == DragLabel <==> dragging
    ensures l == DoubleClickLabel <==> !dragging && clicked && sinceLastClick <= DOUBLE_CLICK_THRESHOLD_MS
    ensures l == ClickLabel <==> !dragging && clicked && sinceLastClick > DOUBLE_CLICK_THRESHOLD_MS
    ensures l == ScrollLabel <==> !dragging && !clicked && scrollMode
  {
    if dragging then DragLabel
    else if clicked then
      (if sinceLastClick <= DOUBLE_CLICK_THRESHOLD_MS then DoubleClickLabel else ClickLabel)
    else if scrollMode then ScrollLabel
    else MoveLabel
  }

  /** A frame in which no hand was seen: release a held button and reset
      everything except the click clock. */
  function NoHandStep(s: State): (o: Output)
    ensures o.state == Initial.(lastClickTime := s.lastClickTime)
    ensures (MouseUp in o.intents) <==> s.dragging
    ensures |o.intents| <= 1 && o.mode == NoLabel
  {
    Output(
      s.(dragging := false, clickDown := false, prevScrollY := None, scrollFrames := 0, dragFrames := 0),
      if s.dragging then [MouseUp] else [],
      NoLabel)
  }

  /** A frame in which a hand was seen. */
  function HandStep(s: State, lm: Hand, now: int): (o: Output)
    ensures o.state.scrollFrames == Debounce(s.scrollFrames, ScrollPattern(FingerState(lm)))
    ensures o.state.dragFrames == Debounce(s.dragFrames, HandClosed(FingerState(lm)))
    ensures |o.intents| >= 1 && o.intents[0] == Track(lm[INDEX_TIP].x, lm[INDEX_TIP].y)
    ensures o.mode != NoLabel
  {
    var f := FingerState(lm);
    var tip := lm[INDEX_TIP];
    var scrollFrames := Debounce(s.scrollFrames, ScrollPattern(f));
    var dragFrames := Debounce(s.dragFrames, HandClosed(f));
    var scrollMode := scrollFrames >= SCROLL_ACTIVATE_FRAMES;
    var sc := ScrollStep(s.prevScrollY, scrollMode, tip.y);
    var armed := ClickEnabled(f, scrollMode, s.dragging) && Pinched(tip, lm[MIDDLE_TIP]);
    var ck := ClickStep(s.clickDown, s.lastClickTime, armed, now);
    var dg := DragStep(s.dragging, dragFrames, HandOpen(f));
    Output(
      State(scrollFrames, dragFrames, sc.reference, ck.latch, dg.dragging, ck.lastClickTime),
      FrameIntents(Track(tip.x, tip.y), sc.amount, ck.clicked, dg.down, dg.up),
      HandLabel(dg.dragging, ck.clicked, now - s.lastClickTime, scrollMode))
  }

  /** One pass through the capture loop: a frame is labelled exactly when a
      hand is seen, and the click clock either stays or moves to the frame's time. */
  function Next(s: State, inp: Input): (o: Output)
    ensures o.mode == NoLabel <==> inp.hand.None?
    ensures o.state.lastClickTime == s.lastClickTime || o.state.lastClickTime == inp.now
  {
    match inp.hand
    case None => NoHandStep(s)
    case Some(lm) => HandStep(s, lm, inp.now)
  }

  /** Leaving the capture loop: a button still held is released first, so
      the system's mouse is never left pressed. */
  function ReleaseOnExit(s: State): (e: seq<Intent>)
    ensures |e| <= 1 && (e != [] <==> s.dragging)
    ensures forall i :: 0 <= i < |e| ==> e[i] == MouseUp
  {
    if s.dragging then [MouseUp] else []
  }

  /** The session globals, updated in place frame by frame. */
  class Session {
    var scrollFrames: nat
    var dragFrames: nat
    var prevScrollY: Option<int>
    var clickDown: bool
    var dragging: bool
    var lastClickTime: int

    /** The session's fields as a `State` value. */
    function Snapshot(): State
      reads this
    {
      State(scrollFrames, dragFrames, prevScrollY, clickDown, dragging, lastClickTime)
    }

    constructor ()
      ensures Snapshot() == Initial
    {
      scrollFrames, dragFrames := 0, 0;
      prevScrollY := None;
      clickDown, dragging := false, false;
      lastClickTime := 0;
    }

    /** The body of the capture loop for one frame; it does what `Next` specifies. */
    method Step(hand: Option<Hand>, now: int) returns (intents: seq<Intent>, mode: Label)
      modifies this
      ensures Snapshot() == Next(old(Snapshot()), Input(hand, now)).state
      ensures intents == Next(old(Snapshot()), Input(hand, now)).intents
      ensures mode == Next(old(Snapshot()), Input(hand, now)).mode
    {
      if hand.Some? {
        intents, mode := HandFrame(hand.value, now);
      } else {
        intents, mode := NoHandFrame();
      }
    }

    /** The quit key: release a held button and stop dragging. */
    method Quit() returns (intents: seq<Intent>)
      modifies this`dragging
      ensures intents == ReleaseOnExit(old(Snapshot()))
      ensures Snapshot() == old(Snapshot()).(dragging := false)
    {
      intents := [];
      if dragging {
        intents := [MouseUp];
        dragging := false;
      }
    }

    /** A frame with a hand, in the order the globals are updated in the loop body. */
    method HandFrame(lm: Hand, now: int) returns (intents: seq<Intent>, mode: Label)
      modifies this
      ensures Snapshot() == HandStep(old(Snapshot()), lm, now).state
      ensures intents == HandStep(old(Snapshot()), lm, now).intents
      ensures mode == HandStep(old(Snapshot()), lm, now).mode
    {
      ghost var s0 := Snapshot();
      ghost var f := FingerState(lm);
      var fingers := FingersUp(lm);
      var handOpen := HandOpen(fingers);
      CountFrames(ScrollPattern(fingers), HandClosed(fingers));
      var scrollMode := scrollFrames >= SCROLL_ACTIVATE_FRAMES;

      intents := [Track(lm[INDEX_TIP].x, lm[INDEX_TIP].y)];
      mode := MoveLabel;

      var scrolled := ScrollPhase(scrollMode, lm[INDEX_TIP].y);
      ghost var sc := ScrollStep(s0.prevScrollY, scrollMode, lm[INDEX_TIP].y);
      assert prevScrollY == sc.reference;
      intents := intents + scrolled;
      ghost var afterScroll := intents;
      if scrollMode {
        mode := ScrollLabel;
      }

      ghost var armed := ClickEnabled(f, scrollMode, s0.dragging) && Pinched(lm[INDEX_TIP], lm[MIDDLE_TIP]);
      var clickLabel := ClickPhase(fingers, scrollMode, lm[INDEX_TIP], lm[MIDDLE_TIP], now);
      ghost var ck := ClickStep(s0.clickDown, s0.lastClickTime, armed, now);
      assert clickDown == ck.latch && lastClickTime == ck.lastClickTime && clickLabel.Some? == ck.clicked;
      if clickLabel.Some? {
        intents := intents + [Click];
        mode := clickLabel.value;
      }
      assert intents == afterScroll + Opt(ck.clicked, Click);

      var dragEvents := DragPhase(handOpen);
      ghost var dg := DragStep(s0.dragging, dragFrames, HandOpen(f));
      intents := intents + dragEvents;
      if dragging {
        mode := DragLabel;
      }
      assert mode == HandLabel(dg.dragging, ck.clicked, now - s0.lastClickTime, scrollMode);
      assert Snapshot() == State(scrollFrames, dragFrames, sc.reference, ck.latch, dg.dragging, ck.lastClickTime);
    }

    /** The two debounce counters. */
    method CountFrames(scrollPattern: bool, handClosed: bool)
      modifies this`scrollFrames, this`dragFrames
      ensures scrollFrames == Debounce(old(scrollFrames), scrollPattern)
      ensures dragFrames == Debounce(old(dragFrames), handClosed)
    {
      if scrollPattern {
        scrollFrames := scrollFrames + 1;
      } else {
        scrollFrames := 0;
      }
      if handClosed {
        dragFrames := dragFrames + 1;
      } else {
        dragFrames := 0;
      }
    }

    /** A frame without a hand: release a held button and reset. */
    method NoHandFrame() returns (intents: seq<Intent>, mode: Label)
      modifies this
      ensures Snapshot() == NoHandStep(old(Snapshot())).state
      ensures intents == NoHandStep(old(Snapshot())).intents
      ensures mode == NoHandStep(old(Snapshot())).mode
    {
      intents := [];
      mode := NoLabel;
      if dragging {
        intents := intents + [MouseUp];
        dragging := false;
      }
      clickDown := false;
      prevScrollY := None;
      scrollFrames := 0;
      dragFrames := 0;
    }

    /** The scroll block: baseline the reference on the first scrolling frame,
        emit a scroll when the index tip moved past the deadzone, and drop the
        reference outside scroll mode. */
    method ScrollPhase(scrollMode: bool, yIndex: int) returns (emitted: seq<Intent>)
      modifies this`prevScrollY
      ensures var r := ScrollStep(old(prevScrollY), scrollMode, yIndex);
        prevScrollY == r.reference &&
        emitted == Opt(r.amount.Some?, ScrollBy(if r.amount.Some? then r.amount.value else 0))
    {
      emitted := [];
      if scrollMode {
        if prevScrollY.None? {
          prevScrollY := Some(yIndex);
        }
        var dy := yIndex - prevScrollY.value;
        if Abs(dy) > SCROLL_DEADZONE {
          emitted := [ScrollBy(-dy * SCROLL_SCALE)];
          prevScrollY := Some(yIndex);
        }
      } else {
        prevScrollY := None;
      }
    }

    /** The click block; returns the label of an emitted click, if any. */
    method ClickPhase(fingers: seq<int>, scrollMode: bool, index: Point, middle: Point, now: int)
      returns (clickLabel: Option<Label>)
      requires |fingers| == 5
      modifies this`clickDown, this`lastClickTime
      ensures var r := ClickStep(old(clickDown), old(lastClickTime),
                                 ClickEnabled(fingers, scrollMode, dragging) && Pinched(index, middle), now);
        clickDown == r.latch && lastClickTime == r.lastClickTime && clickLabel.Some? == r.clicked &&
        (r.clicked ==> clickLabel.value == HandLabel(false, true, now - old(lastClickTime), scrollMode))
    {
      clickLabel := None;
      if !scrollMode && fingers[1] == 1 && fingers[2] == 1 && !dragging {
        var dx, dy := middle.x - index.x, middle.y - index.y;
        if dx * dx + dy * dy < CLICK_DIST * CLICK_DIST {
          if !clickDown {
            if now - lastClickTime <= DOUBLE_CLICK_THRESHOLD_MS {
              clickLabel := Some(DoubleClickLabel);
            } else {
              clickLabel := Some(ClickLabel);
            }
            lastClickTime := now;
            clickDown := true;
          }
        } else {
          clickDown := false;
        }
      } else {
        clickDown := false;
      }
    }

    /** The drag block: press once the fist has been held long enough, release
        on an open hand. */
    method DragPhase(handOpen: bool) returns (emitted: seq<Intent>)
      modifies this`dragging
      ensures var r := DragStep(old(dragging), dragFrames, handOpen);
        dragging == r.dragging &&
        emitted == Opt(r.down, MouseDown) + Opt(r.up, MouseUp)
    {
      emitted := [];
      if dragFrames >= DRAG_ACTIVATE_FRAMES && !dragging {
        emitted := emitted + [MouseDown];
        dragging := true;
      }
      if handOpen && dragging {
        emitted := emitted + [MouseUp];
        dragging := false;
      }
    }
  }
}
