# Virtual mouse gesture core, in Dafny

`virtual_mouse.py` turns a webcam image of one hand into mouse actions. Each
captured frame yields 21 hand landmarks in pixel coordinates. From them the
loop body does five things:

- It derives which of the five fingers are up (`fingers_up`).
- It classifies the pose: the scroll pattern (index, middle and ring up; thumb and pinky down), a fist (no finger up) or an open hand (three or more up).
- It debounces the scroll pattern and the fist over three consecutive frames.
- It moves the cursor with the index tip.
- It scrolls, clicks, double-clicks (a label only), presses and releases the button according to a small state machine. A frame with no hand releases a held button and resets that machine.

This project models that core.

- `landmarks.dfy` holds the landmark points and the `Hand` type (at least 21 points). It also holds `FingerState`, the specification of the finger vector, and `FingersUp`, the loop of `fingers_up` proved equal to it.
- `gestures.dfy` holds the gesture predicates (`ScrollPattern`, `HandClosed`, `HandOpen`) and the pinch test `Pinched`.
- `controller.dfy` holds the loop's globals as a `State`, one pass through the loop as the pure function `Next(state, input)`, and the `Session` class. `Session` keeps the globals as fields and updates them in place in the order the loop body does. Its `Step` method is proved to do what `Next` specifies. OS actions become a list of `Intent`s: `Track` (the cursor follows the index tip), `ScrollBy`, `Click`, `MouseDown` and `MouseUp`. The on-screen mode text becomes a `Label`.
- `frame_lemmas.dfy` holds what a single frame guarantees: scrolling, clicking, dragging, the button events, the modes and the no-hand reset.
- `traces.dfy` holds `Run`, the loop over a sequence of frames, and what the loop guarantees across frames. This covers the debounce counters, presses and releases strictly alternating, at most one click per pinch held outside the scroll pattern, and the scroll amounts of the worked example.
- `shutdown.dfy` holds the quit key (see Findings).

Time is an integer number of milliseconds since the epoch, supplied with each frame. The double-click window is 350 ms, from the source's 0.35 s. The pinch test `dx*dx + dy*dy < 35*35` is proved equivalent to "the Euclidean distance is below 35".

Four behaviours of the code that the model keeps:

- The code has no guard for a landmark list shorter than 21: it fails on an index. The type `Hand` (at least 21 points) rules such a frame out.
- The no-hand branch (virtual_mouse.py:221-229) resets every modelled global except `last_click_time`. `NoHandStep` keeps it too. The smoothing state `prev_x`/`prev_y`, which is not modelled, is kept as well.
- The click latch is cleared not only when the pinch opens but whenever click evaluation is disabled, i.e. in scroll mode, while dragging, or with the index or middle finger down (virtual_mouse.py:206-207). `StepClick` states this: the latch afterwards is exactly "pinch armed".
- A held pinch can therefore click more than once. If the ring finger goes up for three frames during the pinch, the hand shows the scroll pattern, scroll mode starts and opens the latch, and the next frame without the pattern clicks again (`ScrollModeReopensLatch`). A pinch that never shows the scroll pattern clicks at most once, whatever the thumb, ring and pinky do (`PinchClicksOnce`).

## Model

| member | source | states |
|---|---|---|
| Landmarks.FingerState | virtual_mouse.py:60-81 | the finger vector has exactly five entries, each 0 or 1 |
| Landmarks.FingersUp | virtual_mouse.py:60-81 | the loop over the tip ids returns exactly `FingerState`: the thumb from the x of ids 4 and 3, each other finger from the y of its tip and of the joint two ids below; five 0/1 entries |
| Landmarks.ThumbReadsOnlyX | virtual_mouse.py:68-72 | the thumb entry depends only on the x coordinates of landmarks 4 and 3 |
| Landmarks.FingerReadsOnlyY | virtual_mouse.py:74-79 | the entry of finger k (1..4) depends only on the y coordinates of its tip and of the landmark two ids below |
| Gestures.ScrollPattern | virtual_mouse.py:124-130 | the scroll pattern: thumb and pinky down, index, middle and ring up (exact match) |
| Gestures.HandClosed | virtual_mouse.py:133 | a fist: no finger up |
| Gestures.HandOpen | virtual_mouse.py:134 | an open hand: three or more fingers up |
| Gestures.Pinched | virtual_mouse.py:183-190 | the index and middle tips are closer than 35 pixels, compared on squared integer distances |
| Gestures.GestureShapes | virtual_mouse.py:119-134 | on a finger vector: 0 <= fingers up <= 5; a closed hand is exactly [0,0,0,0,0]; the scroll pattern is exactly [0,1,1,1,0], and it counts as open, never closed |
| Gestures.ClosedIsNotOpen | virtual_mouse.py:133-134 | a closed hand is never open, so no frame can press and release the button at once |
| Gestures.PinchedIffDistanceBelow | virtual_mouse.py:183-190 | for d the Euclidean distance between the tips, the integer pinch test holds iff d < 35 |
| Controller.Abs | virtual_mouse.py:170 | the result is the argument or its negation, and is non-negative |
| Controller.ScrollStep | virtual_mouse.py:163-177 | outside scroll mode: no scroll and no reference. In scroll mode: the reference is the tip height if there was none; a scroll happens iff abs(dy) > 2, for -15*dy, and then the reference moves to the tip, else it stays. A scroll is never 0 and scrolls up iff the tip moved up |
| Controller.ClickStep | virtual_mouse.py:181-207 | an armed frame (click enabled, tips pinched) clicks iff the latch was open; a click closes the latch and sets the click clock to now; otherwise the clock is kept; the latch stays closed while armed and opens on any frame that is not armed |
| Controller.DragStep | virtual_mouse.py:210-216 | the emitted press and release are exactly the change of the button; a press needs the button up and the fist counter at 3; a release needs an open hand; an open hand always ends with the button up; otherwise the button is held iff it was or the fist counter reached 3 |
| Controller.HandLabel | virtual_mouse.py:161-219 | the label of a hand frame is never empty; DRAG iff the button is held; otherwise DOUBLE CLICK iff a click within 350 ms of the last, CLICK iff a click after more; otherwise SCROLL iff in scroll mode |
| Controller.NoHandStep | virtual_mouse.py:221-229 | no hand: a mouse-up iff the button was held, at most one action, no label; every counter, latch, reference and the button reset, the click clock kept |
| Controller.HandStep | virtual_mouse.py:104-219 | a hand frame updates both counters by the debounce rule, always labels the frame, and its first action moves the cursor to the index tip |
| Controller.Next | virtual_mouse.py:104-229 | one pass through the loop body: the frame is labelled exactly when a hand is seen, and the click clock either stays or moves to the frame's time |
| Controller.ReleaseOnExit | virtual_mouse.py:249-253 | corrected exit: at most one action, a mouse-up, issued exactly when the button is held |
| Controller.Session.constructor | virtual_mouse.py:45-57 | the globals start in the initial state: counters 0, no reference, latch open, button up, click clock 0 |
| Controller.Session.Step | virtual_mouse.py:104-229 | one pass of the loop body updates the globals, issues the actions and sets the label exactly as `Next` specifies |
| Controller.Session.HandFrame | virtual_mouse.py:104-219 | the hand branch of the loop body, with its updates in source order, does what `HandStep` specifies |
| Controller.Session.CountFrames | virtual_mouse.py:136-148 | both debounce counters are updated by the debounce rule and nothing else changes |
| Controller.Session.NoHandFrame | virtual_mouse.py:221-229 | the no-hand branch does what `NoHandStep` specifies |
| Controller.Session.ScrollPhase | virtual_mouse.py:163-177 | the scroll block issues the scroll and sets the reference as `ScrollStep` specifies |
| Controller.Session.ClickPhase | virtual_mouse.py:179-207 | the click block computes the pinch from the tips, sets the latch and the click clock, and gives the CLICK or DOUBLE CLICK label as `ClickStep` specifies |
| Controller.Session.DragPhase | virtual_mouse.py:209-219 | the drag block presses and releases the button as `DragStep` specifies |
| Controller.Session.Quit | virtual_mouse.py:249-253 | corrected quit: the exit actions release a held button, and afterwards the button is up with everything else unchanged |
| FrameLemmas.HandIntents | virtual_mouse.py:163-219 | filtered by any kind of action, a hand frame's actions are those of its scroll, click, press and release blocks, the press before the release |
| FrameLemmas.StepScroll | virtual_mouse.py:163-177 | a frame scrolls iff in scroll mode with abs(dy) > 2 against the reference; the amount is -15*dy, nonzero, negative iff the tip moved down. The reference is dropped outside scroll mode, baselined on entry, moved only by a scroll; a no-hand frame never scrolls |
| FrameLemmas.StepClick | virtual_mouse.py:179-207 | a frame clicks iff the pinch is armed and the latch was open; the new latch is exactly "pinch armed"; the click clock moves only on a click; the label is DOUBLE CLICK iff a click follows the last one within 350 ms, CLICK iff after more |
| FrameLemmas.FirstClickIsSingle | virtual_mouse.py:53-53 | with a wall clock past 350 ms since the epoch, the first frame of a session is never labelled DOUBLE CLICK, as the click clock starts at 0 |
| FrameLemmas.StepDrag | virtual_mouse.py:209-225 | the button goes down iff the fist counter reached 3 while up; it comes up iff held and the hand is open or gone; never both in one frame; held afterwards iff (held or pressed) and not released |
| FrameLemmas.StepButtons | virtual_mouse.py:209-225 | the button events of a frame are exactly the change of the button state; a hand frame is labelled DRAG iff the button is held at its end |
| FrameLemmas.StepModes | virtual_mouse.py:161-219 | at the end of a hand frame scroll mode and dragging exclude each other; a click happens only with neither; the label is SCROLL iff in scroll mode, MOVE iff nothing else applies |
| FrameLemmas.StepNoHand | virtual_mouse.py:221-229 | a no-hand frame gives exactly one mouse-up if held and nothing otherwise, no label, and the reset state |
| Traces.Run | virtual_mouse.py:84-229 | the capture loop: the frames in order, each through `Next`, the actions concatenated |
| Traces.CounterIsTrailingRun | virtual_mouse.py:136-148 | after any run each counter equals the number of consecutive frames, ending at the last, that showed its gesture |
| Traces.ScrollModeIffLastThree | virtual_mouse.py:137-142 | scroll mode holds after a run iff its last three frames all show the scroll pattern |
| Traces.FistHeldIffLastThree | virtual_mouse.py:144-148 | the fist counter has reached 3 iff the last three frames all show a fist |
| Traces.DebounceExample | virtual_mouse.py:137-142 | pattern, pattern, miss, pattern, pattern, pattern: scroll mode holds after none of the first five frames and after the sixth |
| Traces.ButtonsAlternate | virtual_mouse.py:209-225 | over any run the button events alternate press, release, press, ...; the button is held iff their number is odd |
| Traces.PressesMinusReleases | virtual_mouse.py:209-225 | over any run presses minus releases is 1 while the button is held and 0 otherwise |
| Traces.ClickLatches | virtual_mouse.py:179-207 | on any frame holding a pinch (index and middle up, tips within 35 px, whatever the landmarks), a click closes the latch, and a closed latch lets no click through and stays closed |
| Traces.HeldPinchClicksOnce | virtual_mouse.py:179-207 | holding one pinch with one finger vector over any number of frames, however the landmarks jitter, clicks at most once |
| Traces.PinchStep | virtual_mouse.py:136-216 | a frame with index and middle up and the tips within 35 px: the scroll counter follows the pattern; the latch afterwards is closed iff out of scroll mode with the button up; a click iff that holds and the latch was open; the button stays held only while the hand is not open |
| Traces.PinchClicksOnce | virtual_mouse.py:179-207 | pinching over any number of frames, none showing the scroll pattern, clicks at most once, whatever the other three fingers and the landmarks do; after a click the latch is closed and the button up |
| Traces.RunPinch | virtual_mouse.py:136-216 | `PinchStep` for the last frame of a run: the run's clicks are those before it followed by the frame's own |
| Traces.PinchIntoScroll | virtual_mouse.py:136-207 | a pinch that clicks on its first frame and then shows the scroll pattern for up to three frames: exactly one click; the latch stays closed until the third pattern frame starts scroll mode, which opens it |
| Traces.PinchReclicks | virtual_mouse.py:179-207 | after a run leaving the latch open and the button up, a pinching frame outside the scroll pattern appends exactly one click |
| Traces.ScrollModeReopensLatch | virtual_mouse.py:179-207 | a pinch held over five frames, the middle three showing the scroll pattern: one click after the first frame, still one after the fourth, two after the fifth |
| Traces.ScrollFrameStep | virtual_mouse.py:136-177 | one scroll-pattern frame: the counter grows by one; below 3 no reference and no scroll; from 3 on, one scroll of -15*dy against the reference iff abs(dy) > 2, the reference then moving to the tip, otherwise kept |
| Traces.CounterStep | virtual_mouse.py:137-142 | a scroll-pattern frame at the end of a run raises the scroll counter by one |
| Traces.ScrollRunWarming | virtual_mouse.py:163-177 | the last frame of a run below scroll mode adds no scroll and leaves no reference |
| Traces.ScrollRunMoved | virtual_mouse.py:163-177 | the last frame of a run in scroll mode, moved more than 2 px from the reference: one scroll of -15*dy, the reference moves to the tip |
| Traces.ScrollRunStill | virtual_mouse.py:163-177 | the last frame of a run in scroll mode, within 2 px of the reference: no scroll, the reference stays |
| Traces.ScrollRunStep | virtual_mouse.py:163-177 | one more scroll-pattern frame in a run: the counter grows by one; below 3 nothing scrolls and there is no reference; from 3 on, the run's scrolls grow by -15*dy exactly when abs(dy) > 2 |
| Traces.ScrollWarmUp | virtual_mouse.py:163-177 | three scroll-pattern frames from the start: scroll mode just began, no scroll yet, the reference is the third frame's tip height |
| Traces.ScrollFourFrames | virtual_mouse.py:163-177 | the worked example's first four frames (tips ..., 130, 160): exactly one scroll, by -450, and the reference 160 |
| Traces.ScrollExample | virtual_mouse.py:163-177 | tips 100, 105, 130, 160, 200 under the scroll pattern: no scroll over frames 1-3, -450 at frame 4, -600 at frame 5 |
| Shutdown.QuitAsWritten | virtual_mouse.py:249-250 | the quit key as written: leave the loop and issue nothing |
| Shutdown.FistFramesHoldOff | virtual_mouse.py:209-212 | fewer than three fist frames from the start press nothing |
| Shutdown.FistPresses | virtual_mouse.py:209-212 | a third consecutive fist frame with the button up presses it |
| Shutdown.QuitAsWrittenStrandsButton | virtual_mouse.py:249-253 | quitting as written after a run that ends dragging leaves an odd number of button events, the last a press |
| Shutdown.FistThenQuit | virtual_mouse.py:249-253 | three fist frames then the quit key: as written the button events are just [MouseDown]; with the release on exit they are [MouseDown, MouseUp] |
| Shutdown.ReleaseOnExitBalances | virtual_mouse.py:249-253 | with the release on exit, after any run the button events alternate and are even in number: every press is released |

## Left out

- Cursor mapping and smoothing (virtual_mouse.py:151-158): floating-point interpolation and an exponential average. `Track` carries the raw index-tip position instead, so `prev_x`/`prev_y` are not modelled.
- Camera capture, mirroring, colour conversion, the hand detector and the landmark scaling (virtual_mouse.py:31-41, 84-102) are I/O or a foreign library. A frame reaches the model as `Option<Hand>`.
- Drawing and the on-screen text (virtual_mouse.py:110-116, 160, 185-192, 231-247) are display only. The mode text is the `Label` output.
- The OS automation calls (pyautogui) are effects. They are the `Intent`s each frame returns, in issue order.
- `time.time()` is a clock. It is the `now` field of each input, in integer milliseconds since the epoch, as the source's seconds since the epoch. Sub-millisecond differences around the 0.35 s window are not modelled. The model accepts any integer as the time, so on a clock reading at most 350 the first click would be labelled DOUBLE CLICK. A real clock never reads that little (`FirstClickIsSingle`).
- A landmark list shorter than 21 would make the code fail on an index. The model does not represent that failure: `Hand` rules such a frame out.
- The capture failure break (virtual_mouse.py:85-87) leaves the loop the same way the quit key does. It is covered by the quit finding, not modelled separately.

## Findings

| source | as written | input that shows it | evidently intended | confidence | as-written member | corrected member |
|---|---|---|---|---|---|---|
| virtual_mouse.py:249-253 | the quit key breaks out of the loop with no mouse-up, so a button pressed by a fist drag stays pressed at the OS level (the capture-failure break at lines 85-87 does the same) | three frames of a closed fist (button pressed on the third), then `q` | release a held button before leaving the loop, as the no-hand branch does at lines 223-225 | not executed | Shutdown.FistThenQuit | Shutdown.ReleaseOnExitBalances |
