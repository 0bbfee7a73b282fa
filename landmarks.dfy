/** Hand landmarks in frame pixel coordinates and the finger-state extractor
    (`fingers_up` in virtual_mouse.py). */
module Landmarks {

  /** One landmark; its anatomical id is its position in the frame's sequence. */
  datatype Point = Point(x: int, y: int)

  const THUMB_TIP: nat := 4
  const INDEX_TIP: nat := 8
  const MIDDLE_TIP: nat := 12
  const RING_TIP: nat := 16
  const PINKY_TIP: nat := 20

  /** The fingertip ids in the order thumb, index, middle, ring, pinky. */
  const TIP_IDS: seq<nat> := [THUMB_TIP, INDEX_TIP, MIDDLE_TIP, RING_TIP, PINKY_TIP]

  /** The detector reports one hand as 21 landmarks; the extractor reads ids up to 20. */
  predicate IsHand(lm: seq<Point>) {
    |lm| >= 21
  }

  /** The landmarks of one detected hand. */
  type Hand = lm: seq<Point> | IsHand(lm) witness seq(21, _ => Point(0, 0))

  /** A finger-state vector: five entries, each 0 (down) or 1 (up). */
  predicate IsFingerVector(f: seq<int>) {
    |f| == 5 && forall i :: 0 <= i < |f| ==> f[i] == 0 || f[i] == 1
  }

  function Bit(b: bool): int
  {
    if b then 1 else 0
  }

  /** Reference definition, finger by finger with the anatomical ids written out:
      the thumb is up when its tip lies right of the joint below it (x only);
      every other finger is up when its tip lies above (smaller y than) the
      joint two ids below it. */
  function FingerState(lm: Hand): (f: seq<int>)
    ensures IsFingerVector(f)
  {
    [ Bit(lm[4].x > lm[3].x),
      Bit(lm[8].y < lm[6].y),
      Bit(lm[12].y < lm[10].y),
      Bit(lm[16].y < lm[14].y),
      Bit(lm[20].y < lm[18].y) ]
  }

  /** `fingers_up`: the thumb is evaluated first, then the four other fingers in a
      loop over the tip ids, appending one entry per finger. */
  method FingersUp(lm: Hand) returns (fingers: seq<int>)
    ensures fingers == FingerState(lm)
    ensures IsFingerVector(fingers)
  {
    fingers := [];
    if lm[TIP_IDS[0]].x > lm[TIP_IDS[0] - 1].x {
      fingers := fingers + [1];
    } else {
      fingers := fingers + [0];
    }
    ghost var spec := FingerState(lm);
    assert fingers == spec[..1];
    for i := 1 to 5
      invariant fingers == spec[..i]
    {
      assert spec[i] == Bit(lm[TIP_IDS[i]].y < lm[TIP_IDS[i] - 2].y);
      assert spec[..i + 1] == spec[..i] + [spec[i]];
      if lm[TIP_IDS[i]].y < lm[TIP_IDS[i] - 2].y {
        fingers := fingers + [1];
      } else {
        fingers := fingers + [0];
      }
    }
    assert spec[..5] == spec;
  }

  /** The thumb entry depends on nothing but the x coordinates of ids 4 and 3. */
  lemma ThumbReadsOnlyX(lm: Hand, lm': Hand)
    requires lm[4].x == lm'[4].x && lm[3].x == lm'[3].x
    ensures FingerState(lm)[0] == FingerState(lm')[0]
  {
  }

  /** Finger k (1..4) depends on nothing but the y coordinates of its tip and of
      the joint two ids below the tip. */
  lemma FingerReadsOnlyY(lm: Hand, lm': Hand, k: nat)
    requires 1 <= k < 5
    requires lm[TIP_IDS[k]].y == lm'[TIP_IDS[k]].y
    requires lm[TIP_IDS[k] - 2].y == lm'[TIP_IDS[k] - 2].y
    ensures FingerState(lm)[k] == FingerState(lm')[k]
  {
  }
}
