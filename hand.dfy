/**
 * Hand shape: the finger-state classifier and the gesture recogniser.
 *
 * A frame from the hand tracker is a set of 21 landmarks in MediaPipe's
 * fixed order: 0 is the wrist, the thumb is 1..4, and finger f (1 = index,
 * 2 = middle, 3 = ring, 4 = pinky) occupies 4f+1 .. 4f+4, base knuckle
 * first and tip last. Image y grows downwards, so "above" means "smaller y".
 */
module Hand {

  datatype Landmark = Landmark(x: real, y: real, z: real)

  type Landmarks = seq<Landmark>

  const LandmarkCount: nat := 21

  /** What the tracker delivers for one detected hand. */
  predicate IsHand(lm: Landmarks) {
    |lm| == LandmarkCount
  }

  // The tables of calculateFingerState: index, middle, ring and pinky
  // fingertips, and the joint just below each tip.
  const FingerTips: seq<nat> := [8, 12, 16, 20]
  const FingerMids: seq<nat> := [7, 11, 15, 19]

  const ThumbTip: nat := 4
  const IndexBase: nat := 5
  const IndexTip: nat := 8
  const PinkyTip: nat := 20

  /** Horizontal index-to-pinky distance above which the hand counts as spread. */
  const SpreadThreshold: real := 0.3

  /** Landmark of the tip of finger f, from the tracker's layout. */
  function TipOf(f: nat): nat { 4 * f + 4 }

  /** Landmark of the joint just below the tip of finger f. */
  function MidOf(f: nat): nat { 4 * f + 3 }

  /** Finger f (1 = index .. 4 = pinky) is extended: its tip is above its middle joint. */
  predicate Extended(lm: Landmarks, f: nat)
    requires IsHand(lm) && 1 <= f <= 4
  {
    lm[TipOf(f)].y < lm[MidOf(f)].y
  }

  /**
   * The per-finger comparison of calculateFingerState, over paired
   * tables of tip and middle-joint landmarks.
   */
  function CompareJoints(lm: Landmarks, tips: seq<nat>, mids: seq<nat>): (r: seq<bool>)
    requires |tips| == |mids|
    requires forall i :: 0 <= i < |tips| ==> tips[i] < |lm| && mids[i] < |lm|
    ensures |r| == |tips|
    ensures forall i :: 0 <= i < |r| ==> (r[i] <==> lm[tips[i]].y < lm[mids[i]].y)
  {
    if tips == [] then []
    else [lm[tips[0]].y < lm[mids[0]].y] + CompareJoints(lm, tips[1..], mids[1..])
  }

  /**
   * calculateFingerState: one entry per non-thumb finger, in the order
   * index, middle, ring, pinky; entry i says whether finger i+1 is extended.
   */
  function CalculateFingerState(lm: Landmarks): (r: seq<bool>)
    requires IsHand(lm)
    ensures |r| == 4
    ensures forall i :: 0 <= i < 4 ==> (r[i] <==> Extended(lm, i + 1))
  {
    CompareJoints(lm, FingerTips, FingerMids)
  }

  /** The number of raised fingers, `fingerStates.filter(state => state).length`. */
  function CountRaised(states: seq<bool>): (n: nat)
    ensures n == multiset(states)[true]
    ensures n <= |states|
    ensures n == 0 <==> true !in states
    ensures n == |states| <==> false !in states
  {
    if states == [] then 0
    else
      assert states == [states[0]] + states[1..];
      (if states[0] then 1 else 0) + CountRaised(states[1..])
  }

  datatype Gesture = Gesture(isThumbUp: bool, raisedFingers: nat, isSpread: bool)

  function Abs(r: real): real { if r < 0.0 then -r else r }

  /**
   * detectGesture: thumb up when the thumb tip is above the index finger's
   * base knuckle, the count of raised fingers, and whether index and pinky
   * tips are far apart horizontally.
   */
  function DetectGesture(lm: Landmarks, states: seq<bool>): (g: Gesture)
    requires IsHand(lm)
    ensures g.isThumbUp <==> lm[4].y < lm[5].y
    ensures g.raisedFingers == multiset(states)[true] && g.raisedFingers <= |states|
    ensures g.isSpread <==> (lm[8].x - lm[20].x > 0.3 || lm[20].x - lm[8].x > 0.3)
  {
    Gesture(
      lm[ThumbTip].y < lm[IndexBase].y,
      CountRaised(states),
      Abs(lm[IndexTip].x - lm[PinkyTip].x) > SpreadThreshold)
  }

  /** The gesture of a whole frame: stages one and two together. */
  function GestureOf(lm: Landmarks): Gesture
    requires IsHand(lm)
  {
    DetectGesture(lm, CalculateFingerState(lm))
  }

  /**
   * The raised-finger count of a frame lies in 0..4, is 0 exactly when no
   * finger is extended and 4 exactly when all four are.
   */
  lemma RaisedFingersOfFrame(lm: Landmarks)
    requires IsHand(lm)
    ensures GestureOf(lm).raisedFingers <= 4
    ensures GestureOf(lm).raisedFingers == 0 <==> forall f :: 1 <= f <= 4 ==> !Extended(lm, f)
    ensures GestureOf(lm).raisedFingers == 4 <==> forall f :: 1 <= f <= 4 ==> Extended(lm, f)
  {
    var s := CalculateFingerState(lm);
    assert forall f :: 1 <= f <= 4 ==> (s[f - 1] <==> Extended(lm, f));
  }
}
