/**
 * What one inference tick of src/hooks/useFaceTracking.js extracts from the
 * detector results: a head pose (pitch, yaw, roll) from five fixed face landmarks
 * of the first face, and one record per detected hand. A landmark list too short
 * for an index the code reads makes JavaScript throw in the middle of the tick;
 * here that is the None result, and the tick then publishes nothing.
 */
module FaceTracking {
  import opened Optional

  /** A normalised landmark. */
  datatype Landmark = Landmark(x: real, y: real, z: real)

  /** A handedness category; categoryName is "Left" or "Right". */
  datatype Category = Category(categoryName: string)

  /** The head record: x is the pitch, y the yaw, z the roll. */
  datatype HeadPose = HeadPose(x: real, y: real, z: real)

  /** One hand: its handedness label, the wrist and the index fingertip (absent when the list is too short). */
  datatype Hand = Hand(kind: string, wrist: Option<Landmark>, indexTip: Option<Landmark>)

  /** The published state of one tick; a None field is a key left out of the object. */
  datatype TrackingFrame = TrackingFrame(head: Option<HeadPose>, hands: Option<seq<Hand>>)

  /** The face-mesh indices read. */
  const NoseTip: nat := 1
  const LeftEar: nat := 234
  const RightEar: nat := 454
  const TopHead: nat := 10
  const Chin: nat := 152

  /** The hand landmark indices read. */
  const Wrist: nat := 0
  const IndexTip: nat := 8

  /** Yaw: how far the nose sits right of the midpoint between the ears. */
  function Yaw(nose: Landmark, left: Landmark, right: Landmark): real { (nose.x - (left.x + right.x) / 2.0) * 5.0 }

  /** Pitch: how far the nose sits below the midpoint between the top of the head and the chin. */
  function Pitch(nose: Landmark, top: Landmark, chin: Landmark): real { (nose.y - (top.y + chin.y) / 2.0) * 4.0 }

  /** Roll: the height difference between the ears. */
  function Roll(left: Landmark, right: Landmark): real { (left.y - right.y) * 2.0 }

  /** The head pose of one face, or None when the list is too short to hold the right-ear landmark. */
  function HeadPoseOf(lm: seq<Landmark>): (r: Option<HeadPose>)
    ensures r.Some? <==> |lm| > RightEar
  {
    if |lm| <= RightEar then None
    else
      Some(HeadPose(Pitch(lm[NoseTip], lm[TopHead], lm[Chin]),
                    Yaw(lm[NoseTip], lm[LeftEar], lm[RightEar]),
                    Roll(lm[LeftEar], lm[RightEar])))
  }

  /** landmarks[k]: undefined past the end of the list. */
  function At(lm: seq<Landmark>, k: nat): (r: Option<Landmark>)
    ensures r.Some? <==> k < |lm|
    ensures r.Some? ==> r.value == lm[k]
  {
    if k < |lm| then Some(lm[k]) else None
  }

  /** Whether hand i has a first handedness category to read. */
  predicate Labelled(handedness: seq<seq<Category>>, i: nat) {
    i < |handedness| && |handedness[i]| > 0
  }

  /** The record of hand i. */
  function HandAt(lms: seq<seq<Landmark>>, handedness: seq<seq<Category>>, i: nat): Hand
    requires i < |lms| && Labelled(handedness, i)
  {
    Hand(handedness[i][0].categoryName, At(lms[i], Wrist), At(lms[i], IndexTip))
  }

  /** The hand records in detection order, or None when some hand has no handedness category. */
  function HandsOf(lms: seq<seq<Landmark>>, handedness: seq<seq<Category>>): Option<seq<Hand>> {
    if forall i :: 0 <= i < |lms| ==> Labelled(handedness, i) then
      Some(seq(|lms|, i requires 0 <= i < |lms| => HandAt(lms, handedness, i)))
    else None
  }

  /** The forEach over the detected hands, pushing one record per hand. */
  method ExtractHands(lms: seq<seq<Landmark>>, handedness: seq<seq<Category>>) returns (r: Option<seq<Hand>>)
    ensures r == HandsOf(lms, handedness)
  {
    var hands: seq<Hand> := [];
    var index := 0;
    while index < |lms|
      invariant 0 <= index <= |lms|
      invariant forall i :: 0 <= i < index ==> Labelled(handedness, i)
      invariant |hands| == index
      invariant forall i :: 0 <= i < index ==> hands[i] == HandAt(lms, handedness, i)
    {
      if !Labelled(handedness, index) {
        return None;
      }
      var landmarks := lms[index];
      var wrist := At(landmarks, Wrist);
      var indexTip := At(landmarks, IndexTip);
      var category := handedness[index][0];
      hands := hands + [Hand(category.categoryName, wrist, indexTip)];
      index := index + 1;
    }
    assert hands == seq(|lms|, i requires 0 <= i < |lms| => HandAt(lms, handedness, i));
    return Some(hands);
  }

  /**
   * The state one tick publishes: the head of the first face when a face is found, the
   * hands when any is found, each key left out otherwise; None when the tick throws.
   */
  function TrackingFrameOf(faces: seq<seq<Landmark>>, lms: seq<seq<Landmark>>, handedness: seq<seq<Category>>)
    : Option<TrackingFrame>
  {
    var head := if |faces| > 0 then HeadPoseOf(faces[0]) else None;
    var hands := if |lms| > 0 then HandsOf(lms, handedness) else None;
    if |faces| > 0 && head.None? then None
    else if |lms| > 0 && hands.None? then None
    else Some(TrackingFrame(head, hands))
  }

  /** predictWebcam's construction of newState, step by step. */
  method BuildTrackingFrame(faces: seq<seq<Landmark>>, lms: seq<seq<Landmark>>, handedness: seq<seq<Category>>)
    returns (r: Option<TrackingFrame>)
    ensures r == TrackingFrameOf(faces, lms, handedness)
  {
    var newState := TrackingFrame(None, None);
    if |faces| > 0 {
      var head := HeadPoseOf(faces[0]);
      if head.None? {
        return None;
      }
      newState := newState.(head := head);
    }
    if |lms| > 0 {
      var hands := ExtractHands(lms, handedness);
      if hands.None? {
        return None;
      }
      newState := newState.(hands := hands);
    }
    return Some(newState);
  }

  // ---------------------------------------------------------------------------
  // Properties of the head pose

  /** Every landmark moved by the same offset in the image plane. */
  function Shift(lm: seq<Landmark>, dx: real, dy: real): (r: seq<Landmark>)
    ensures |r| == |lm|
    ensures forall i :: 0 <= i < |lm| ==> r[i] == Landmark(lm[i].x + dx, lm[i].y + dy, lm[i].z)
  {
    seq(|lm|, i requires 0 <= i < |lm| => Landmark(lm[i].x + dx, lm[i].y + dy, lm[i].z))
  }

  /** The head pose does not change when the whole face moves across the image. */
  lemma HeadPoseTranslationInvariant(lm: seq<Landmark>, dx: real, dy: real)
    ensures HeadPoseOf(Shift(lm, dx, dy)) == HeadPoseOf(lm)
  {
    if |lm| > RightEar {
      var s := Shift(lm, dx, dy);
      assert s[NoseTip].x - (s[LeftEar].x + s[RightEar].x) / 2.0 == lm[NoseTip].x - (lm[LeftEar].x + lm[RightEar].x) / 2.0;
      assert s[NoseTip].y - (s[TopHead].y + s[Chin].y) / 2.0 == lm[NoseTip].y - (lm[TopHead].y + lm[Chin].y) / 2.0;
      assert s[LeftEar].y - s[RightEar].y == lm[LeftEar].y - lm[RightEar].y;
    }
  }

  /**
   * Each angle is zero exactly on its centred face: yaw when the nose is midway between
   * the ears, pitch when it is midway between the top of the head and the chin, roll
   * when the ears are level; and the sign of the yaw tells which way the face turns.
   */
  lemma HeadPoseCentred(lm: seq<Landmark>)
    requires |lm| > RightEar
    ensures var p := HeadPoseOf(lm).value;
      && (p.y == 0.0 <==> lm[NoseTip].x == (lm[LeftEar].x + lm[RightEar].x) / 2.0)
      && (p.y > 0.0 <==> lm[NoseTip].x > (lm[LeftEar].x + lm[RightEar].x) / 2.0)
      && (p.x == 0.0 <==> lm[NoseTip].y == (lm[TopHead].y + lm[Chin].y) / 2.0)
      && (p.z == 0.0 <==> lm[LeftEar].y == lm[RightEar].y)
  {
  }

  /** Only the first face is read: faces after it change nothing. */
  lemma OnlyFirstFace(f: seq<Landmark>, rest1: seq<seq<Landmark>>, rest2: seq<seq<Landmark>>,
                      lms: seq<seq<Landmark>>, handedness: seq<seq<Category>>)
    ensures TrackingFrameOf([f] + rest1, lms, handedness) == TrackingFrameOf([f] + rest2, lms, handedness)
  {
    assert ([f] + rest1)[0] == f && ([f] + rest2)[0] == f;
  }

  // ---------------------------------------------------------------------------
  // Properties of the hand records and of the published frame

  /**
   * One record per detected hand, in detection order: hand i's wrist is its landmark 0,
   * its index tip its landmark 8 and its type the first handedness category of hand i.
   */
  lemma HandsInOrder(lms: seq<seq<Landmark>>, handedness: seq<seq<Category>>)
    requires forall i :: 0 <= i < |lms| ==> Labelled(handedness, i)
    ensures var r := HandsOf(lms, handedness);
      && r.Some? && |r.value| == |lms|
      && forall i :: 0 <= i < |lms| ==>
           && Labelled(handedness, i)
           && r.value[i].kind == handedness[i][0].categoryName
           && (|lms[i]| > 0 ==> r.value[i].wrist == Some(lms[i][0]))
           && (|lms[i]| > 8 ==> r.value[i].indexTip == Some(lms[i][8]))
  {
  }

  /** The hands fail exactly when some detected hand has no handedness category. */
  lemma HandsFail(lms: seq<seq<Landmark>>, handedness: seq<seq<Category>>)
    ensures HandsOf(lms, handedness).None? <==> exists i :: 0 <= i < |lms| && !Labelled(handedness, i)
  {
  }

  /**
   * A published frame has a head exactly when a face was found and hands exactly when a
   * hand was found; with nothing detected it is the empty object.
   */
  lemma FrameKeys(faces: seq<seq<Landmark>>, lms: seq<seq<Landmark>>, handedness: seq<seq<Category>>)
    ensures var r := TrackingFrameOf(faces, lms, handedness);
      && (r.Some? ==> (r.value.head.Some? <==> |faces| > 0) && (r.value.hands.Some? <==> |lms| > 0))
      && (|faces| == 0 && |lms| == 0 ==> r == Some(TrackingFrame(None, None)))
      && (r.None? <==> (|faces| > 0 && |faces[0]| <= RightEar)
                       || (|lms| > 0 && exists i :: 0 <= i < |lms| && !Labelled(handedness, i)))
  {
    HandsFail(lms, handedness);
  }
}
