/**
 * The Panda component's frame callback (src/components/Artifact3D.jsx) as it runs:
 * a mutable rig whose joint rotations, hip height and fur-motion vector are
 * overwritten field by field, in the order the callback writes them. Frame is
 * proved to leave exactly the body that Motion.FrameSpec describes, so every
 * property proved of FrameSpec holds of the rig.
 */
module PandaRig {
  import opened ThreeMath
  import opened Optional
  import opened Motion

  /** Where a joint sits in IdleJoints; the joints that are not reset come after all of them. */
  function Slot(j: Joint): (k: nat)
    ensures Driven(j) <==> k < |IdleJoints|
    ensures Driven(j) ==> IdleJoints[k] == j
  {
    match j
    case LeftThigh => 0
    case RightThigh => 1
    case LeftKnee => 2
    case RightKnee => 3
    case LeftAnkle => 4
    case RightAnkle => 5
    case LeftShoulder => 6
    case RightShoulder => 7
    case LeftElbow => 8
    case RightElbow => 9
    case Spine => 10
    case Hips => 11
    case Neck => 12
    case Head => 13
  }

  /** Each slot of IdleJoints holds a different joint: the list resets every joint once. */
  lemma SlotOfIdleJoint(i: nat)
    requires i < |IdleJoints|
    ensures Slot(IdleJoints[i]) == i
  {
  }

  /** The `reset` helper of the idle branch: x, z, then y eased 8% toward 0. */
  function Reset(r: Rotation): (s: Rotation)
    ensures s == Rotation((1.0 - IdleSpeed) * r.x, (1.0 - IdleSpeed) * r.y, (1.0 - IdleSpeed) * r.z)
  {
    LerpToZero(r.x, IdleSpeed);
    LerpToZero(r.y, IdleSpeed);
    LerpToZero(r.z, IdleSpeed);
    r.(x := Lerp(r.x, 0.0, IdleSpeed)).(z := Lerp(r.z, 0.0, IdleSpeed)).(y := Lerp(r.y, 0.0, IdleSpeed))
  }

  /** The forEach of `reset` and the second easing of the wave's z axes make up IdlePose. */
  lemma IdleAfterReset(p: Pose, q: Pose)
    requires forall j :: q.Get(j) == if Driven(j) then Reset(p.Get(j)) else p.Get(j)
    ensures q.(leftShoulder := q.leftShoulder.(z := Lerp(q.leftShoulder.z, 0.0, IdleSpeed)))
             .(leftElbow := q.leftElbow.(z := Lerp(q.leftElbow.z, 0.0, IdleSpeed))) == IdlePose(p)
  {
    var r := q.(leftShoulder := q.leftShoulder.(z := Lerp(q.leftShoulder.z, 0.0, IdleSpeed)))
              .(leftElbow := q.leftElbow.(z := Lerp(q.leftElbow.z, 0.0, IdleSpeed)));
    forall j
      ensures r.Get(j) == IdlePose(p).Get(j)
    {
      LerpToZero(Reset(p.Get(j)).z, IdleSpeed);
      IdlePoseGet(p, j);
    }
    PoseExtensional(r, IdlePose(p));
  }

  /**
   * The rig: the rotations behind the joint refs, the hips' height and the shared
   * fur-motion vector. Every ref is taken as mounted, so each `if (ref.current)`
   * guard holds; the refs point at distinct bones, so the rotations are one value.
   */
  class Panda {
    var pose: Pose
    /** hipsRef.current.position.y */
    var hipY: real
    /** furMotionRef.current: one Vector3 object for the component's whole life. */
    const fur: Vector3

    /** What the frame callback can see and write. */
    ghost function State(): Body
      reads this, fur
    {
      Body(pose, hipY, fur.Value())
    }

    /** A freshly mounted rig: every joint at rest, the hips at 0, a zero fur vector. */
    constructor ()
      ensures fresh(fur)
      ensures forall j :: pose.Get(j) == Rotation(0.0, 0.0, 0.0)
      ensures hipY == 0.0 && fur.Value() == Zero
    {
      var rest := Rotation(0.0, 0.0, 0.0);
      pose := Pose(rest, rest, rest, rest, rest, rest, rest, rest, rest, rest, rest, rest, rest, rest);
      hipY := 0.0;
      fur := new Vector3(0.0, 0.0, 0.0);
    }

    /** The `reset` helper of the idle branch, applied to one joint's ref. */
    method ResetJoint(j: Joint)
      modifies this
      ensures pose.Get(j) == Reset(old(pose.Get(j)))
      ensures forall k :: k != j ==> pose.Get(k) == old(pose.Get(k))
      ensures hipY == old(hipY)
    {
      var p := pose;
      match j
      case Hips => pose := p.(hips := Reset(p.hips));
      case Spine => pose := p.(spine := Reset(p.spine));
      case Neck => pose := p.(neck := Reset(p.neck));
      case Head => pose := p.(head := Reset(p.head));
      case LeftShoulder => pose := p.(leftShoulder := Reset(p.leftShoulder));
      case LeftElbow => pose := p.(leftElbow := Reset(p.leftElbow));
      case RightShoulder => pose := p.(rightShoulder := Reset(p.rightShoulder));
      case RightElbow => pose := p.(rightElbow := Reset(p.rightElbow));
      case LeftThigh => pose := p.(leftThigh := Reset(p.leftThigh));
      case LeftKnee => pose := p.(leftKnee := Reset(p.leftKnee));
      case LeftAnkle => pose := p.(leftAnkle := Reset(p.leftAnkle));
      case RightThigh => pose := p.(rightThigh := Reset(p.rightThigh));
      case RightKnee => pose := p.(rightKnee := Reset(p.rightKnee));
      case RightAnkle => pose := p.(rightAnkle := Reset(p.rightAnkle));
    }

    /** The walking branch: every write is a function of the gait phase, save the waving elbow's. */
    method Walk(currentX: real, elapsed: real, trig: Trig)
      modifies this, fur
      ensures pose == WalkPose(old(pose), currentX, GaitOf(currentX, elapsed, trig))
      ensures hipY == WalkHip(GaitOf(currentX, elapsed, trig))
      ensures fur.Value() == WalkFur(GaitOf(currentX, elapsed, trig))
    {
      var g := GaitOf(currentX, elapsed, trig);
      var leftCycle := g.left;
      var rightCycle := g.right;

      pose := pose.(leftThigh := pose.leftThigh.(x := leftCycle * 0.45));
      pose := pose.(rightThigh := pose.rightThigh.(x := rightCycle * 0.45));

      var leftKneeBend := KneeBend(leftCycle);
      var rightKneeBend := KneeBend(rightCycle);
      pose := pose.(leftKnee := pose.leftKnee.(x := -Abs(leftKneeBend)));
      pose := pose.(rightKnee := pose.rightKnee.(x := -Abs(rightKneeBend)));

      pose := pose.(leftAnkle := pose.leftAnkle.(x := leftCycle * 0.2));
      pose := pose.(rightAnkle := pose.rightAnkle.(x := rightCycle * 0.2));

      var isWaving := IsWaving(currentX);

      pose := pose.(rightShoulder := pose.rightShoulder.(x := leftCycle * 0.35));
      pose := pose.(rightElbow := pose.rightElbow.(x := -Abs(leftCycle * 0.3)));

      if isWaving {
        var waveBlend := WaveBlend(currentX);
        var walkRot := rightCycle * 0.35;
        var waveRot := RaisedShoulder;
        pose := pose.(leftShoulder := pose.leftShoulder.(x := Lerp(walkRot, waveRot, waveBlend)));
        pose := pose.(leftShoulder := pose.leftShoulder.(z := Lerp(0.0, ShoulderTwist, waveBlend)));
        pose := pose.(leftElbow := pose.leftElbow.(x := -Pi / 2.0 + g.wave * 0.3));
        pose := pose.(leftElbow := pose.leftElbow.(z := -g.wave * 0.2));
      } else {
        pose := pose.(leftShoulder := pose.leftShoulder.(x := rightCycle * 0.35));
        pose := pose.(leftShoulder := pose.leftShoulder.(z := 0.0));
        pose := pose.(leftElbow := pose.leftElbow.(x := -Abs(rightCycle * 0.3)));
        pose := pose.(leftElbow := pose.leftElbow.(z := 0.0));
      }

      var bob := Abs(g.bob) * 0.12;
      hipY := bob;

      pose := pose.(spine := pose.spine.(z := leftCycle * 0.08));
      pose := pose.(spine := pose.spine.(y := g.sway * 0.05));

      var motionLag := Vec3(leftCycle * 0.05, g.bob * 0.03, 0.0);
      fur.Copy(motionLag);
    }

    /** The forEach of the idle branch: `reset` on every joint of IdleJoints, in order. */
    method ResetIdleJoints()
      modifies this
      ensures forall j :: pose.Get(j) == if Driven(j) then Reset(old(pose.Get(j))) else old(pose.Get(j))
      ensures hipY == old(hipY)
    {
      var i := 0;
      while i < |IdleJoints|
        invariant 0 <= i <= |IdleJoints|
        invariant hipY == old(hipY)
        invariant forall j :: pose.Get(j) == if Slot(j) < i then Reset(old(pose.Get(j))) else old(pose.Get(j))
      {
        SlotOfIdleJoint(i);
        ResetJoint(IdleJoints[i]);
        i := i + 1;
      }
    }

    /** The idle branch: the forEach over IdleJoints, the wave's z axes again, the hips, the fur. */
    method Idle()
      modifies this, fur
      ensures State() == IdleBody(old(State()))
    {
      ResetIdleJoints();
      IdleAfterReset(old(pose), pose);
      pose := pose.(leftShoulder := pose.leftShoulder.(z := Lerp(pose.leftShoulder.z, 0.0, IdleSpeed)));
      pose := pose.(leftElbow := pose.leftElbow.(z := Lerp(pose.leftElbow.z, 0.0, IdleSpeed)));

      hipY := Lerp(hipY, 0.0, IdleSpeed);
      fur.Lerp(Zero, FurIdleSpeed);
    }

    /**
     * One call of the frame callback: the walk or idle branch, then the head eased
     * toward its target. A missing walkParams counts as x = 0.
     */
    method Frame(walkX: Option<real>, isMoving: bool, isLoading: bool, mouse: Pointer,
                 elapsed: real, trig: Trig)
      modifies this, fur
      ensures State() == FrameSpec(old(State()), CurrentX(walkX), isMoving, isLoading, mouse, elapsed, trig)
    {
      var currentX := if walkX.Some? then walkX.value else 0.0;
      if isMoving {
        Walk(currentX, elapsed, trig);
      } else {
        Idle();
      }

      var targetRotY := if isLoading then 0.0 else mouse.x * 0.25;
      var targetRotX := if isLoading then 0.0 else -mouse.y * 0.2;
      pose := pose.(head := pose.head.(y := Lerp(pose.head.y, targetRotY, HeadSpeed)));
      pose := pose.(head := pose.head.(x := Lerp(pose.head.x, targetRotX, HeadSpeed)));
    }
  }
}
