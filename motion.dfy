/**
 * The pure specification of one frame of the panda's procedural animation
 * (the Panda frame callback of src/components/Artifact3D.jsx): the gait phase,
 * the walk pose, the wave blend, the idle decay and the head easing, together
 * with what they guarantee. The class in panda.dfy performs the same frame
 * step by step on mutable state and is proved equal to FrameSpec below.
 */
module Motion {
  import opened ThreeMath
  import opened Optional

  /** The joints of the rig, named as the refs of the Panda component. */
  datatype Joint =
    | Hips | Spine | Neck | Head
    | LeftShoulder | LeftElbow | RightShoulder | RightElbow
    | LeftThigh | LeftKnee | LeftAnkle | RightThigh | RightKnee | RightAnkle

  /** An Euler rotation of one joint, in radians. */
  datatype Rotation = Rotation(x: real, y: real, z: real)

  /** One rotation per joint ref. */
  datatype Pose = Pose(
    hips: Rotation, spine: Rotation, neck: Rotation, head: Rotation,
    leftShoulder: Rotation, leftElbow: Rotation, rightShoulder: Rotation, rightElbow: Rotation,
    leftThigh: Rotation, leftKnee: Rotation, leftAnkle: Rotation,
    rightThigh: Rotation, rightKnee: Rotation, rightAnkle: Rotation)
  {
    /** The rotation of joint j. */
    function Get(j: Joint): Rotation {
      match j
      case Hips => hips
      case Spine => spine
      case Neck => neck
      case Head => head
      case LeftShoulder => leftShoulder
      case LeftElbow => leftElbow
      case RightShoulder => rightShoulder
      case RightElbow => rightElbow
      case LeftThigh => leftThigh
      case LeftKnee => leftKnee
      case LeftAnkle => leftAnkle
      case RightThigh => rightThigh
      case RightKnee => rightKnee
      case RightAnkle => rightAnkle
    }
  }

  /** Two poses that agree on every joint are equal. */
  lemma PoseExtensional(p: Pose, q: Pose)
    requires forall j :: p.Get(j) == q.Get(j)
    ensures p == q
  {
    assert p.Get(Hips) == q.Get(Hips) && p.Get(Spine) == q.Get(Spine) && p.Get(Neck) == q.Get(Neck);
    assert p.Get(Head) == q.Get(Head) && p.Get(LeftShoulder) == q.Get(LeftShoulder);
    assert p.Get(LeftElbow) == q.Get(LeftElbow) && p.Get(RightShoulder) == q.Get(RightShoulder);
    assert p.Get(RightElbow) == q.Get(RightElbow) && p.Get(LeftThigh) == q.Get(LeftThigh);
    assert p.Get(LeftKnee) == q.Get(LeftKnee) && p.Get(LeftAnkle) == q.Get(LeftAnkle);
    assert p.Get(RightThigh) == q.Get(RightThigh) && p.Get(RightKnee) == q.Get(RightKnee);
    assert p.Get(RightAnkle) == q.Get(RightAnkle);
  }

  /** Everything the frame callback writes: joint rotations, hip height, fur lag vector. */
  datatype Body = Body(pose: Pose, hipY: real, fur: Vec3)

  /** The normalised pointer position. */
  datatype Pointer = Pointer(x: real, y: real)

  /** The joints the idle branch hands to `reset`, in the source's order. */
  const IdleJoints: seq<Joint> :=
    [LeftThigh, RightThigh, LeftKnee, RightKnee, LeftAnkle, RightAnkle,
     LeftShoulder, RightShoulder, LeftElbow, RightElbow, Spine]

  const StrideLength: real := 2.5
  const IdleSpeed: real := 0.08
  const FurIdleSpeed: real := 0.1
  const HeadSpeed: real := 0.1
  /** The raised shoulder angle of the wave, -PI / 2.5. */
  const RaisedShoulder: real := -Pi / 2.5
  /** The outward twist of the waving shoulder, -PI / 6. */
  const ShoulderTwist: real := -Pi / 6.0

  /** The walk position: walkParams.current.x, or 0 when there are no walk parameters. */
  function CurrentX(walkX: Option<real>): real {
    match walkX
    case Some(v) => v
    case None => 0.0
  }

  /** The gait phase, tied to the travelled distance rather than to time. */
  function Phase(pos: real): real { (pos + 50.0) * StrideLength }

  /** The knee bend: gentler while the leg swings forward. */
  function KneeBend(cycle: real): real { if cycle > 0.0 then cycle * 0.3 else cycle * 0.8 }

  /** The wave zone. */
  predicate IsWaving(pos: real) { pos > -6.0 }

  /** The continuous weight that blends the left shoulder from walking into the wave. */
  function WaveBlend(pos: real): real { Min(1.0, (pos + 6.0) / 2.0) }

  // ---------------------------------------------------------------------------
  // A walking frame

  /** The sines and cosines one walking frame reads. */
  datatype Gait = Gait(left: real, right: real, wave: real, bob: real, sway: real)

  /**
   * The gait terms at a position: the two leg cycles half a turn apart, the wave
   * oscillation from the clock, and the cosines of the bob and the spine sway.
   */
  function GaitOf(pos: real, elapsed: real, trig: Trig): Gait {
    var ph := Phase(pos);
    Gait(trig.sin(ph), trig.sin(ph + Pi), trig.sin(elapsed * 15.0), trig.cos(ph * 2.0), trig.cos(ph))
  }

  /** A thigh swings with its leg's cycle. */
  function ThighSwing(r: Rotation, cycle: real): Rotation { r.(x := cycle * 0.45) }

  /** A knee only ever bends backwards. */
  function KneeFlex(r: Rotation, cycle: real): Rotation { r.(x := -Abs(KneeBend(cycle))) }

  /** An ankle rolls heel to toe with its leg's cycle. */
  function AnkleRoll(r: Rotation, cycle: real): Rotation { r.(x := cycle * 0.2) }

  /** A shoulder swings against its side's leg. */
  function ArmSwing(r: Rotation, cycle: real): Rotation { r.(x := cycle * 0.35) }

  /** An elbow only ever bends one way. */
  function ElbowFlex(r: Rotation, cycle: real): Rotation { r.(x := -Abs(cycle * 0.3)) }

  /** The left shoulder: blended into the raised, twisted wave pose inside the wave zone. */
  function WaveShoulder(r: Rotation, pos: real, cycle: real): Rotation {
    if IsWaving(pos) then
      r.(x := Lerp(cycle * 0.35, RaisedShoulder, WaveBlend(pos)), z := Lerp(0.0, ShoulderTwist, WaveBlend(pos)))
    else
      r.(x := cycle * 0.35, z := 0.0)
  }

  /** The left elbow: the clock-driven wave inside the wave zone, a walking flex outside it. */
  function WaveElbow(r: Rotation, pos: real, g: Gait): Rotation {
    if IsWaving(pos) then r.(x := -Pi / 2.0 + g.wave * 0.3, z := -g.wave * 0.2)
    else r.(x := -Abs(g.right * 0.3), z := 0.0)
  }

  /** The spine leans and twists with the stride. */
  function SpineSway(r: Rotation, g: Gait): Rotation { r.(z := g.left * 0.08, y := g.sway * 0.05) }

  /** The pose a walking frame leaves; the hips, neck and head are not written. */
  function WalkPose(p: Pose, pos: real, g: Gait): Pose {
    p.(leftThigh := ThighSwing(p.leftThigh, g.left), rightThigh := ThighSwing(p.rightThigh, g.right),
       leftKnee := KneeFlex(p.leftKnee, g.left), rightKnee := KneeFlex(p.rightKnee, g.right),
       leftAnkle := AnkleRoll(p.leftAnkle, g.left), rightAnkle := AnkleRoll(p.rightAnkle, g.right),
       rightShoulder := ArmSwing(p.rightShoulder, g.left), rightElbow := ElbowFlex(p.rightElbow, g.left),
       leftShoulder := WaveShoulder(p.leftShoulder, pos, g.right), leftElbow := WaveElbow(p.leftElbow, pos, g),
       spine := SpineSway(p.spine, g))
  }

  /** The hip bob: the hips rise twice per stride. */
  function WalkHip(g: Gait): real { Abs(g.bob) * 0.12 }

  /** The fur lag vector of a walking frame. */
  function WalkFur(g: Gait): Vec3 { Vec3(g.left * 0.05, g.bob * 0.03, 0.0) }

  /** The walking branch: the pose from the gait, the hip bob, the fur lag vector. */
  function WalkBody(b: Body, pos: real, elapsed: real, trig: Trig): Body {
    var g := GaitOf(pos, elapsed, trig);
    Body(WalkPose(b.pose, pos, g), WalkHip(g), WalkFur(g))
  }

  // ---------------------------------------------------------------------------
  // An idle frame

  /** The joints the idle branch drives: all but the hips, the neck and the head. */
  predicate Driven(j: Joint) { !(j.Hips? || j.Neck? || j.Head?) }

  lemma DrivenAreIdleJoints(j: Joint)
    ensures Driven(j) <==> j in IdleJoints
  {
  }

  /** The factor by which the idle branch scales the z axis of a joint. */
  function IdleZFactor(j: Joint): (f: real)
    ensures 0.0 < f <= 1.0 - IdleSpeed
    ensures j == LeftShoulder || j == LeftElbow ==> f == 0.8464
  {
    if j == LeftShoulder || j == LeftElbow then (1.0 - IdleSpeed) * (1.0 - IdleSpeed)
    else 1.0 - IdleSpeed
  }

  /** What an idle frame does to one joint. */
  function IdleJoint(j: Joint, r: Rotation): Rotation {
    if Driven(j) then
      Rotation((1.0 - IdleSpeed) * r.x, (1.0 - IdleSpeed) * r.y, IdleZFactor(j) * r.z)
    else r
  }

  /** One idle `reset` of a joint: every axis eases 8% of the way toward zero. */
  function Ease(r: Rotation): Rotation {
    Rotation((1.0 - IdleSpeed) * r.x, (1.0 - IdleSpeed) * r.y, (1.0 - IdleSpeed) * r.z)
  }

  /** A waving arm joint: reset, then its z axis eases toward zero a second time. */
  function EaseWaveArm(r: Rotation): Rotation {
    Rotation((1.0 - IdleSpeed) * r.x, (1.0 - IdleSpeed) * r.y, IdleZFactor(LeftShoulder) * r.z)
  }

  /** The pose an idle frame leaves: the hips, neck and head keep their rotations. */
  function IdlePose(p: Pose): Pose {
    p.(spine := Ease(p.spine),
       leftShoulder := EaseWaveArm(p.leftShoulder), leftElbow := EaseWaveArm(p.leftElbow),
       rightShoulder := Ease(p.rightShoulder), rightElbow := Ease(p.rightElbow),
       leftThigh := Ease(p.leftThigh), leftKnee := Ease(p.leftKnee), leftAnkle := Ease(p.leftAnkle),
       rightThigh := Ease(p.rightThigh), rightKnee := Ease(p.rightKnee), rightAnkle := Ease(p.rightAnkle))
  }

  /** Every joint of the idle pose is IdleJoint of the old one. */
  lemma IdlePoseGet(p: Pose, j: Joint)
    ensures IdlePose(p).Get(j) == IdleJoint(j, p.Get(j))
  {
  }

  /** The idle branch: every driven joint, the hip height and the fur vector ease toward zero. */
  function IdleBody(b: Body): Body {
    Body(IdlePose(b.pose),
         (1.0 - IdleSpeed) * b.hipY,
         Vec3((1.0 - FurIdleSpeed) * b.fur.x, (1.0 - FurIdleSpeed) * b.fur.y, (1.0 - FurIdleSpeed) * b.fur.z))
  }

  // ---------------------------------------------------------------------------
  // The head and the whole frame

  /** The head's target: straight ahead while loading, otherwise following the pointer. */
  function HeadTarget(isLoading: bool, mouse: Pointer): Rotation {
    if isLoading then Rotation(0.0, 0.0, 0.0) else Rotation(-mouse.y * 0.2, mouse.x * 0.25, 0.0)
  }

  /** The head easing; its z axis is never written. */
  function HeadStep(r: Rotation, isLoading: bool, mouse: Pointer): Rotation {
    var t := HeadTarget(isLoading, mouse);
    r.(y := Lerp(r.y, t.y, HeadSpeed), x := Lerp(r.x, t.x, HeadSpeed))
  }

  /** One whole frame: the walk or idle branch, then the head easing. */
  function FrameSpec(b: Body, pos: real, isMoving: bool, isLoading: bool, mouse: Pointer,
                     elapsed: real, trig: Trig): Body
  {
    var m := if isMoving then WalkBody(b, pos, elapsed, trig) else IdleBody(b);
    m.(pose := m.pose.(head := HeadStep(b.pose.head, isLoading, mouse)))
  }

  // ---------------------------------------------------------------------------
  // Properties of a walking frame

  /** Legs and arms only flex: knees and elbows never bend past straight; the hip bob never sinks. */
  lemma WalkFlexesOnly(b: Body, pos: real, isLoading: bool, mouse: Pointer, elapsed: real, trig: Trig)
    requires Bounded(trig)
    ensures var r := FrameSpec(b, pos, true, isLoading, mouse, elapsed, trig);
      && r.pose.leftKnee.x <= 0.0 && r.pose.rightKnee.x <= 0.0
      && r.pose.rightElbow.x <= 0.0
      && (!IsWaving(pos) ==> r.pose.leftElbow.x <= 0.0)
      && 0.0 <= r.hipY <= 0.12
  {
    var c := trig.cos(Phase(pos) * 2.0);
    assert -1.0 <= c <= 1.0;
  }

  /** With the half-turn identity for sin, the two legs are exactly antiphase. */
  lemma LegsAntiphase(b: Body, pos: real, isLoading: bool, mouse: Pointer, elapsed: real, trig: Trig)
    requires HalfTurnOdd(trig)
    ensures var r := FrameSpec(b, pos, true, isLoading, mouse, elapsed, trig);
      && r.pose.rightThigh.x == -r.pose.leftThigh.x
      && r.pose.rightAnkle.x == -r.pose.leftAnkle.x
  {
    var ph := Phase(pos);
    assert trig.sin(ph + Pi) == -trig.sin(ph);
  }

  /** The wave blend lies in (0, 1] exactly inside the wave zone and is 1 from x = -4 on. */
  lemma WaveBlendRange(pos: real)
    ensures IsWaving(pos) <==> pos > -6.0
    ensures IsWaving(pos) ==> 0.0 < WaveBlend(pos) <= 1.0
    ensures pos >= -4.0 ==> WaveBlend(pos) == 1.0
    ensures pos <= -4.0 ==> WaveBlend(pos) == (pos + 6.0) / 2.0
  {
  }

  /** The blend never decreases along the path and changes at most half as fast as the position. */
  lemma WaveBlendMonotoneLipschitz(p: real, q: real)
    requires p <= q
    ensures WaveBlend(p) <= WaveBlend(q)
    ensures WaveBlend(q) - WaveBlend(p) <= (q - p) / 2.0
  {
  }

  /** Inside the wave zone the left shoulder is blended; from x = -4 on it is exactly the raised pose. */
  lemma WaveShoulderPose(b: Body, pos: real, isLoading: bool, mouse: Pointer, elapsed: real, trig: Trig)
    ensures var r := FrameSpec(b, pos, true, isLoading, mouse, elapsed, trig);
      var ls := r.pose.leftShoulder;
      && (pos >= -4.0 ==> ls.x == -Pi / 2.5 && ls.z == -Pi / 6.0)
      && (IsWaving(pos) ==> ls.z == WaveBlend(pos) * (-Pi / 6.0))
      && (!IsWaving(pos) ==> ls.z == 0.0 && r.pose.leftElbow.z == 0.0)
  {
  }

  /**
   * The walk is driven by position alone: outside the wave zone two frames at the
   * same position produce the same body whatever the clock says, and inside it only
   * the left elbow depends on the clock.
   */
  lemma WalkIndependentOfClock(b: Body, pos: real, isLoading: bool, mouse: Pointer,
                               e1: real, e2: real, trig: Trig)
    ensures var r1 := FrameSpec(b, pos, true, isLoading, mouse, e1, trig);
      var r2 := FrameSpec(b, pos, true, isLoading, mouse, e2, trig);
      && r1.hipY == r2.hipY && r1.fur == r2.fur
      && r1.pose.(leftElbow := r2.pose.leftElbow) == r2.pose
      && (!IsWaving(pos) ==> r1 == r2)
  {
  }

  /** The distance the panda travels in one stride: one full turn of the gait phase. */
  const StridePeriod: real := 2.0 * Pi / StrideLength

  /**
   * The stride is locked to the position, not to time: outside the wave zone the walking
   * frame repeats exactly every StridePeriod of travel, whatever either clock reads.
   */
  lemma StrideRepeats(b: Body, pos: real, e1: real, e2: real, trig: Trig)
    requires Periodic(trig)
    requires !IsWaving(pos + StridePeriod)
    ensures WalkBody(b, pos, e1, trig) == WalkBody(b, pos + StridePeriod, e2, trig)
  {
    var ph := Phase(pos);
    assert Phase(pos + StridePeriod) == ph + 2.0 * Pi;
    assert trig.sin(ph + 2.0 * Pi) == trig.sin(ph);
    assert ph + 2.0 * Pi + Pi == (ph + Pi) + 2.0 * Pi;
    assert trig.sin((ph + Pi) + 2.0 * Pi) == trig.sin(ph + Pi);
    assert (ph + 2.0 * Pi) * 2.0 == (ph * 2.0 + 2.0 * Pi) + 2.0 * Pi;
    assert trig.cos((ph * 2.0 + 2.0 * Pi) + 2.0 * Pi) == trig.cos(ph * 2.0 + 2.0 * Pi);
    assert trig.cos(ph * 2.0 + 2.0 * Pi) == trig.cos(ph * 2.0);
    assert trig.cos(ph + 2.0 * Pi) == trig.cos(ph);
  }

  // ---------------------------------------------------------------------------
  // Properties of an idle frame

  /** The idle branch scales each listed joint by 0.92, the wave's z axes twice, the hip by 0.92, the fur by 0.9. */
  lemma IdleScales(b: Body, j: Joint, isLoading: bool, mouse: Pointer, pos: real, elapsed: real, trig: Trig)
    requires j != Head
    ensures var r := FrameSpec(b, pos, false, isLoading, mouse, elapsed, trig);
      var n := r.pose.Get(j); var o := b.pose.Get(j);
      && (j in IdleJoints ==> n.x == 0.92 * o.x && n.y == 0.92 * o.y)
      && (j in IdleJoints && j != LeftShoulder && j != LeftElbow ==> n.z == 0.92 * o.z)
      && (j == LeftShoulder || j == LeftElbow ==> n.z == 0.8464 * o.z)
      && (j == Hips || j == Neck ==> n == o)
      && r.hipY == 0.92 * b.hipY
      && r.fur == Vec3(0.9 * b.fur.x, 0.9 * b.fur.y, 0.9 * b.fur.z)
  {
    DrivenAreIdleJoints(j);
    var r := FrameSpec(b, pos, false, isLoading, mouse, elapsed, trig);
    assert r.pose.Get(j) == IdlePose(b.pose).Get(j);
    IdlePoseGet(b.pose, j);
  }

  /** One idle frame never increases any rotation magnitude and strictly shrinks every non-zero one it drives. */
  lemma IdleContracts(b: Body, j: Joint)
    ensures var r := IdleBody(b).pose.Get(j); var o := b.pose.Get(j);
      && Abs(r.x) <= Abs(o.x) && Abs(r.y) <= Abs(o.y) && Abs(r.z) <= Abs(o.z)
      && (Driven(j) ==>
            (o.x != 0.0 ==> Abs(r.x) < Abs(o.x)) && (o.y != 0.0 ==> Abs(r.y) < Abs(o.y))
            && (o.z != 0.0 ==> Abs(r.z) < Abs(o.z)))
      && (!Driven(j) ==> r == o)
    ensures Abs(IdleBody(b).hipY) <= Abs(b.hipY)
    ensures b.hipY != 0.0 ==> Abs(IdleBody(b).hipY) < Abs(b.hipY)
  {
    IdlePoseGet(b.pose, j);
  }

  /** n consecutive idle frames (without the head, which follows its own target). */
  function IdleIter(b: Body, n: nat): Body {
    if n == 0 then b else IdleBody(IdleIter(b, n - 1))
  }

  /** n consecutive idle frames applied to one joint's rotation. */
  function JointIter(j: Joint, r: Rotation, n: nat): Rotation {
    if n == 0 then r else IdleJoint(j, JointIter(j, r, n - 1))
  }

  /** Each joint evolves on its own under idle frames. */
  lemma {:induction false} IdleIterJoint(b: Body, n: nat, j: Joint)
    ensures IdleIter(b, n).pose.Get(j) == JointIter(j, b.pose.Get(j), n)
  {
    if n > 0 {
      IdleIterJoint(b, n - 1, j);
      IdlePoseGet(IdleIter(b, n - 1).pose, j);
    }
  }

  /** After n idle frames the x and y axes of a driven joint have decayed by 0.92 n times. */
  lemma {:induction false} JointIterXY(j: Joint, r: Rotation, n: nat)
    requires Driven(j)
    ensures JointIter(j, r, n).x == Decay(0.92, r.x, n) && JointIter(j, r, n).y == Decay(0.92, r.y, n)
  {
    if n > 0 {
      JointIterXY(j, r, n - 1);
    }
  }

  /** After n idle frames the z axis of a driven joint has decayed by its own factor n times. */
  lemma {:induction false} JointIterZ(j: Joint, r: Rotation, n: nat)
    requires Driven(j)
    ensures JointIter(j, r, n).z == Decay(IdleZFactor(j), r.z, n)
  {
    if n > 0 {
      JointIterZ(j, r, n - 1);
    }
  }

  /** The hips, neck and head are never touched by idle frames. */
  lemma {:induction false} JointIterFixed(j: Joint, r: Rotation, n: nat)
    requires !Driven(j)
    ensures JointIter(j, r, n) == r
  {
    if n > 0 {
      JointIterFixed(j, r, n - 1);
    }
  }

  /** After n idle frames the hip height has decayed by 0.92 n times. */
  lemma {:induction false} IdleIterHip(b: Body, n: nat)
    ensures IdleIter(b, n).hipY == Decay(0.92, b.hipY, n)
  {
    if n > 0 {
      IdleIterHip(b, n - 1);
    }
  }

  /** The settling divisor after n idle frames: 1 + 0.08 n. */
  function Settle(n: nat): (k: real)
    ensures k >= 1.0 && (n > 0 ==> k > 1.0)
  {
    1.0 + IdleSpeed * (n as real)
  }

  /**
   * Idle decay settles: after n idle frames every axis of a driven joint, and the hip
   * height, is at most 1 / (1 + 0.08 n) of its start value, so it comes within any
   * epsilon of rest in a bounded number of frames.
   */
  lemma IdleSettles(b: Body, n: nat, j: Joint)
    requires Driven(j)
    ensures ShrunkBy(IdleIter(b, n).pose.Get(j).x, b.pose.Get(j).x, Settle(n))
    ensures ShrunkBy(IdleIter(b, n).pose.Get(j).y, b.pose.Get(j).y, Settle(n))
    ensures ShrunkBy(IdleIter(b, n).pose.Get(j).z, b.pose.Get(j).z, Settle(n))
    ensures ShrunkBy(IdleIter(b, n).hipY, b.hipY, Settle(n))
  {
    var o := b.pose.Get(j);
    IdleIterJoint(b, n, j);
    JointIterXY(j, o, n);
    JointIterZ(j, o, n);
    IdleIterHip(b, n);
    DecaySettles(0.92, IdleSpeed, o.x, n, Settle(n));
    DecaySettles(0.92, IdleSpeed, o.y, n, Settle(n));
    DecaySettles(IdleZFactor(j), IdleSpeed, o.z, n, Settle(n));
    DecaySettles(0.92, IdleSpeed, b.hipY, n, Settle(n));
  }

  /**
   * The epsilon form, axis by axis: after n idle frames every driven axis, and the hip
   * height, whose start value is at most 0.08 n eps is below eps.
   */
  lemma IdleWithinEpsilon(b: Body, n: nat, j: Joint, eps: real)
    requires Driven(j) && eps > 0.0
    ensures IdleSpeed * (n as real) * eps >= Abs(b.pose.Get(j).x) ==> Abs(IdleIter(b, n).pose.Get(j).x) < eps
    ensures IdleSpeed * (n as real) * eps >= Abs(b.pose.Get(j).y) ==> Abs(IdleIter(b, n).pose.Get(j).y) < eps
    ensures IdleSpeed * (n as real) * eps >= Abs(b.pose.Get(j).z) ==> Abs(IdleIter(b, n).pose.Get(j).z) < eps
    ensures IdleSpeed * (n as real) * eps >= Abs(b.hipY) ==> Abs(IdleIter(b, n).hipY) < eps
  {
    IdleSettles(b, n, j);
    var o, v := b.pose.Get(j), IdleIter(b, n).pose.Get(j);
    SettledBelow(v.x, o.x, n, eps);
    SettledBelow(v.y, o.y, n, eps);
    SettledBelow(v.z, o.z, n, eps);
    SettledBelow(IdleIter(b, n).hipY, b.hipY, n, eps);
  }

  /** One value shrunk by the settling divisor, started within 0.08 n eps, is below eps. */
  lemma SettledBelow(v: real, o: real, n: nat, eps: real)
    requires eps > 0.0 && ShrunkBy(v, o, Settle(n))
    ensures IdleSpeed * (n as real) * eps >= Abs(o) ==> Abs(v) < eps
  {
    if IdleSpeed * (n as real) * eps >= Abs(o) {
      BelowByFactor(v, o, IdleSpeed * (n as real), eps);
    }
  }

  lemma BelowByFactor(v: real, o: real, c: real, eps: real)
    requires c >= 0.0 && eps > 0.0 && ShrunkBy(v, o, 1.0 + c) && c * eps >= Abs(o)
    ensures Abs(v) < eps
  {
    assert Abs(v) * (1.0 + c) < (1.0 + c) * eps;
  }

  // ---------------------------------------------------------------------------
  // Properties of the head easing and of the whole frame

  /** Every frame, moving or idle, the head covers 10% of the way to its target on x and y; z is untouched. */
  lemma HeadEases(b: Body, pos: real, isMoving: bool, isLoading: bool, mouse: Pointer, elapsed: real, trig: Trig)
    ensures var h := FrameSpec(b, pos, isMoving, isLoading, mouse, elapsed, trig).pose.head;
      var o := b.pose.head; var t := HeadTarget(isLoading, mouse);
      && h.x - t.x == 0.9 * (o.x - t.x)
      && h.y - t.y == 0.9 * (o.y - t.y)
      && h.z == o.z
  {
    var o := b.pose.head;
    var t := HeadTarget(isLoading, mouse);
    LerpGap(o.x, t.x, HeadSpeed);
    LerpGap(o.y, t.y, HeadSpeed);
  }

  /** No frame, walking or idle, ever writes the rotation of the hips or of the neck. */
  lemma HipsAndNeckUntouched(b: Body, pos: real, isMoving: bool, isLoading: bool, mouse: Pointer,
                             elapsed: real, trig: Trig)
    ensures var r := FrameSpec(b, pos, isMoving, isLoading, mouse, elapsed, trig);
      r.pose.hips == b.pose.hips && r.pose.neck == b.pose.neck
  {
  }
}
