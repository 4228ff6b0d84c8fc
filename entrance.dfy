/**
 * The entrance of the panda (src/components/Artifact3D.jsx): the shared walk
 * parameters, the timeline that restarts them from off-stage and tweens them to
 * the centre, the `isMoving` flag handed to the panda, and the Scene's frame
 * callback that copies the walk parameters onto the scene group while loading and
 * pins it to the centre afterwards. Easing curves are not modelled: a tween is
 * described by its property, target, duration and position only.
 */
module Entrance {
  import opened ThreeMath
  import opened Optional

  /** Where the walk starts: far to the left, turned sideways. */
  const StartX: real := -50.0
  const StartRotationY: real := Pi / 2.0

  /** The two animated properties of walkParams.current. */
  datatype Prop = X | RotationY

  /** A value of walkParams.current. */
  datatype Params = Params(x: real, rotationY: real) {
    function Get(p: Prop): real {
      match p
      case X => x
      case RotationY => rotationY
    }

    function Set(p: Prop, v: real): Params {
      match p
      case X => this.(x := v)
      case RotationY => this.(rotationY := v)
    }
  }

  /**
   * One `tl.to` call: which property is tweened, to what, for how long, and where it
   * is placed relative to the end of the timeline so far ("-=1.2" is -1.2).
   */
  datatype Tween = Tween(prop: Prop, target: real, duration: real, position: real)

  /** The entrance: walk in to x = 0 over 3.5 s, then turn to face front over 1.5 s, starting 1.2 s early. */
  const EntranceTimeline: seq<Tween> := [Tween(X, 0.0, 3.5, 0.0), Tween(RotationY, 0.0, 1.5, -1.2)]

  /** The parameters once every tween of ts has run to completion, in order. */
  function Completed(p: Params, ts: seq<Tween>): Params
    decreases |ts|
  {
    if |ts| == 0 then p
    else Completed(p, ts[..|ts| - 1]).Set(ts[|ts| - 1].prop, ts[|ts| - 1].target)
  }

  /** The target of the last tween of ts on property q, if any. */
  function LastTarget(ts: seq<Tween>, q: Prop): (r: Option<real>)
    ensures r.None? <==> forall i :: 0 <= i < |ts| ==> ts[i].prop != q
    ensures r.Some? ==> exists i :: 0 <= i < |ts| && ts[i].prop == q && ts[i].target == r.value
    decreases |ts|
  {
    if |ts| == 0 then None
    else if ts[|ts| - 1].prop == q then Some(ts[|ts| - 1].target)
    else LastTarget(ts[..|ts| - 1], q)
  }

  /** Setting one property leaves the other alone. */
  lemma SetGet(p: Params, a: Prop, v: real, q: Prop)
    ensures p.Set(a, v).Get(q) == if a == q then v else p.Get(q)
  {
  }

  /**
   * A completed timeline leaves each property at the target of the last tween on
   * it, and untouched when no tween names it.
   */
  lemma {:induction false} CompletedProp(p: Params, ts: seq<Tween>, q: Prop)
    ensures Completed(p, ts).Get(q) == match LastTarget(ts, q) case None => p.Get(q) case Some(v) => v
    decreases |ts|
  {
    if |ts| > 0 {
      var t := ts[|ts| - 1];
      CompletedProp(p, ts[..|ts| - 1], q);
      SetGet(Completed(p, ts[..|ts| - 1]), t.prop, t.target, q);
    }
  }

  /** Whatever the parameters were, the completed entrance leaves the panda centred and facing front. */
  lemma EntranceSettles(p: Params)
    ensures Completed(p, EntranceTimeline) == Params(0.0, 0.0)
  {
    CompletedProp(p, EntranceTimeline, X);
    CompletedProp(p, EntranceTimeline, RotationY);
    assert EntranceTimeline[..1] == [Tween(X, 0.0, 3.5, 0.0)];
  }

  /** The end time of a timeline: each tween starts at the end so far plus its position. */
  function TimelineEnd(ts: seq<Tween>): real
    decreases |ts|
  {
    if |ts| == 0 then 0.0
    else
      var e := TimelineEnd(ts[..|ts| - 1]);
      var t := ts[|ts| - 1];
      if t.position + t.duration > 0.0 then e + t.position + t.duration else e
  }

  /** The turn starts 1.2 s before the walk ends (at 2.3 s) and the whole entrance lasts 3.8 s. */
  lemma EntranceSchedule()
    ensures TimelineEnd(EntranceTimeline[..1]) == 3.5
    ensures TimelineEnd(EntranceTimeline[..1]) + EntranceTimeline[1].position == 2.3
    ensures TimelineEnd(EntranceTimeline) == 3.8
  {
    assert EntranceTimeline[..1][..0] == [];
    assert EntranceTimeline[..|EntranceTimeline| - 1] == EntranceTimeline[..1];
  }

  /** walkParams.current: one object, shared by the timeline, the Scene and the Panda. */
  class WalkParams {
    var x: real
    var rotationY: real

    function Value(): Params
      reads this
    {
      Params(x, rotationY)
    }

    /** The initial value of the ref: off-stage and turned sideways. */
    constructor ()
      ensures Value() == Params(StartX, StartRotationY)
    {
      x := StartX;
      rotationY := StartRotationY;
    }

    /**
     * The timeline effect: while loading it resets the parameters to the start of the
     * walk and returns the tweens it schedules; otherwise it does nothing.
     */
    method Restart(isLoading: bool) returns (tweens: seq<Tween>)
      modifies this
      ensures isLoading ==> Value() == Params(StartX, StartRotationY) && tweens == EntranceTimeline
      ensures !isLoading ==> Value() == old(Value()) && tweens == []
    {
      tweens := [];
      if isLoading {
        x := StartX;
        rotationY := StartRotationY;
        tweens := tweens + [Tween(X, 0.0, 3.5, 0.0)];
        tweens := tweens + [Tween(RotationY, 0.0, 1.5, -1.2)];
      }
    }

    /** The tweens of a timeline have all run to completion. */
    method Finish(tweens: seq<Tween>)
      modifies this
      ensures Value() == Completed(old(Value()), tweens)
    {
      var c := Completed(Params(x, rotationY), tweens);
      x := c.x;
      rotationY := c.rotationY;
    }
  }

  /**
   * The flag the Scene hands to the Panda. It is evaluated when the Scene renders,
   * with the x the walk parameters hold at that render, and the Panda keeps it until
   * the next render; the frames in between do not re-evaluate it.
   */
  predicate IsMoving(isLoading: bool, xAtRender: real) { isLoading && Abs(xAtRender) > 0.05 }

  /** Whether a Scene frame advances the walk clock: evaluated every frame, with the current x. */
  predicate ClockRuns(isLoading: bool, x: real) { isLoading && Abs(x) > 0.01 }

  /**
   * At the x a render samples, a walking panda has the clock running; once loading is
   * over neither runs, wherever the walk parameters are. The band 0.01 < |x| <= 0.05,
   * where the clock runs and the flag is off, is only reached if some render samples x
   * there while loading.
   */
  lemma MovingRunsClock(isLoading: bool, x: real)
    ensures IsMoving(isLoading, x) ==> ClockRuns(isLoading, x)
    ensures ClockRuns(isLoading, x) && !IsMoving(isLoading, x) <==> isLoading && 0.01 < Abs(x) <= 0.05
    ensures !isLoading ==> !IsMoving(isLoading, x) && !ClockRuns(isLoading, x)
  {
  }

  /**
   * The render that starts the entrance samples the initial walk parameters, so the
   * panda walks; it walks on through every frame of the entrance, until the timeline's
   * completion ends the loading phase and the render that follows turns the flag off
   * wherever the walk has got to.
   */
  lemma EntranceStartsAndStops()
    ensures IsMoving(true, StartX)
    ensures forall x :: !IsMoving(false, x)
  {
  }

  /** The Scene's group transform and the walk clock (elapsedRef). */
  class Scene {
    var posX: real
    var rotY: real
    var elapsed: real

    /** A mounted scene: the group at the origin, the clock at 0. */
    constructor ()
      ensures posX == 0.0 && rotY == 0.0 && elapsed == 0.0
    {
      posX, rotY, elapsed := 0.0, 0.0, 0.0;
    }

    /**
     * One frame: the clock advances by delta only while loading with |x| > 0.01; the
     * transform mirrors the walk parameters while loading and is pinned to exactly
     * the centre afterwards.
     */
    method Frame(isLoading: bool, walk: WalkParams, delta: real)
      modifies this
      ensures elapsed == old(elapsed) + (if ClockRuns(isLoading, walk.x) then delta else 0.0)
      ensures isLoading ==> posX == walk.x && rotY == walk.rotationY
      ensures !isLoading ==> posX == 0.0 && rotY == 0.0
    {
      if isLoading && Abs(walk.x) > 0.01 {
        elapsed := elapsed + delta;
      }
      if isLoading {
        posX := walk.x;
        rotY := walk.rotationY;
      } else {
        posX := 0.0;
        rotY := 0.0;
      }
    }
  }

  /**
   * Once the entrance has completed, ending the loading phase does not move the scene:
   * the last loading frame and the first frame after it show the same transform, the
   * centre.
   */
  method NoJumpAtHandOff(scene: Scene, walk: WalkParams, p: Params, delta: real)
    returns (loading: Params, loaded: Params)
    requires walk.Value() == Completed(p, EntranceTimeline)
    modifies scene
    ensures loading == loaded == Params(0.0, 0.0)
  {
    EntranceSettles(p);
    scene.Frame(true, walk, delta);
    loading := Params(scene.posX, scene.rotY);
    scene.Frame(false, walk, delta);
    loaded := Params(scene.posX, scene.rotY);
  }
}
