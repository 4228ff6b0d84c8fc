/**
 * Shell fur (src/components/Artifact3D.jsx, ShellFur and ShellFurMaterial): a
 * mesh is drawn `count` times, shell i pushed out along the normal by a fraction
 * i / count of the fur thickness, dragged back by the fur-motion vector in
 * proportion to the square of that fraction, thinned by discarding fragments whose
 * strand noise falls below the fraction, and darkened toward the skin. The strand
 * noise (a hash of the texture coordinate) is an input here.
 */
module ShellFur {
  import opened ThreeMath

  /** The props one shell's material receives. */
  datatype Shell = Shell(layer: nat, totalLayers: nat, thickness: real)

  /** The shells of one ShellFur: one per layer index 0 .. count - 1, all with the same count and thickness. */
  function Shells(count: nat, thickness: real): (r: seq<Shell>)
    ensures |r| == count
    ensures forall i :: 0 <= i < count ==> r[i].layer == i && r[i].totalLayers == count && r[i].thickness == thickness
  {
    seq(count, i requires 0 <= i < count => Shell(i, count, thickness))
  }

  /** vLayerNorm: how far out a layer sits, as a fraction of the fur. */
  function LayerNorm(layer: nat, total: nat): real
    requires total > 0
  {
    (layer as real) / (total as real)
  }

  /** The outward push of a layer along the normal. */
  function LayerThickness(ln: real, thickness: real): real { ln * thickness }

  /** The lag coefficient: outer layers trail the motion more, quadratically. */
  function LagFactor(ln: real): real { ln * ln * 0.6 }

  /** The displaced vertex of a shell: pushed out along the normal, pulled back by the motion offset. */
  function Displace(position: Vec3, normal: Vec3, ln: real, thickness: real, motion: Vec3): Vec3 {
    position.Add(normal.Scale(LayerThickness(ln, thickness))).Sub(motion.Scale(LagFactor(ln)))
  }

  /** Whether a fragment of a layer is discarded: its strand noise falls below the layer fraction. */
  predicate Discarded(noise: real, ln: real) { noise < ln }

  /** The fake ambient occlusion: inner layers are darker. */
  function Darken(ln: real): real { 0.4 + 0.6 * ln }

  /** Every shell of a ShellFur has its layer fraction in [0, 1), strictly increasing outward. */
  lemma ShellsLayerNorms(count: nat, thickness: real, i: nat, j: nat)
    requires i < j < count
    ensures var s := Shells(count, thickness);
      && 0.0 <= LayerNorm(s[i].layer, s[i].totalLayers) < LayerNorm(s[j].layer, s[j].totalLayers) < 1.0
      && LayerNorm(s[0].layer, s[0].totalLayers) == 0.0
  {
    var c := count as real;
    DivStrict(i as real, j as real, c);
    DivStrict(j as real, c, c);
  }

  lemma DivStrict(a: real, b: real, c: real)
    requires a < b && c > 0.0
    ensures a / c < b / c
  {
    var q, r := a / c, b / c;
    assert q * c == a && r * c == b;
    if q >= r {
      MulRight(r, q, c);
    }
  }

  /** The layer fraction of a valid layer lies in [0, 1). */
  lemma LayerNormRange(layer: nat, total: nat)
    requires layer < total
    ensures 0.0 <= LayerNorm(layer, total) < 1.0
  {
  }

  /** A layer inside the fur is pushed out no further than the fur's thickness, and the base layer not at all. */
  lemma OffsetWithinFur(ln: real, thickness: real)
    requires 0.0 <= ln <= 1.0 && thickness >= 0.0
    ensures 0.0 <= LayerThickness(ln, thickness) <= thickness
    ensures ln == 0.0 ==> LayerThickness(ln, thickness) == 0.0
  {
    MulRight(ln, 1.0, thickness);
    assert ln * thickness <= thickness;
    MulRight(0.0, ln, thickness);
    assert 0.0 <= ln * thickness;
  }

  /** The lag is zero on the base layer, never negative, at most 0.6, and grows outward. */
  lemma LagShape(a: real, b: real)
    requires 0.0 <= a <= b <= 1.0
    ensures LagFactor(0.0) == 0.0
    ensures 0.0 <= LagFactor(a) <= LagFactor(b) <= 0.6
  {
    SquareMono(a, b);
    SquareMono(b, 1.0);
    MulRight(a * a, b * b, 0.6);
    MulRight(b * b, 1.0, 0.6);
  }

  /** The base shell is the mesh surface itself, whatever the motion. */
  lemma BaseShellIsSurface(position: Vec3, normal: Vec3, thickness: real, motion: Vec3)
    ensures Displace(position, normal, 0.0, thickness, motion) == position
  {
  }

  /** A zero motion vector leaves every shell exactly on its normal offset: no trailing at all. */
  lemma NoLagWithoutMotion(position: Vec3, normal: Vec3, ln: real, thickness: real)
    ensures Displace(position, normal, ln, thickness, Zero) == position.Add(normal.Scale(ln * thickness))
  {
  }

  /** The darkening lies in [0.4, 1) for every valid layer, and grows outward. */
  lemma DarkenRange(a: real, b: real)
    requires 0.0 <= a <= b < 1.0
    ensures 0.4 <= Darken(a) <= Darken(b) < 1.0
  {
  }

  /**
   * Tapering: with noise in [0, 1) the base layer never discards, and a fragment
   * discarded at one layer is discarded at every layer further out.
   */
  lemma DiscardTapers(noise: real, a: real, b: real)
    requires 0.0 <= noise < 1.0 && a <= b
    ensures !Discarded(noise, 0.0)
    ensures Discarded(noise, a) ==> Discarded(noise, b)
  {
  }

  /** A strand survives at layer l of n exactly when l <= noise * n: the kept layers form a prefix. */
  lemma KeptLayers(noise: real, layer: nat, total: nat)
    requires total > 0
    ensures !Discarded(noise, LayerNorm(layer, total)) <==> (layer as real) <= noise * (total as real)
  {
    var t := total as real;
    var l := layer as real;
    assert (l / t) * t == l;
    if noise < l / t {
      MulRight(noise, l / t, t);
    }
    if l > noise * t {
      assert noise * t / t == noise;
      assert l / t > noise * t / t;
    }
  }

  /**
   * The material of one shell. Its uniforms are made once, when the material mounts;
   * the motion uniform owns its own vector, into which the mount-time effect copies
   * the motionOffset prop. The effect re-runs only when a render passes a different
   * motionOffset object: its dependency is the reference, not the vector's contents.
   */
  class ShellFurMaterial {
    const uLayer: real
    const uTotalLayers: real
    const uThickness: real
    const uMotionOffset: Vector3
    /** The motionOffset object the effect last ran with. */
    var motionDep: Vector3

    /** Mounting: the uniforms from the first props, then the effect copies the motion vector once. */
    constructor (layer: nat, totalLayers: nat, thickness: real, motionOffset: Vector3)
      ensures fresh(uMotionOffset)
      ensures uLayer == layer as real && uTotalLayers == totalLayers as real && uThickness == thickness
      ensures uMotionOffset.Value() == motionOffset.Value() && motionDep == motionOffset
    {
      uLayer := layer as real;
      uTotalLayers := totalLayers as real;
      uThickness := thickness;
      uMotionOffset := new Vector3(0.0, 0.0, 0.0);
      motionDep := motionOffset;
      new;
      uMotionOffset.Copy(motionOffset.Value());
    }

    /**
     * A re-render with new props, as written: the layer, count and thickness uniforms
     * keep their mount-time values, and the motion vector is copied only when the
     * motionOffset reference differs from the last one.
     */
    method Rerender(motionOffset: Vector3)
      modifies this, uMotionOffset
      ensures motionDep == motionOffset
      ensures motionOffset != old(motionDep) ==> uMotionOffset.Value() == old(motionOffset.Value())
      ensures motionOffset == old(motionDep) ==> uMotionOffset.Value() == old(uMotionOffset.Value())
    {
      if motionOffset != motionDep {
        uMotionOffset.Copy(motionOffset.Value());
      }
      motionDep := motionOffset;
    }

    /** The intended synchronisation: every frame the motion uniform takes the current motion vector. */
    method SyncMotion(motionOffset: Vector3)
      modifies uMotionOffset
      ensures uMotionOffset.Value() == old(motionOffset.Value())
    {
      uMotionOffset.Copy(motionOffset.Value());
    }
  }

  /**
   * The panda as written: the fur vector is created at zero, the shells mount with it,
   * a walking frame overwrites it in place with a non-zero lag (the value at stride
   * phase pi/2, where the left cycle is 1 and the bob -1), and the panda re-renders
   * passing the very same object. The shell's motion uniform is still zero, so the
   * shells show no lag although the fur vector has moved.
   */
  method LagUniformFrozen() returns (uniform: Vec3, motion: Vec3)
    ensures uniform == Zero && motion != Zero
  {
    var fur := new Vector3(0.0, 0.0, 0.0);
    var shell := new ShellFurMaterial(11, 12, 0.08, fur);
    fur.Copy(Vec3(0.05, -0.03, 0.0));
    shell.Rerender(fur);
    uniform := shell.uMotionOffset.Value();
    motion := fur.Value();
  }

  /**
   * The same sequence with the motion uniform synchronised each frame: the uniform
   * equals the fur vector, so the outermost shell trails by 0.6 (11/12)^2 of it.
   */
  method LagUniformFollows() returns (uniform: Vec3, motion: Vec3)
    ensures uniform == motion && motion != Zero
  {
    var fur := new Vector3(0.0, 0.0, 0.0);
    var shell := new ShellFurMaterial(11, 12, 0.08, fur);
    fur.Copy(Vec3(0.05, -0.03, 0.0));
    shell.SyncMotion(fur);
    uniform := shell.uMotionOffset.Value();
    motion := fur.Value();
  }

  /** A shell's vertex is its frozen position minus the motion vector scaled by the lag coefficient. */
  lemma LagSplits(position: Vec3, normal: Vec3, ln: real, thickness: real, motion: Vec3)
    ensures Displace(position, normal, ln, thickness, motion)
         == Displace(position, normal, ln, thickness, Zero).Sub(motion.Scale(LagFactor(ln)))
  {
  }

  /**
   * With a synchronised uniform a moving body bends its shells: on every layer but
   * the base one a non-zero motion vector moves the vertex off its frozen position.
   */
  lemma MotionBendsShell(position: Vec3, normal: Vec3, ln: real, thickness: real, motion: Vec3)
    requires motion != Zero && ln > 0.0
    ensures Displace(position, normal, ln, thickness, motion) != Displace(position, normal, ln, thickness, Zero)
  {
    LagPositive(ln);
    LagSplits(position, normal, ln, thickness, motion);
    ScaledNonZero(motion, LagFactor(ln));
    SubNonZero(Displace(position, normal, ln, thickness, Zero), motion.Scale(LagFactor(ln)));
  }

  /** Every layer but the base one trails the motion. */
  lemma LagPositive(ln: real)
    requires ln > 0.0
    ensures LagFactor(ln) > 0.0
  {
    // Through the call of LagFactor the solver does not combine 0 < ln * ln with the
    // factor 0.6; unfolding the call as the first step of a calc lets it.
    calc {
      LagFactor(ln);
      ln * ln * 0.6;
    >
      0.0;
    }
  }

  lemma ScaledNonZero(v: Vec3, c: real)
    requires v != Zero && c > 0.0
    ensures v.Scale(c) != Zero
  {
    if v.x != 0.0 {
      NonZeroProduct(v.x, c);
    } else if v.y != 0.0 {
      NonZeroProduct(v.y, c);
    } else {
      NonZeroProduct(v.z, c);
    }
  }

  lemma SubNonZero(a: Vec3, d: Vec3)
    requires d != Zero
    ensures a.Sub(d) != a
  {
  }

  lemma NonZeroProduct(u: real, f: real)
    requires u != 0.0 && f > 0.0
    ensures u * f != 0.0
  {
  }
}
