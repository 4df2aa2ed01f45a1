/**
 * The client-side face mesh: four fixed landmark regions, the per-landmark
 * deformation rules for the two target genders, and the per-frame routine that
 * rewrites the mesh's position and texture-coordinate buffers in place.
 *
 * Coordinates are mathematical reals; the buffers' single-precision rounding is
 * not modelled.
 */
module FaceMesh {
  import opened Wrappers
  import opened Landmarks

  /** Number of vertex slots allocated in the position and UV buffers. */
  const Slots: nat := 468

  /** Landmark indices of the four deformation regions. */
  const Jawline: seq<int> := [58, 172, 136, 150, 149, 148, 152, 377, 378, 379, 365, 397, 288]
  const Cheekbones: seq<int> := [205, 425, 123, 352]
  const BrowRidge: seq<int> := [107, 336, 105, 334]
  const Lips: seq<int> := [61, 146, 91, 181, 84, 17, 314, 405, 321, 375, 291]

  predicate InJawline(i: int) { i in Jawline }
  predicate InCheekbones(i: int) { i in Cheekbones }
  predicate InBrowRidge(i: int) { i in BrowRidge }
  predicate InLips(i: int) { i in Lips }

  /** The one gender value that selects the feminizing rules; every other value selects the masculinizing ones. */
  const Female: string := "female"

  datatype Vec3 = Vec3(x: real, y: real, z: real) {
    function Plus(o: Vec3): Vec3 { Vec3(x + o.x, y + o.y, z + o.z) }
    function Scale(k: real): Vec3 { Vec3(k * x, k * y, k * z) }
  }

  /** The three coordinate axes of a position. */
  datatype Axis = X | Y | Z

  /** The coordinate of `v` on axis `a`. */
  function Coord(v: Vec3, a: Axis): real {
    match a
    case X => v.x
    case Y => v.y
    case Z => v.z
  }

  datatype Uv = Uv(u: real, v: real)

  function Abs(r: real): real { if r < 0.0 then -r else r }

  /**
   * Base mapping of a landmark from normalized image coordinates into render
   * space. It is invertible, and maps the unit square onto [-1, 1] with the
   * vertical axis flipped.
   */
  function BaseMapping(lm: Landmark): (p: Vec3)
    ensures lm.x == (p.x + 1.0) / 2.0 && lm.y == (1.0 - p.y) / 2.0 && lm.z == -p.z
    ensures 0.0 <= lm.x <= 1.0 ==> -1.0 <= p.x <= 1.0
    ensures 0.0 <= lm.y <= 1.0 ==> -1.0 <= p.y <= 1.0
    ensures lm.y < 0.5 <==> p.y > 0.0
  {
    Vec3(lm.x * 2.0 - 1.0, -(lm.y * 2.0 - 1.0), lm.z * -1.0)
  }

  /**
   * Texture coordinate of a landmark, taken from the unmapped coordinates so
   * that the video texture stays aligned with the camera image. It agrees
   * with the base mapping: the base position is the texture coordinate
   * stretched from [0, 1] to [-1, 1].
   */
  function TextureCoord(lm: Landmark): (t: Uv)
    ensures BaseMapping(lm).x == 2.0 * t.u - 1.0 && BaseMapping(lm).y == 2.0 * t.v - 1.0
    ensures 0.0 <= lm.x <= 1.0 && 0.0 <= lm.y <= 1.0 ==> 0.0 <= t.u <= 1.0 && 0.0 <= t.v <= 1.0
  {
    Uv(lm.x, 1.0 - lm.y)
  }

  /** The feminizing rules, applied in the order jawline, cheekbones, lips, each gated by membership. */
  function FemaleRules(i: int, p: Vec3, k: real): Vec3 {
    FemaleSteps(InJawline(i), InCheekbones(i), InLips(i), p, k)
  }

  /** The feminizing steps for the given region memberships. */
  function FemaleSteps(jaw: bool, cheek: bool, lips: bool, p: Vec3, k: real): Vec3 {
    var p1 := if jaw then Vec3(p.x * (1.0 - 0.08 * k), p.y + 0.02 * k, p.z) else p;
    var p2 := if cheek then Vec3(p1.x, p1.y + 0.025 * k, p1.z + 0.015 * k) else p1;
    if lips then Vec3(p2.x, p2.y + 0.005 * k, p2.z + 0.01 * k) else p2
  }

  /** The masculinizing rules, applied in the order jawline, brow ridge. */
  function MaleRules(i: int, p: Vec3, k: real): Vec3 {
    MaleSteps(InJawline(i), InBrowRidge(i), p, k)
  }

  /** The masculinizing steps for the given region memberships. */
  function MaleSteps(jaw: bool, brow: bool, p: Vec3, k: real): Vec3 {
    var p1 := if jaw then Vec3(p.x * (1.0 + 0.08 * k), p.y - 0.01 * k, p.z) else p;
    if brow then Vec3(p1.x, p1.y - 0.015 * k, p1.z) else p1
  }

  /** Render-space position of landmark `i` of a frame for the given gender and intensity `k`. */
  function Deform(i: int, lm: Landmark, gender: string, k: real): Vec3 {
    if gender == Female then FemaleRules(i, BaseMapping(lm), k) else MaleRules(i, BaseMapping(lm), k)
  }

  /**
   * Reference definition of the deformation: the displacement per unit of
   * intensity, the sum of one term per region the index belongs to.
   */
  function Direction(i: int, b: Vec3, gender: string): Vec3 {
    if gender == Female then FemaleDirection(InJawline(i), InCheekbones(i), InLips(i), b)
    else MaleDirection(InJawline(i), InBrowRidge(i), b)
  }

  /** The per-region term `c` of a displacement, counted only when the index is in the region. */
  function Term(inRegion: bool, c: real): real {
    if inRegion then c else 0.0
  }

  /** The feminizing displacement per unit of intensity: per axis, one term per region. */
  function FemaleDirection(jaw: bool, cheek: bool, lips: bool, b: Vec3): Vec3 {
    Vec3(Term(jaw, -0.08 * b.x),
         Term(jaw, 0.02) + Term(cheek, 0.025) + Term(lips, 0.005),
         Term(cheek, 0.015) + Term(lips, 0.01))
  }

  /** The masculinizing displacement per unit of intensity: per axis, one term per region. */
  function MaleDirection(jaw: bool, brow: bool, b: Vec3): Vec3 {
    Vec3(Term(jaw, 0.08 * b.x), Term(jaw, -0.01) + Term(brow, -0.015), 0.0)
  }

  /** The region tables are pairwise disjoint: every index receives at most one region's rule. */
  lemma RegionsDisjoint(i: int)
    ensures !(InJawline(i) && InCheekbones(i)) && !(InJawline(i) && InBrowRidge(i)) && !(InJawline(i) && InLips(i))
    ensures !(InCheekbones(i) && InBrowRidge(i)) && !(InCheekbones(i) && InLips(i)) && !(InBrowRidge(i) && InLips(i))
  {
  }

  /** Every region index addresses an allocated vertex slot. */
  lemma RegionsWithinSlots(i: int)
    requires InJawline(i) || InCheekbones(i) || InBrowRidge(i) || InLips(i)
    ensures 0 <= i < Slots
  {
  }

  /** The sequential feminizing steps add `k` times the reference direction. */
  lemma FemaleRulesLinear(i: int, p: Vec3, k: real)
    ensures FemaleRules(i, p, k) == p.Plus(Direction(i, p, Female).Scale(k))
  {
    RegionsDisjoint(i);
    FemaleStepsLinear(InJawline(i), InCheekbones(i), InLips(i), p, k);
  }

  /** For an index in at most one region, the feminizing steps add `k` times the direction. */
  lemma FemaleStepsLinear(jaw: bool, cheek: bool, lips: bool, p: Vec3, k: real)
    requires !(jaw && cheek) && !(jaw && lips) && !(cheek && lips)
    ensures FemaleSteps(jaw, cheek, lips, p, k) == p.Plus(FemaleDirection(jaw, cheek, lips, p).Scale(k))
  {
    var zero := Vec3(0.0, 0.0, 0.0);
    var d := FemaleDirection(jaw, cheek, lips, p);
    if jaw {
      assert d == Vec3(-0.08 * p.x, 0.02, 0.0);
      assert p.Plus(d.Scale(k)) == Vec3(p.x + k * (-0.08 * p.x), p.y + 0.02 * k, p.z);
      assert p.x * (1.0 - 0.08 * k) == p.x + k * (-0.08 * p.x);
      assert FemaleSteps(jaw, cheek, lips, p, k) == Vec3(p.x * (1.0 - 0.08 * k), p.y + 0.02 * k, p.z);
    } else if cheek {
      assert d == Vec3(0.0, 0.025, 0.015);
      assert p.Plus(d.Scale(k)) == Vec3(p.x, p.y + 0.025 * k, p.z + 0.015 * k);
      assert FemaleSteps(jaw, cheek, lips, p, k) == Vec3(p.x, p.y + 0.025 * k, p.z + 0.015 * k);
    } else if lips {
      assert d == Vec3(0.0, 0.005, 0.01);
      assert p.Plus(d.Scale(k)) == Vec3(p.x, p.y + 0.005 * k, p.z + 0.01 * k);
      assert FemaleSteps(jaw, cheek, lips, p, k) == Vec3(p.x, p.y + 0.005 * k, p.z + 0.01 * k);
    } else {
      assert d == zero;
      assert zero.Scale(k) == zero;
      assert p.Plus(zero) == p;
    }
  }

  /** The sequential masculinizing steps add `k` times the reference direction. */
  lemma MaleRulesLinear(i: int, p: Vec3, gender: string, k: real)
    requires gender != Female
    ensures MaleRules(i, p, k) == p.Plus(Direction(i, p, gender).Scale(k))
  {
    RegionsDisjoint(i);
    MaleStepsLinear(InJawline(i), InBrowRidge(i), p, k);
  }

  /** For an index in at most one region, the masculinizing steps add `k` times the direction. */
  lemma MaleStepsLinear(jaw: bool, brow: bool, p: Vec3, k: real)
    requires !(jaw && brow)
    ensures MaleSteps(jaw, brow, p, k) == p.Plus(MaleDirection(jaw, brow, p).Scale(k))
  {
    var zero := Vec3(0.0, 0.0, 0.0);
    var d := MaleDirection(jaw, brow, p);
    if jaw {
      assert d == Vec3(0.08 * p.x, -0.01, 0.0);
      assert p.Plus(d.Scale(k)) == Vec3(p.x + k * (0.08 * p.x), p.y - 0.01 * k, p.z);
      assert p.x * (1.0 + 0.08 * k) == p.x + k * (0.08 * p.x);
      assert MaleSteps(jaw, brow, p, k) == Vec3(p.x * (1.0 + 0.08 * k), p.y - 0.01 * k, p.z);
    } else if brow {
      assert d == Vec3(0.0, -0.015, 0.0);
      assert p.Plus(d.Scale(k)) == Vec3(p.x, p.y - 0.015 * k, p.z);
      assert MaleSteps(jaw, brow, p, k) == Vec3(p.x, p.y - 0.015 * k, p.z);
    } else {
      assert d == zero;
      assert zero.Scale(k) == zero;
      assert p.Plus(zero) == p;
    }
  }

  /** The deformation is the base mapping plus intensity times a fixed direction. */
  lemma DeformIsLinear(i: int, lm: Landmark, gender: string, k: real)
    ensures Deform(i, lm, gender, k) == BaseMapping(lm).Plus(Direction(i, BaseMapping(lm), gender).Scale(k))
  {
    if gender == Female {
      FemaleRulesLinear(i, BaseMapping(lm), k);
    } else {
      MaleRulesLinear(i, BaseMapping(lm), gender, k);
    }
  }

  /** Identity law: at intensity 0 every landmark gets exactly its base mapping. */
  lemma IdentityAtZero(i: int, lm: Landmark, gender: string)
    ensures Deform(i, lm, gender, 0.0) == BaseMapping(lm)
  {
  }

  /** An index outside every region the gender's rules use gets exactly its base mapping. */
  lemma UntouchedOutsideRegions(i: int, lm: Landmark, gender: string, k: real)
    requires gender == Female ==> !InJawline(i) && !InCheekbones(i) && !InLips(i)
    requires gender != Female ==> !InJawline(i) && !InBrowRidge(i)
    ensures Deform(i, lm, gender, k) == BaseMapping(lm)
  {
  }

  /** Feminizing rules per region, in closed form. */
  lemma FemaleRegions(i: int, lm: Landmark, k: real)
    ensures var b, p := BaseMapping(lm), Deform(i, lm, Female, k);
      (InJawline(i) ==> p == Vec3(b.x * (1.0 - 0.08 * k), b.y + 0.02 * k, b.z))
      && (InCheekbones(i) ==> p == Vec3(b.x, b.y + 0.025 * k, b.z + 0.015 * k))
      && (InLips(i) ==> p == Vec3(b.x, b.y + 0.005 * k, b.z + 0.01 * k))
      && (InBrowRidge(i) ==> p == b)
      && (!InJawline(i) && !InCheekbones(i) && !InLips(i) ==> p == b)
  {
    RegionsDisjoint(i);
  }

  /**
   * Masculinizing rules per region, in closed form; they apply to every gender
   * value other than "female". Cheekbone and lip indices are not moved.
   */
  lemma MaleRegions(i: int, lm: Landmark, gender: string, k: real)
    requires gender != Female
    ensures var b, p := BaseMapping(lm), Deform(i, lm, gender, k);
      (InJawline(i) ==> p == Vec3(b.x * (1.0 + 0.08 * k), b.y - 0.01 * k, b.z))
      && (InBrowRidge(i) ==> p == Vec3(b.x, b.y - 0.015 * k, b.z))
      && (InCheekbones(i) || InLips(i) ==> p == b)
      && (!InJawline(i) && !InBrowRidge(i) ==> p == b)
  {
    RegionsDisjoint(i);
  }

  /**
   * Moving from `b` along `d` by a larger non-negative amount moves the
   * coordinate on axis `a` at least as far, and in the same direction.
   */
  lemma RayMonotone(b: Vec3, d: Vec3, k1: real, k2: real, a: Axis)
    requires 0.0 <= k1 <= k2
    ensures Grows(Coord(b.Plus(d.Scale(k1)), a) - Coord(b, a), Coord(b.Plus(d.Scale(k2)), a) - Coord(b, a))
  {
    var c0, c := Coord(b, a), Coord(d, a);
    assert Coord(b.Plus(d.Scale(k1)), a) - c0 == k1 * c;
    assert Coord(b.Plus(d.Scale(k2)), a) - c0 == k2 * c;
    ScaledMonotone(c, k1, k2);
  }

  /**
   * The displacement `a2` is at least as large as `a1` and points the same way:
   * both lie on the same side of zero, `a2` at least as far out as `a1`.
   */
  predicate Grows(a1: real, a2: real) {
    0.0 <= a1 <= a2 || a2 <= a1 <= 0.0
  }

  /** `Grows` bounds the magnitude: the larger displacement is at least as long. */
  lemma GrowsBoundsMagnitude(a1: real, a2: real)
    requires Grows(a1, a2)
    ensures Abs(a1) <= Abs(a2)
    ensures a1 < 0.0 ==> a2 < 0.0
    ensures a1 > 0.0 ==> a2 > 0.0
  {
  }

  /** Scaling `c` by a larger non-negative factor gives a value at least as large in magnitude, of the same sign. */
  lemma ScaledMonotone(c: real, k1: real, k2: real)
    requires 0.0 <= k1 <= k2
    ensures Grows(k1 * c, k2 * c)
  {
    if c >= 0.0 {
      assert 0.0 <= (k2 - k1) * c;
      assert k2 * c - k1 * c == (k2 - k1) * c;
      assert 0.0 <= k1 * c;
      assert 0.0 <= k1 * c <= k2 * c;
    } else {
      assert 0.0 <= (k2 - k1) * -c;
      assert k1 * c - k2 * c == (k2 - k1) * -c;
      assert 0.0 <= k1 * -c && k1 * c == -(k1 * -c);
      assert k2 * c <= k1 * c <= 0.0;
    }
  }

  /**
   * For non-negative intensities, the displacement of each coordinate from
   * its base mapping grows (weakly) with the intensity and keeps its direction.
   */
  lemma DisplacementMonotone(i: int, lm: Landmark, gender: string, k1: real, k2: real, a: Axis)
    requires 0.0 <= k1 <= k2
    ensures var b, p1, p2 := BaseMapping(lm), Deform(i, lm, gender, k1), Deform(i, lm, gender, k2);
      Grows(Coord(p1, a) - Coord(b, a), Coord(p2, a) - Coord(b, a))
  {
    var b, d := BaseMapping(lm), Direction(i, BaseMapping(lm), gender);
    DeformIsLinear(i, lm, gender, k1);
    DeformIsLinear(i, lm, gender, k2);
    RayMonotone(b, d, k1, k2, a);
  }

  /** Worked example: jawline landmark 58 with base x = 0.4. */
  lemma JawlineExample(lm: Landmark)
    requires lm.x == 0.7
    ensures Deform(58, lm, Female, 0.5).x == 0.384
    ensures Deform(58, lm, Female, 1.0).x == 0.368
    ensures Deform(58, lm, "male", 1.0).x == 0.432
  {
  }

  /** The position stored in slot `s` of a 3-component buffer. */
  function PositionAt(a: array<real>, s: nat): Vec3
    requires 3 * s + 2 < a.Length
    reads a
  {
    Vec3(a[3 * s], a[3 * s + 1], a[3 * s + 2])
  }

  /** The texture coordinate stored in slot `s` of a 2-component buffer. */
  function UvAt(a: array<real>, s: nat): Uv
    requires 2 * s + 1 < a.Length
    reads a
  {
    Uv(a[2 * s], a[2 * s + 1])
  }

  /**
   * Writes one vertex position into slot `s`. The buffer is a fixed-size
   * typed array, so a component whose index lies past its end is dropped.
   */
  method SetXYZ(a: array<real>, s: nat, x: real, y: real, z: real)
    modifies a
    ensures forall j :: 0 <= j < a.Length ==>
      a[j] == (if j == 3 * s then x else if j == 3 * s + 1 then y else if j == 3 * s + 2 then z else old(a[j]))
  {
    if 3 * s < a.Length { a[3 * s] := x; }
    if 3 * s + 1 < a.Length { a[3 * s + 1] := y; }
    if 3 * s + 2 < a.Length { a[3 * s + 2] := z; }
  }

  /** Writes one texture coordinate into slot `s`, dropping components past the end. */
  method SetXY(a: array<real>, s: nat, u: real, v: real)
    modifies a
    ensures forall j :: 0 <= j < a.Length ==>
      a[j] == (if j == 2 * s then u else if j == 2 * s + 1 then v else old(a[j]))
  {
    if 2 * s < a.Length { a[2 * s] := u; }
    if 2 * s + 1 < a.Length { a[2 * s + 1] := v; }
  }

  /**
   * One iteration of the per-frame loop: the base mapping into local
   * coordinates, then the gender's gated in-place updates in source order.
   */
  method DeformVertex(i: int, lm: Landmark, targetGender: string, intensity: real) returns (x: real, y: real, z: real)
    ensures Vec3(x, y, z) == Deform(i, lm, targetGender, intensity)
  {
    var origX := lm.x;
    var origY := lm.y;
    x := origX * 2.0 - 1.0;
    y := -(origY * 2.0 - 1.0);
    z := lm.z * -1.0;
    if targetGender == Female {
      if InJawline(i) {
        x := x * (1.0 - 0.08 * intensity);
        y := y + 0.02 * intensity;
      }
      if InCheekbones(i) {
        y := y + 0.025 * intensity;
        z := z + 0.015 * intensity;
      }
      if InLips(i) {
        z := z + 0.01 * intensity;
        y := y + 0.005 * intensity;
      }
    } else {
      if InJawline(i) {
        x := x * (1.0 + 0.08 * intensity);
        y := y - 0.01 * intensity;
      }
      if InBrowRidge(i) {
        y := y - 0.015 * intensity;
      }
    }
  }

  /**
   * The mesh geometry: the fixed-size position and UV buffers, the fixed
   * triangulation, whether the geometry has been attached by the renderer,
   * and the renderer's re-upload flags.
   */
  class Geometry {
    const positions: array<real>
    const uvs: array<real>
    const triangulation: seq<nat>
    var attached: bool
    var positionsNeedUpdate: bool
    var uvsNeedUpdate: bool

    ghost predicate Valid()
      reads this
    {
      positions.Length == 3 * Slots && uvs.Length == 2 * Slots && positions != uvs
    }

    /** Allocates zero-filled buffers; the geometry is not yet attached. */
    constructor (triangles: seq<nat>)
      ensures Valid() && fresh(positions) && fresh(uvs)
      ensures triangulation == triangles && !attached && !positionsNeedUpdate && !uvsNeedUpdate
      ensures forall j :: 0 <= j < positions.Length ==> positions[j] == 0.0
      ensures forall j :: 0 <= j < uvs.Length ==> uvs[j] == 0.0
    {
      positions := new real[3 * Slots](_ => 0.0);
      uvs := new real[2 * Slots](_ => 0.0);
      triangulation := triangles;
      attached := false;
      positionsNeedUpdate := false;
      uvsNeedUpdate := false;
    }

    /** The renderer attaches the geometry once the mesh is mounted. */
    method Attach()
      requires Valid()
      modifies this`attached
      ensures Valid() && attached
    {
      attached := true;
    }

    /**
     * The per-frame update. Without a landmark frame or an attached geometry
     * nothing changes. Otherwise slot `s` of both buffers is rewritten for
     * every landmark index `s` below the slot count: the UV from the raw
     * landmark, the position from the deformation rules. Every other slot
     * keeps its value, and both buffers are flagged for re-upload.
     */
    method OnFrame(landmarks: Option<seq<Landmark>>, intensity: real, targetGender: string)
      requires Valid()
      modifies positions, uvs, this`positionsNeedUpdate, this`uvsNeedUpdate
      ensures Valid()
      ensures landmarks.None? || !old(attached) ==>
        unchanged(positions, uvs) && positionsNeedUpdate == old(positionsNeedUpdate) && uvsNeedUpdate == old(uvsNeedUpdate)
      ensures landmarks.Some? && old(attached) ==> positionsNeedUpdate && uvsNeedUpdate
      ensures landmarks.Some? && old(attached) ==> forall s :: 0 <= s < Slots ==>
        PositionAt(positions, s) == (if s < |landmarks.value| then Deform(s, landmarks.value[s], targetGender, intensity)
                                     else old(PositionAt(positions, s)))
      ensures landmarks.Some? && old(attached) ==> forall s :: 0 <= s < Slots ==>
        UvAt(uvs, s) == (if s < |landmarks.value| then TextureCoord(landmarks.value[s]) else old(UvAt(uvs, s)))
    {
      if landmarks.None? || !attached {
        return;
      }
      var lms := landmarks.value;
      for i := 0 to |lms|
        invariant forall s :: 0 <= s < Slots ==>
          PositionAt(positions, s) == (if s < i then Deform(s, lms[s], targetGender, intensity) else old(PositionAt(positions, s)))
        invariant forall s :: 0 <= s < Slots ==>
          UvAt(uvs, s) == (if s < i then TextureCoord(lms[s]) else old(UvAt(uvs, s)))
      {
        SetXY(uvs, i, lms[i].x, 1.0 - lms[i].y);
        var x, y, z := DeformVertex(i, lms[i], targetGender, intensity);
        SetXYZ(positions, i, x, y, z);
      }
      positionsNeedUpdate := true;
      uvsNeedUpdate := true;
    }
  }
}
