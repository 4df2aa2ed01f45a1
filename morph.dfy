/**
 * The server-side geometric morph: the construction of the two parallel
 * control-point lists (source and destination) that drive the thin-plate
 * spline warp of a camera frame. Pixel coordinates are integers; the
 * displacement table holds real offsets that are truncated toward zero when
 * they are applied.
 */
module Morph {
  import opened Landmarks

  datatype Point = Point(x: int, y: int)

  /** A displacement in pixels, before truncation. */
  datatype Delta = Delta(dx: real, dy: real)

  /** Conversion of a real to an integer by truncation toward zero. */
  function Trunc(r: real): (n: int)
    ensures 0.0 <= r ==> 0 <= n && n as real <= r < n as real + 1.0
    ensures r < 0.0 ==> n <= 0 && n as real - 1.0 < r <= n as real
  {
    if r >= 0.0 then r.Floor else -((-r).Floor)
  }

  /** Pixel position of a normalized landmark in a `w` by `h` image. */
  function PixelOf(lm: Landmark, w: nat, h: nat): (p: Point)
    ensures 0.0 <= lm.x <= 1.0 ==> 0 <= p.x <= w
    ensures 0.0 <= lm.y <= 1.0 ==> 0 <= p.y <= h
  {
    PixelBounds(lm.x, w);
    PixelBounds(lm.y, h);
    Point(Trunc(lm.x * w as real), Trunc(lm.y * h as real))
  }

  /** A fraction in [0, 1] of an extent truncates to a pixel between 0 and the extent. */
  lemma PixelBounds(f: real, n: nat)
    ensures 0.0 <= f <= 1.0 ==> 0 <= Trunc(f * n as real) <= n
  {
    if 0.0 <= f <= 1.0 {
      var r := f * n as real;
      assert 0.0 <= r by {
        assert 0.0 <= n as real;
      }
      assert r <= n as real by {
        assert f * n as real <= 1.0 * n as real;
      }
      var t := Trunc(r);
      assert t as real <= r;
    }
  }

  /** The two jaw groups of the displacement table, by the side of the image they lie on. */
  const ImageRightJaw: seq<int> := [365, 379, 361, 288, 397]
  const ImageLeftJaw: seq<int> := [136, 150, 132, 58, 172]

  /** Every index of `idx` mapped to the same displacement `d`. */
  function Uniform(idx: seq<int>, d: Delta): map<int, Delta> {
    map i | i in idx :: d
  }

  /**
   * The displacement table for a target gender, intensity `k` and image size:
   * feminization pulls both jaw groups inward and up and moves cheek and eye
   * landmarks up; masculinization pushes the jaw groups outward and down and
   * lowers the brow. Any other gender value gets an empty table.
   */
  function MoveTable(gender: string, k: real, W: real, H: real): (moves: map<int, Delta>)
    ensures forall i :: i in moves ==> 0 <= i < 468
  {
    if gender == "female" then FemaleTable(k, W, H)
    else if gender == "male" then MaleTable(k, W, H)
    else map[]
  }

  /** The feminizing table, in the order its entries are assigned. */
  function FemaleTable(k: real, W: real, H: real): map<int, Delta> {
    (map[]
     + Uniform(ImageRightJaw, Delta(-0.03 * k * W, -0.01 * k * H))
     + Uniform(ImageLeftJaw, Delta(0.03 * k * W, -0.01 * k * H)))
    [205 := Delta(-0.01 * k * W, -0.02 * k * H)]
    [123 := Delta(0.01 * k * W, -0.02 * k * H)]
    [159 := Delta(0.0, -0.015 * k * H)]
    [386 := Delta(0.0, -0.015 * k * H)]
  }

  /** The masculinizing table, in the order its entries are assigned. */
  function MaleTable(k: real, W: real, H: real): map<int, Delta> {
    (map[]
     + Uniform(ImageRightJaw, Delta(0.04 * k * W, 0.01 * k * H))
     + Uniform(ImageLeftJaw, Delta(-0.04 * k * W, 0.01 * k * H)))
    [107 := Delta(0.0, 0.015 * k * H)]
    [70 := Delta(0.0, 0.015 * k * H)]
    [300 := Delta(0.0, 0.015 * k * H)]
  }

  /** A point moved by a displacement truncated toward zero. */
  function Shift(p: Point, d: Delta): Point {
    Point(p.x + Trunc(d.dx), p.y + Trunc(d.dy))
  }

  /** The eight image-border anchors, in the order corners and edge midpoints are listed. */
  function BorderPoints(w: nat, h: nat): seq<Point> {
    [Point(0, 0), Point(w / 2, 0), Point(w - 1, 0), Point(0, h / 2), Point(w - 1, h / 2),
     Point(0, h - 1), Point(w / 2, h - 1), Point(w - 1, h - 1)]
  }

  /** The landmarks in pixel coordinates. */
  function LandmarkPixels(lms: seq<Landmark>, w: nat, h: nat): seq<Point> {
    seq(|lms|, i requires 0 <= i < |lms| => PixelOf(lms[i], w, h))
  }

  /** Landmark pixels with every table entry whose index is a landmark index applied. */
  function Displaced(pts: seq<Point>, moves: map<int, Delta>): seq<Point> {
    seq(|pts|, i requires 0 <= i < |pts| => if i in moves then Shift(pts[i], moves[i]) else pts[i])
  }

  /** The source control points handed to the warp. */
  function SourceList(lms: seq<Landmark>, w: nat, h: nat): seq<Point> {
    LandmarkPixels(lms, w, h) + BorderPoints(w, h)
  }

  /** The destination control points handed to the warp. */
  function DestinationList(lms: seq<Landmark>, w: nat, h: nat, gender: string, k: real): seq<Point> {
    Displaced(LandmarkPixels(lms, w, h), MoveTable(gender, k, w as real, h as real)) + BorderPoints(w, h)
  }

  /**
   * A dictionary as a Python dict keeps it: its keys in insertion order and its
   * entries. Assigning to a new key appends it to the order; assigning to an
   * existing key keeps its place.
   */
  datatype Dict = Dict(keys: seq<int>, entries: map<int, Delta>) {
    ghost predicate Valid() {
      (forall i :: i in entries <==> i in keys)
      && forall a, b :: 0 <= a < b < |keys| ==> keys[a] != keys[b]
    }

    function Assign(k: int, v: Delta): (d: Dict)
      requires Valid()
      ensures d.Valid() && d.entries == entries[k := v]
      ensures d.keys == if k in entries then keys else keys + [k]
    {
      if k in entries then Dict(keys, entries[k := v]) else Dict(keys + [k], entries[k := v])
    }
  }

  /** Fills the displacement table for a gender, group by group. */
  method BuildMoves(gender: string, k: real, W: real, H: real) returns (moves: Dict)
    ensures moves.Valid() && moves.entries == MoveTable(gender, k, W, H)
  {
    moves := Dict([], map[]);
    if gender == "female" {
      moves := AssignAll(moves, ImageRightJaw, Delta(-0.03 * k * W, -0.01 * k * H));
      assert moves.entries == map[] + Uniform(ImageRightJaw, Delta(-0.03 * k * W, -0.01 * k * H));
      moves := AssignAll(moves, ImageLeftJaw, Delta(0.03 * k * W, -0.01 * k * H));
      assert moves.entries == map[] + Uniform(ImageRightJaw, Delta(-0.03 * k * W, -0.01 * k * H))
                                    + Uniform(ImageLeftJaw, Delta(0.03 * k * W, -0.01 * k * H));
      moves := moves.Assign(205, Delta(-0.01 * k * W, -0.02 * k * H));
      moves := moves.Assign(123, Delta(0.01 * k * W, -0.02 * k * H));
      moves := moves.Assign(159, Delta(0.0, -0.015 * k * H));
      moves := moves.Assign(386, Delta(0.0, -0.015 * k * H));
      assert moves.entries == FemaleTable(k, W, H);
    } else if gender == "male" {
      moves := AssignAll(moves, ImageRightJaw, Delta(0.04 * k * W, 0.01 * k * H));
      assert moves.entries == map[] + Uniform(ImageRightJaw, Delta(0.04 * k * W, 0.01 * k * H));
      moves := AssignAll(moves, ImageLeftJaw, Delta(-0.04 * k * W, 0.01 * k * H));
      assert moves.entries == map[] + Uniform(ImageRightJaw, Delta(0.04 * k * W, 0.01 * k * H))
                                    + Uniform(ImageLeftJaw, Delta(-0.04 * k * W, 0.01 * k * H));
      moves := moves.Assign(107, Delta(0.0, 0.015 * k * H));
      moves := moves.Assign(70, Delta(0.0, 0.015 * k * H));
      moves := moves.Assign(300, Delta(0.0, 0.015 * k * H));
      assert moves.entries == MaleTable(k, W, H);
    }
  }

  /** Assigns `v` to every index of `idx` in turn, overwriting earlier entries. */
  method AssignAll(d0: Dict, idx: seq<int>, v: Delta) returns (d: Dict)
    requires d0.Valid()
    ensures d.Valid() && d.entries == d0.entries + Uniform(idx, v)
  {
    d := d0;
    for t := 0 to |idx|
      invariant d.Valid()
      invariant forall i :: i in d.entries <==> i in d0.entries || i in idx[..t]
      invariant forall i :: i in d.entries ==> d.entries[i] == if i in idx[..t] then v else d0.entries[i]
    {
      assert idx[..t + 1] == idx[..t] + [idx[t]];
      d := d.Assign(idx[t], v);
    }
    assert idx[..|idx|] == idx;
    var u := d0.entries + Uniform(idx, v);
    forall i ensures i in d.entries <==> i in u { }
    forall i | i in d.entries ensures d.entries[i] == u[i] { }
    assert d.entries.Keys == u.Keys;
  }

  /**
   * Applies the table's entries, in key order, to the points whose index is in
   * range. Keys are distinct, so every point is shifted at most once.
   */
  method ApplyMoves(pts: seq<Point>, moves: Dict) returns (dst: seq<Point>)
    requires moves.Valid()
    requires forall i :: i in moves.entries ==> 0 <= i
    ensures dst == Displaced(pts, moves.entries)
  {
    dst := pts;
    for t := 0 to |moves.keys|
      invariant |dst| == |pts|
      invariant forall i :: 0 <= i < |dst| ==>
        dst[i] == if i in moves.keys[..t] then Shift(pts[i], moves.entries[i]) else pts[i]
    {
      var idx := moves.keys[t];
      var d := moves.entries[idx];
      assert moves.keys[..t + 1] == moves.keys[..t] + [idx];
      assert idx !in moves.keys[..t];
      if idx < |dst| {
        dst := dst[idx := Shift(dst[idx], d)];
      }
    }
    assert moves.keys[..|moves.keys|] == moves.keys;
  }

  /**
   * Builds the source and destination control points: one pixel point per
   * landmark in both lists, the displacement table applied to the destination
   * entries whose index is in range (in insertion order; the result does not
   * depend on it, since the keys are distinct), then the border anchors
   * appended to both.
   */
  method ControlPoints(lms: seq<Landmark>, w: nat, h: nat, gender: string, k: real)
    returns (src: seq<Point>, dst: seq<Point>)
    ensures src == SourceList(lms, w, h)
    ensures dst == DestinationList(lms, w, h, gender, k)
  {
    src, dst := [], [];
    for i := 0 to |lms|
      invariant src == dst == LandmarkPixels(lms[..i], w, h)
    {
      var p := PixelOf(lms[i], w, h);
      src := src + [p];
      dst := dst + [p];
    }
    assert lms[..|lms|] == lms;
    ghost var pixels := src;

    var moves := BuildMoves(gender, k, w as real, h as real);
    dst := ApplyMoves(dst, moves);
    assert dst == Displaced(pixels, MoveTable(gender, k, w as real, h as real));

    var border := BorderPoints(w, h);
    for t := 0 to |border|
      invariant src == pixels + border[..t]
      invariant dst == Displaced(pixels, MoveTable(gender, k, w as real, h as real)) + border[..t]
    {
      assert border[..t + 1] == border[..t] + [border[t]];
      src := src + [border[t]];
      dst := dst + [border[t]];
    }
    assert border[..|border|] == border;
  }

  /** Both lists hold one entry per landmark followed by the same eight border anchors. */
  lemma ListsShape(lms: seq<Landmark>, w: nat, h: nat, gender: string, k: real)
    ensures var src, dst := SourceList(lms, w, h), DestinationList(lms, w, h, gender, k);
      |src| == |dst| == |lms| + 8
      && src[|lms|..] == dst[|lms|..] == BorderPoints(w, h)
  {
    var src, dst := SourceList(lms, w, h), DestinationList(lms, w, h, gender, k);
    assert src[|lms|..] == BorderPoints(w, h);
    assert dst[|lms|..] == BorderPoints(w, h);
  }

  /**
   * Source entry `i` is the truncated pixel position of landmark `i`; the
   * destination entry differs from it only at an index of the displacement
   * table, where it is shifted by the truncated displacement.
   */
  lemma EntryRelation(lms: seq<Landmark>, w: nat, h: nat, gender: string, k: real, i: nat)
    requires i < |lms|
    ensures var src, dst, moves := SourceList(lms, w, h), DestinationList(lms, w, h, gender, k), MoveTable(gender, k, w as real, h as real);
      src[i] == Point(Trunc(lms[i].x * w as real), Trunc(lms[i].y * h as real))
      && (i in moves ==> dst[i] == Point(src[i].x + Trunc(moves[i].dx), src[i].y + Trunc(moves[i].dy)))
      && (dst[i] != src[i] ==> i in moves)
  {
    var pts := LandmarkPixels(lms, w, h);
    assert SourceList(lms, w, h)[i] == pts[i] == PixelOf(lms[i], w, h);
    assert DestinationList(lms, w, h, gender, k)[i] == Displaced(pts, MoveTable(gender, k, w as real, h as real))[i];
  }

  /** At intensity 0 every entry of the displacement table is the zero displacement. */
  lemma ZeroTable(gender: string, W: real, H: real)
    ensures var moves := MoveTable(gender, 0.0, W, H); forall i :: i in moves ==> moves[i] == Delta(0.0, 0.0)
  {
    var zero := Delta(0.0, 0.0);
    if gender == "female" {
      assert Delta(-0.03 * 0.0 * W, -0.01 * 0.0 * H) == zero;
      assert Delta(0.03 * 0.0 * W, -0.01 * 0.0 * H) == zero;
      assert Delta(-0.01 * 0.0 * W, -0.02 * 0.0 * H) == zero;
      assert Delta(0.01 * 0.0 * W, -0.02 * 0.0 * H) == zero;
      assert Delta(0.0, -0.015 * 0.0 * H) == zero;
    } else if gender == "male" {
      assert Delta(0.04 * 0.0 * W, 0.01 * 0.0 * H) == zero;
      assert Delta(-0.04 * 0.0 * W, 0.01 * 0.0 * H) == zero;
      assert Delta(0.0, 0.015 * 0.0 * H) == zero;
    }
  }

  /** A table whose entries all truncate to zero leaves every point in place. */
  lemma DisplacedByZero(pts: seq<Point>, moves: map<int, Delta>)
    requires forall i :: i in moves ==> Trunc(moves[i].dx) == 0 && Trunc(moves[i].dy) == 0
    ensures Displaced(pts, moves) == pts
  {
  }

  /** With intensity 0 no destination point moves. */
  lemma NoMoveAtZeroIntensity(lms: seq<Landmark>, w: nat, h: nat, gender: string)
    ensures DestinationList(lms, w, h, gender, 0.0) == SourceList(lms, w, h)
  {
    ZeroTable(gender, w as real, h as real);
    assert Trunc(0.0) == 0;
    DisplacedByZero(LandmarkPixels(lms, w, h), MoveTable(gender, 0.0, w as real, h as real));
  }

  /** A gender that is neither "female" nor "male" moves nothing. */
  lemma NoMoveForOtherGender(lms: seq<Landmark>, w: nat, h: nat, gender: string, k: real)
    requires gender != "female" && gender != "male"
    ensures DestinationList(lms, w, h, gender, k) == SourceList(lms, w, h)
  {
    assert Displaced(LandmarkPixels(lms, w, h), map[]) == LandmarkPixels(lms, w, h);
  }

  /** The displacement table's keys are fixed per gender and do not depend on intensity or image size. */
  lemma MoveTableKeys(gender: string, k: real, W: real, H: real)
    ensures gender == "female" ==>
      MoveTable(gender, k, W, H).Keys == {365, 379, 361, 288, 397, 136, 150, 132, 58, 172, 205, 123, 159, 386}
    ensures gender == "male" ==>
      MoveTable(gender, k, W, H).Keys == {365, 379, 361, 288, 397, 136, 150, 132, 58, 172, 107, 70, 300}
    ensures gender != "female" && gender != "male" ==> MoveTable(gender, k, W, H) == map[]
  {
  }

  /**
   * The two jaw groups move horizontally by opposite amounts and vertically by
   * the same amount; for positive intensity and width the feminizing table
   * moves them toward each other and the masculinizing one apart.
   */
  lemma JawGroupsOpposite(gender: string, k: real, W: real, H: real, a: int, b: int)
    requires gender == "female" || gender == "male"
    requires a in ImageRightJaw && b in ImageLeftJaw
    ensures var moves := MoveTable(gender, k, W, H);
      a in moves && b in moves
      && moves[a].dx == -moves[b].dx && moves[a].dy == moves[b].dy
      && (k > 0.0 && W > 0.0 ==>
            if gender == "female" then moves[a].dx < 0.0 < moves[b].dx else moves[b].dx < 0.0 < moves[a].dx)
  {
    var kW := k * W;
    if gender == "female" {
      FemaleJawEntries(k, W, H, a, b);
    } else {
      MaleJawEntries(k, W, H, a, b);
    }
    if k > 0.0 && W > 0.0 {
      assert 0.0 < kW;
    }
  }

  lemma FemaleJawEntries(k: real, W: real, H: real, a: int, b: int)
    requires a in ImageRightJaw && b in ImageLeftJaw
    ensures var moves := FemaleTable(k, W, H);
      a in moves && b in moves
      && moves[a] == Delta(-0.03 * k * W, -0.01 * k * H) && moves[b] == Delta(0.03 * k * W, -0.01 * k * H)
  {
    var groups := map[] + Uniform(ImageRightJaw, Delta(-0.03 * k * W, -0.01 * k * H))
                        + Uniform(ImageLeftJaw, Delta(0.03 * k * W, -0.01 * k * H));
    assert a !in ImageLeftJaw;
    assert groups[a] == Delta(-0.03 * k * W, -0.01 * k * H) && groups[b] == Delta(0.03 * k * W, -0.01 * k * H);
    assert a !in {205, 123, 159, 386} && b !in {205, 123, 159, 386};
  }

  lemma MaleJawEntries(k: real, W: real, H: real, a: int, b: int)
    requires a in ImageRightJaw && b in ImageLeftJaw
    ensures var moves := MaleTable(k, W, H);
      a in moves && b in moves
      && moves[a] == Delta(0.04 * k * W, 0.01 * k * H) && moves[b] == Delta(-0.04 * k * W, 0.01 * k * H)
  {
    var groups := map[] + Uniform(ImageRightJaw, Delta(0.04 * k * W, 0.01 * k * H))
                        + Uniform(ImageLeftJaw, Delta(-0.04 * k * W, 0.01 * k * H));
    assert a !in ImageLeftJaw;
    assert groups[a] == Delta(0.04 * k * W, 0.01 * k * H) && groups[b] == Delta(-0.04 * k * W, 0.01 * k * H);
    assert a !in {107, 70, 300} && b !in {107, 70, 300};
  }
}
