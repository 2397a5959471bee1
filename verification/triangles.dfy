/**
 * The two per-triangle records the loader and the generators emit in
 * parallel buffers (`RTXTriangle` for shading, `BVHTriangle` for the
 * spatial index), and the bounding box folded over a BVH buffer.
 */
module Triangles {
  import opened Vectors

  /**
   * `RTXTriangle`: three vertices as `vec4` with `w` unused, one texture
   * coordinate per vertex, and the material's `index`. The trailing padding
   * float is left out.
   */
  datatype RTXTriangle = RTXTriangle(
    a: Vec4, b: Vec4, c: Vec4,
    aTex: Vec2, bTex: Vec2, cTex: Vec2,
    materialIndex: int)

  /** `BVHTriangle`: axis-aligned corners and centroid. Its `index` field is never set by this code and is left out. */
  datatype BVHTriangle = BVHTriangle(min: Vec3, max: Vec3, center: Vec3)

  /** The `RTXTriangle` built from three points, each widened with `w = 0`. */
  function MakeRTX(matIndex: int, a: Vec3, b: Vec3, c: Vec3, aTex: Vec2, bTex: Vec2, cTex: Vec2): (t: RTXTriangle)
    ensures Xyz(t.a) == a && Xyz(t.b) == b && Xyz(t.c) == c
    ensures t.a.w == 0.0 && t.b.w == 0.0 && t.c.w == 0.0
    ensures t.aTex == aTex && t.bTex == bTex && t.cTex == cTex
    ensures t.materialIndex == matIndex
  {
    RTXTriangle(Extend(a, 0.0), Extend(b, 0.0), Extend(c, 0.0), aTex, bTex, cTex, matIndex)
  }

  /** Componentwise `lo <= v <= hi`. */
  predicate Within(v: Vec3, lo: Vec3, hi: Vec3) {
    LessEq(lo, v) && LessEq(v, hi)
  }

  /**
   * The `BVHTriangle` constructor: `min`/`max` are the componentwise
   * minimum/maximum of the vertices (each reached by some vertex) and
   * `center` is their mean.
   */
  function MakeBVH(a: Vec3, b: Vec3, c: Vec3): (t: BVHTriangle)
    ensures Within(a, t.min, t.max) && Within(b, t.min, t.max) && Within(c, t.min, t.max)
    ensures t.min.x in {a.x, b.x, c.x} && t.min.y in {a.y, b.y, c.y} && t.min.z in {a.z, b.z, c.z}
    ensures t.max.x in {a.x, b.x, c.x} && t.max.y in {a.y, b.y, c.y} && t.max.z in {a.z, b.z, c.z}
    ensures 3.0 * t.center.x == a.x + b.x + c.x
    ensures 3.0 * t.center.y == a.y + b.y + c.y
    ensures 3.0 * t.center.z == a.z + b.z + c.z
  {
    BVHTriangle(MinV(MinV(a, b), c), MaxV(MaxV(a, b), c), Scale(Add(Add(a, b), c), 1.0 / 3.0))
  }

  /** The bounds record does not depend on the order the vertices are given in. */
  lemma MakeBVHOrderFree(a: Vec3, b: Vec3, c: Vec3)
    ensures MakeBVH(a, b, c) == MakeBVH(b, a, c)
    ensures MakeBVH(a, b, c) == MakeBVH(a, c, b)
  {
    MinMaxOrderFree(a.x, b.x, c.x);
    MinMaxOrderFree(a.y, b.y, c.y);
    MinMaxOrderFree(a.z, b.z, c.z);
  }

  lemma MinMaxOrderFree(x: real, y: real, z: real)
    ensures Min(Min(x, y), z) == Min(Min(y, x), z) == Min(Min(x, z), y)
    ensures Max(Max(x, y), z) == Max(Max(y, x), z) == Max(Max(x, z), y)
  {
  }

  /** The BVH record belonging to a render triangle: built from its three points in order. */
  function BoundsOf(t: RTXTriangle): BVHTriangle {
    MakeBVH(Xyz(t.a), Xyz(t.b), Xyz(t.c))
  }

  /** The parallel-buffer invariant: equal length, and each BVH entry belongs to the render triangle at its position. */
  predicate Parallel(rtx: seq<RTXTriangle>, bvh: seq<BVHTriangle>) {
    |rtx| == |bvh| && forall k :: 0 <= k < |rtx| ==> bvh[k] == BoundsOf(rtx[k])
  }

  lemma ParallelAppend(r1: seq<RTXTriangle>, b1: seq<BVHTriangle>, r2: seq<RTXTriangle>, b2: seq<BVHTriangle>)
    requires Parallel(r1, b1) && Parallel(r2, b2)
    ensures Parallel(r1 + r2, b1 + b2)
  {
    forall k | 0 <= k < |r1 + r2|
      ensures (b1 + b2)[k] == BoundsOf((r1 + r2)[k])
    {
      if k >= |r1| {
        assert (r1 + r2)[k] == r2[k - |r1|];
      }
    }
  }

  // ---------------------------------------------------------------------
  // BoundingBox
  // ---------------------------------------------------------------------

  /** A bounding box that has seen at least one triangle (the empty box is left out). */
  datatype Box = Box(min: Vec3, max: Vec3)

  /** `growToInclude`: widen the box by the triangle's own corners. */
  function Grow(box: Box, t: BVHTriangle): Box {
    Box(MinV(box.min, t.min), MaxV(box.max, t.max))
  }

  /** `size()`. */
  function Size(box: Box): Vec3 {
    Sub(box.max, box.min)
  }

  /** Smallest box holding both. */
  function Union(p: Box, q: Box): Box {
    Box(MinV(p.min, q.min), MaxV(p.max, q.max))
  }

  /** The box the triangle alone spans. */
  function BoxOf(t: BVHTriangle): Box {
    Box(t.min, t.max)
  }

  /** The box spanned by one triangle's corners. */
  predicate Holds(box: Box, t: BVHTriangle) {
    LessEq(box.min, t.min) && LessEq(t.max, box.max)
  }

  /**
   * The scene bounds: a fresh box grown by every triangle in buffer order.
   * Growing the empty box by the first triangle gives exactly that
   * triangle's corners, so the fold starts there.
   */
  function Bounds(ts: seq<BVHTriangle>): (box: Box)
    requires |ts| > 0
    ensures forall k :: 0 <= k < |ts| ==> Holds(box, ts[k])
  {
    if |ts| == 1 then BoxOf(ts[0])
    else
      assert forall k :: 0 <= k < |ts| - 1 ==> ts[..|ts| - 1][k] == ts[k];
      Grow(Bounds(ts[..|ts| - 1]), ts[|ts| - 1])
  }

  /** No smaller box holds every triangle: the bounds are the least such box. */
  lemma {:induction false} BoundsLeast(ts: seq<BVHTriangle>, box: Box)
    requires |ts| > 0
    requires forall k :: 0 <= k < |ts| ==> Holds(box, ts[k])
    ensures LessEq(box.min, Bounds(ts).min) && LessEq(Bounds(ts).max, box.max)
    decreases |ts|
  {
    if |ts| > 1 {
      var init := ts[..|ts| - 1];
      assert forall k :: 0 <= k < |init| ==> init[k] == ts[k];
      BoundsLeast(init, box);
      assert Holds(box, ts[|ts| - 1]);
    }
  }

  /** The box's min corner lies below its max corner on every axis. */
  predicate Ordered(box: Box) {
    LessEq(box.min, box.max)
  }

  /** The bounds of a concatenation join the bounds of its parts. */
  lemma {:induction false} BoundsAppend(p: seq<BVHTriangle>, q: seq<BVHTriangle>)
    requires |p| > 0 && |q| > 0
    ensures Bounds(p + q) == Union(Bounds(p), Bounds(q))
    decreases |q|
  {
    var pq := p + q;
    if |q| == 1 {
      assert pq[..|pq| - 1] == p;
    } else {
      assert pq[..|pq| - 1] == p + q[..|q| - 1];
      BoundsAppend(p, q[..|q| - 1]);
    }
  }

  /** Folding the same triangles through the box twice gives the box of folding them once. */
  lemma BoundsTwice(ts: seq<BVHTriangle>)
    requires |ts| > 0
    ensures Bounds(ts + ts) == Bounds(ts)
  {
    BoundsAppend(ts, ts);
  }

  /** The bounds do not depend on which of two parts of the buffer comes first. */
  lemma BoundsSwap(p: seq<BVHTriangle>, q: seq<BVHTriangle>)
    requires |p| > 0 && |q| > 0
    ensures Bounds(p + q) == Bounds(q + p)
  {
    BoundsAppend(p, q);
    BoundsAppend(q, p);
  }

  /** A buffer of well-formed triangles has ordered bounds, so its size is non-negative. */
  lemma BoundsOrdered(ts: seq<BVHTriangle>)
    requires |ts| > 0
    requires forall k :: 0 <= k < |ts| ==> LessEq(ts[k].min, ts[k].max)
    ensures Ordered(Bounds(ts))
  {
    assert Holds(Bounds(ts), ts[0]);
  }

  /** Every triangle built by `MakeBVH` is well-formed. */
  lemma MakeBVHOrdered(a: Vec3, b: Vec3, c: Vec3)
    ensures LessEq(MakeBVH(a, b, c).min, MakeBVH(a, b, c).max)
  {
  }
}
