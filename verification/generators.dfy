/**
 * The procedural scene generators: each reads the scene's bounding box (or a
 * room size), builds a handful of corner lists, and appends triangles to the
 * two parallel buffers through fixed index tables.
 */
module SceneGen {
  import opened Vectors
  import opened Triangles

  /** The two output buffers the generators append to. */
  datatype Buffers = Buffers(rtx: seq<RTXTriangle>, bvh: seq<BVHTriangle>)

  /** One row of an index table: the three corners of one triangle. */
  datatype Idx3 = Idx3(i: int, j: int, k: int)

  /** Every entry of every row names one of `n` corners. */
  predicate Fits(rows: seq<Idx3>, n: int) {
    forall r :: 0 <= r < |rows| ==> 0 <= rows[r].i < n && 0 <= rows[r].j < n && 0 <= rows[r].k < n
  }

  /** A render triangle with the three `glm::vec2()` texture coordinates. */
  predicate Untextured(t: RTXTriangle) {
    t.aTex == Zero2 && t.bTex == Zero2 && t.cTex == Zero2
  }

  predicate AllUntextured(ts: seq<RTXTriangle>) {
    forall k :: 0 <= k < |ts| ==> Untextured(ts[k])
  }

  predicate AllMaterial(ts: seq<RTXTriangle>, m: int) {
    forall k :: 0 <= k < |ts| ==> ts[k].materialIndex == m
  }

  /** The same material on each of `n` rows. */
  function Repeat(m: int, n: nat): (ms: seq<int>)
    ensures |ms| == n && forall k :: 0 <= k < n ==> ms[k] == m
  {
    seq(n, _ => m)
  }

  /**
   * The loop every generator runs: one render triangle and one BVH triangle
   * per table row, both from the same three corners.
   */
  function Piece(mats: seq<int>, corners: seq<Vec3>, rows: seq<Idx3>): (p: Buffers)
    requires |mats| == |rows| && Fits(rows, |corners|)
    ensures |p.rtx| == |rows| && Parallel(p.rtx, p.bvh)
    ensures AllUntextured(p.rtx)
    ensures forall k :: 0 <= k < |rows| ==> p.rtx[k].materialIndex == mats[k]
    ensures forall k :: 0 <= k < |rows| ==>
      Xyz(p.rtx[k].a) == corners[rows[k].i] && Xyz(p.rtx[k].b) == corners[rows[k].j] && Xyz(p.rtx[k].c) == corners[rows[k].k]
  {
    Buffers(
      seq(|rows|, k requires 0 <= k < |rows| =>
        MakeRTX(mats[k], corners[rows[k].i], corners[rows[k].j], corners[rows[k].k], Zero2, Zero2, Zero2)),
      seq(|rows|, k requires 0 <= k < |rows| =>
        MakeBVH(corners[rows[k].i], corners[rows[k].j], corners[rows[k].k])))
  }

  /** `insert(end, …)` on both buffers. */
  function Append(p: Buffers, q: Buffers): Buffers {
    Buffers(p.rtx + q.rtx, p.bvh + q.bvh)
  }

  /** `r` keeps `buf` as a prefix of both buffers and adds `n` triangles to each. */
  predicate Grows(buf: Buffers, r: Buffers, n: nat) {
    |r.rtx| == |buf.rtx| + n && |r.bvh| == |buf.bvh| + n
    && r.rtx[..|buf.rtx|] == buf.rtx && r.bvh[..|buf.bvh|] == buf.bvh
  }

  /** The render triangles `r` added after `buf`. */
  function NewRtx(buf: Buffers, r: Buffers): seq<RTXTriangle>
    requires |buf.rtx| <= |r.rtx|
  {
    r.rtx[|buf.rtx|..]
  }

  /** The BVH triangles `r` added after `buf`. */
  function NewBvh(buf: Buffers, r: Buffers): seq<BVHTriangle>
    requires |buf.bvh| <= |r.bvh|
  {
    r.bvh[|buf.bvh|..]
  }

  /** Appending a parallel piece is growth by exactly that piece. */
  lemma AppendPiece(buf: Buffers, p: Buffers)
    requires Parallel(p.rtx, p.bvh)
    ensures Grows(buf, Append(buf, p), |p.rtx|)
    ensures NewRtx(buf, Append(buf, p)) == p.rtx && NewBvh(buf, Append(buf, p)) == p.bvh
  {
    assert (buf.rtx + p.rtx)[..|buf.rtx|] == buf.rtx;
    assert (buf.bvh + p.bvh)[..|buf.bvh|] == buf.bvh;
  }

  /** Two parallel pieces one after the other. */
  function Then(p: Buffers, q: Buffers): (pq: Buffers)
    requires Parallel(p.rtx, p.bvh) && Parallel(q.rtx, q.bvh)
    ensures Parallel(pq.rtx, pq.bvh) && |pq.rtx| == |p.rtx| + |q.rtx|
    ensures pq.rtx[..|p.rtx|] == p.rtx && pq.rtx[|p.rtx|..] == q.rtx
  {
    ParallelAppend(p.rtx, p.bvh, q.rtx, q.bvh);
    Append(p, q)
  }

  // ---------------------------------------------------------------------
  // Box corners, faces and index tables
  // ---------------------------------------------------------------------

  /** The six axis-aligned faces of a box. */
  datatype Face = MinX | MaxX | MinY | MaxY | MinZ | MaxZ

  /**
   * The eight corners in the order every generator lists them: odd numbers
   * at `max.x`, numbers 2, 3, 6, 7 at `max.y`, numbers below 4 at `max.z`.
   */
  function BoxCorners(b: Box): (cs: seq<Vec3>)
    ensures |cs| == 8
  {
    [ Vec3(b.min.x, b.min.y, b.max.z),
      Vec3(b.max.x, b.min.y, b.max.z),
      Vec3(b.min.x, b.max.y, b.max.z),
      Vec3(b.max.x, b.max.y, b.max.z),
      Vec3(b.min.x, b.min.y, b.min.z),
      Vec3(b.max.x, b.min.y, b.min.z),
      Vec3(b.min.x, b.max.y, b.min.z),
      Vec3(b.max.x, b.max.y, b.min.z) ]
  }

  /** The corner numbers lying on a face. */
  function FaceCorners(f: Face): set<int> {
    match f
    case MinX => {0, 2, 4, 6}
    case MaxX => {1, 3, 5, 7}
    case MinY => {0, 1, 4, 5}
    case MaxY => {2, 3, 6, 7}
    case MinZ => {4, 5, 6, 7}
    case MaxZ => {0, 1, 2, 3}
  }

  predicate OnFace(c: int, f: Face) {
    c in FaceCorners(f)
  }

  /** The coordinate a face fixes. */
  function Coord(v: Vec3, f: Face): real {
    match f
    case MinX => v.x
    case MaxX => v.x
    case MinY => v.y
    case MaxY => v.y
    case MinZ => v.z
    case MaxZ => v.z
  }

  /** The value of that coordinate on the face's plane. */
  function Level(b: Box, f: Face): real {
    match f
    case MinX => b.min.x
    case MaxX => b.max.x
    case MinY => b.min.y
    case MaxY => b.max.y
    case MinZ => b.min.z
    case MaxZ => b.max.z
  }

  /** All three vertices of the triangle lie on the plane of face `f` of box `b`. */
  predicate OnPlane(t: RTXTriangle, f: Face, b: Box) {
    Coord(Xyz(t.a), f) == Level(b, f) && Coord(Xyz(t.b), f) == Level(b, f) && Coord(Xyz(t.c), f) == Level(b, f)
  }

  /** Triangles `2f` and `2f + 1` lie on face `faces[f]`. */
  predicate OnPlanes(ts: seq<RTXTriangle>, faces: seq<Face>, b: Box) {
    |ts| == 2 * |faces| && forall k :: 0 <= k < |ts| ==> OnPlane(ts[k], faces[k / 2], b)
  }

  /** The row's three corners all lie on face `f`. */
  predicate RowOn(row: Idx3, f: Face) {
    OnFace(row.i, f) && OnFace(row.j, f) && OnFace(row.k, f)
  }

  /** Each pair of rows uses only corners of the face it is labelled with. */
  predicate Labelled(rows: seq<Idx3>, faces: seq<Face>) {
    |rows| == 2 * |faces| && forall r :: 0 <= r < |rows| ==> RowOn(rows[r], faces[r / 2])
  }

  function Used(row: Idx3): set<int> {
    {row.i, row.j, row.k}
  }

  /** Each pair of rows uses every corner of its face: the two triangles make the whole quad. */
  predicate Covers(rows: seq<Idx3>, faces: seq<Face>)
    requires |rows| == 2 * |faces|
  {
    forall f :: 0 <= f < |faces| ==> Used(rows[2 * f]) + Used(rows[2 * f + 1]) == FaceCorners(faces[f])
  }

  /** `addCornellBox`'s wall table. */
  const CornellWalls: seq<Idx3> := [
    Idx3(0, 3, 1), Idx3(0, 2, 3), Idx3(0, 5, 4), Idx3(0, 1, 5), Idx3(0, 6, 2), Idx3(0, 4, 6),
    Idx3(7, 1, 3), Idx3(7, 5, 1), Idx3(7, 2, 6), Idx3(7, 3, 2), Idx3(7, 4, 5), Idx3(7, 6, 4)]

  /** The wall table of the mirror and side-lit rooms. */
  const RoomWalls: seq<Idx3> := [
    Idx3(0, 3, 1), Idx3(0, 2, 3), Idx3(0, 5, 4), Idx3(0, 1, 5), Idx3(0, 6, 2), Idx3(0, 4, 6),
    Idx3(1, 7, 5), Idx3(1, 3, 7), Idx3(2, 7, 3), Idx3(2, 6, 7), Idx3(4, 7, 6), Idx3(4, 5, 7)]

  /** The faces both room tables walk through, two rows each. */
  const RoomFaces: seq<Face> := [MaxZ, MinY, MinX, MaxX, MaxY, MinZ]

  /** `addCube`'s face table. */
  const CubeWalls: seq<Idx3> := [
    Idx3(0, 1, 3), Idx3(0, 3, 2), Idx3(1, 5, 7), Idx3(1, 7, 3), Idx3(5, 4, 6), Idx3(5, 6, 7),
    Idx3(4, 0, 2), Idx3(4, 2, 6), Idx3(2, 3, 7), Idx3(2, 7, 6), Idx3(4, 5, 1), Idx3(4, 1, 0)]

  const CubeFaces: seq<Face> := [MaxZ, MaxX, MinZ, MinX, MaxY, MinY]

  /** `createClassicCornellBox`'s wall list, without its materials. */
  const ClassicWalls: seq<Idx3> := [
    Idx3(0, 3, 1), Idx3(0, 2, 3), Idx3(4, 7, 6), Idx3(4, 5, 7), Idx3(0, 5, 4), Idx3(0, 1, 5),
    Idx3(2, 6, 7), Idx3(2, 7, 3), Idx3(0, 4, 6), Idx3(0, 6, 2), Idx3(1, 3, 7), Idx3(1, 7, 5)]

  const ClassicFaces: seq<Face> := [MaxZ, MinZ, MinY, MaxY, MinX, MaxX]

  /** `addCornellBox`'s light table: the quad, then the quad with the winding reversed. */
  const CornellLightRows: seq<Idx3> := [Idx3(0, 3, 1), Idx3(0, 2, 3), Idx3(0, 1, 3), Idx3(0, 3, 2)]

  /** The sky plane's table. */
  const SkyRows: seq<Idx3> := [Idx3(0, 3, 1), Idx3(0, 2, 3)]

  /** The mirror ceiling light's and the second side light's table. */
  const FacingRows: seq<Idx3> := [Idx3(0, 1, 2), Idx3(1, 3, 2)]

  /** The first side light's and the classic ceiling light's table. */
  const FlippedRows: seq<Idx3> := [Idx3(0, 2, 1), Idx3(1, 2, 3)]

  /** A corner on a face has the face's coordinate. */
  lemma CornerOnFace(b: Box, c: int, f: Face)
    requires OnFace(c, f)
    ensures Coord(BoxCorners(b)[c], f) == Level(b, f)
  {
  }

  /** Corner numbers on a face are all in range. */
  lemma LabelledFits(rows: seq<Idx3>, faces: seq<Face>)
    requires Labelled(rows, faces)
    ensures Fits(rows, 8)
  {
    forall r | 0 <= r < |rows|
      ensures 0 <= rows[r].i < 8 && 0 <= rows[r].j < 8 && 0 <= rows[r].k < 8
    {
      assert RowOn(rows[r], faces[r / 2]);
      match faces[r / 2]
      case MinX =>
      case MaxX =>
      case MinY =>
      case MaxY =>
      case MinZ =>
      case MaxZ =>
    }
  }

  /** Labelled rows over a box's corners give triangles on the labelled planes. */
  lemma PieceOnPlanes(mats: seq<int>, b: Box, rows: seq<Idx3>, faces: seq<Face>)
    requires Labelled(rows, faces) && |mats| == |rows|
    ensures Fits(rows, 8)
    ensures OnPlanes(Piece(mats, BoxCorners(b), rows).rtx, faces, b)
  {
    LabelledFits(rows, faces);
    var p := Piece(mats, BoxCorners(b), rows);
    forall k | 0 <= k < |rows|
      ensures OnPlane(p.rtx[k], faces[k / 2], b)
    {
      CornerOnFace(b, rows[k].i, faces[k / 2]);
      CornerOnFace(b, rows[k].j, faces[k / 2]);
      CornerOnFace(b, rows[k].k, faces[k / 2]);
    }
  }

  /** The walls of box `b` from a labelled table: each pair of triangles on its face's plane. */
  function Walls(mats: seq<int>, b: Box, rows: seq<Idx3>, faces: seq<Face>): (p: Buffers)
    requires Labelled(rows, faces) && |mats| == |rows|
    ensures |p.rtx| == |rows| && Parallel(p.rtx, p.bvh) && AllUntextured(p.rtx)
    ensures forall k :: 0 <= k < |rows| ==> p.rtx[k].materialIndex == mats[k]
    ensures OnPlanes(p.rtx, faces, b)
  {
    PieceOnPlanes(mats, b, rows, faces);
    Piece(mats, BoxCorners(b), rows)
  }

  /** Every wall and cube table labels its rows with the faces they lie on. */
  lemma TablesLabelled()
    ensures Labelled(CornellWalls, RoomFaces) && Labelled(RoomWalls, RoomFaces)
    ensures Labelled(CubeWalls, CubeFaces) && Labelled(ClassicWalls, ClassicFaces)
  {
    forall r | 0 <= r < 12
      ensures RowOn(CornellWalls[r], RoomFaces[r / 2]) && RowOn(RoomWalls[r], RoomFaces[r / 2])
      ensures RowOn(CubeWalls[r], CubeFaces[r / 2]) && RowOn(ClassicWalls[r], ClassicFaces[r / 2])
    {
      assert r in {0, 1, 2, 3, 4, 5, 6, 7, 8, 9, 10, 11};
    }
  }

  /** Every face of every wall and cube table is covered by its two triangles. */
  lemma TablesCover()
    ensures Covers(CornellWalls, RoomFaces) && Covers(RoomWalls, RoomFaces)
    ensures Covers(CubeWalls, CubeFaces) && Covers(ClassicWalls, ClassicFaces)
  {
    forall f | 0 <= f < 6
      ensures Used(CornellWalls[2 * f]) + Used(CornellWalls[2 * f + 1]) == FaceCorners(RoomFaces[f])
      ensures Used(RoomWalls[2 * f]) + Used(RoomWalls[2 * f + 1]) == FaceCorners(RoomFaces[f])
      ensures Used(CubeWalls[2 * f]) + Used(CubeWalls[2 * f + 1]) == FaceCorners(CubeFaces[f])
      ensures Used(ClassicWalls[2 * f]) + Used(ClassicWalls[2 * f + 1]) == FaceCorners(ClassicFaces[f])
    {
      assert f in {0, 1, 2, 3, 4, 5};
    }
  }

  // ---------------------------------------------------------------------
  // Rooms around the scene
  // ---------------------------------------------------------------------

  /** Every BVH triangle has its min corner below its max corner. */
  predicate WellFormed(ts: seq<BVHTriangle>) {
    forall k :: 0 <= k < |ts| ==> LessEq(ts[k].min, ts[k].max)
  }

  /**
   * The room around a scene box: `pad` of the box's size added on each side
   * of X and Z and above, but only a tenth of that below.
   */
  function Padded(b: Box, pad: real): Box {
    var s := Size(b);
    Box(Vec3(b.min.x - s.x * pad, b.min.y - s.y * pad * 0.1, b.min.z - s.z * pad),
        Vec3(b.max.x + s.x * pad, b.max.y + s.y * pad, b.max.z + s.z * pad))
  }

  /** A non-negative padding never shrinks the box. */
  lemma PaddedContains(b: Box, pad: real)
    requires Ordered(b) && pad >= 0.0
    ensures LessEq(Padded(b, pad).min, b.min) && LessEq(b.max, Padded(b, pad).max)
    ensures Ordered(Padded(b, pad))
  {
    var s := Size(b);
    assert s.x >= 0.0 && s.y >= 0.0 && s.z >= 0.0;
    assert s.x * pad >= 0.0;
    assert s.y * pad >= 0.0;
    assert s.z * pad >= 0.0;
  }

  /** The padded room holds every triangle of the scene it was built around. */
  lemma PaddedHoldsScene(bvh: seq<BVHTriangle>, pad: real)
    requires |bvh| > 0 && WellFormed(bvh) && pad >= 0.0
    ensures forall k :: 0 <= k < |bvh| ==> Holds(Padded(Bounds(bvh), pad), bvh[k])
  {
    BoundsOrdered(bvh);
    PaddedContains(Bounds(bvh), pad);
  }

  /** The room the box generators wall the current scene in. */
  function Room(buf: Buffers, pad: real): Box
    requires |buf.bvh| > 0
  {
    Padded(Bounds(buf.bvh), pad)
  }

  /** The corners of a horizontal rectangle at height `y`, in the generators' order. */
  function CeilingQuad(x0: real, x1: real, z0: real, z1: real, y: real): seq<Vec3> {
    [Vec3(x0, y, z1), Vec3(x1, y, z1), Vec3(x0, y, z0), Vec3(x1, y, z0)]
  }

  /** The corners of a rectangle in the plane `x`. */
  function SideQuadX(x: real, y0: real, y1: real, z0: real, z1: real): seq<Vec3> {
    [Vec3(x, y0, z1), Vec3(x, y1, z1), Vec3(x, y0, z0), Vec3(x, y1, z0)]
  }

  /** The corners of a rectangle in the plane `z`. */
  function SideQuadZ(z: real, x0: real, x1: real, y0: real, y1: real): seq<Vec3> {
    [Vec3(x0, y0, z), Vec3(x1, y0, z), Vec3(x0, y1, z), Vec3(x1, y1, z)]
  }

  /** `a` is one end of the interval `mid ± half` (or `mid` itself when `half` is zero). */
  predicate Pick(a: real, mid: real, half: real) {
    a == mid - half || a == mid + half
  }

  /** `v` is a corner of the axis-aligned rectangle or box centred on `mid` with half-extents `half`. */
  predicate CornerOf(v: Vec3, mid: Vec3, half: Vec3) {
    Pick(v.x, mid.x, half.x) && Pick(v.y, mid.y, half.y) && Pick(v.z, mid.z, half.z)
  }

  /** Every vertex of every triangle is a corner of that rectangle. */
  predicate OnQuad(ts: seq<RTXTriangle>, mid: Vec3, half: Vec3) {
    forall k :: 0 <= k < |ts| ==>
      CornerOf(Xyz(ts[k].a), mid, half) && CornerOf(Xyz(ts[k].b), mid, half) && CornerOf(Xyz(ts[k].c), mid, half)
  }

  /** Every corner in the list is a corner of the rectangle. */
  predicate AllCornersOf(cs: seq<Vec3>, mid: Vec3, half: Vec3) {
    forall c :: 0 <= c < |cs| ==> CornerOf(cs[c], mid, half)
  }

  /** Triangles built from a rectangle's corners have their vertices at those corners. */
  lemma PieceOnQuad(mats: seq<int>, cs: seq<Vec3>, rows: seq<Idx3>, mid: Vec3, half: Vec3)
    requires |mats| == |rows| && Fits(rows, |cs|) && AllCornersOf(cs, mid, half)
    ensures OnQuad(Piece(mats, cs, rows).rtx, mid, half)
  {
    var p := Piece(mats, cs, rows);
    forall k | 0 <= k < |rows|
      ensures CornerOf(Xyz(p.rtx[k].a), mid, half) && CornerOf(Xyz(p.rtx[k].b), mid, half) && CornerOf(Xyz(p.rtx[k].c), mid, half)
    {
      assert Xyz(p.rtx[k].a) == cs[rows[k].i];
      assert Xyz(p.rtx[k].b) == cs[rows[k].j];
      assert Xyz(p.rtx[k].c) == cs[rows[k].k];
    }
  }

  /** A horizontal rectangle given by its edges is the one centred between them. */
  lemma CeilingQuadCorners(x0: real, x1: real, z0: real, z1: real, y: real)
    ensures AllCornersOf(CeilingQuad(x0, x1, z0, z1, y),
      Vec3((x0 + x1) / 2.0, y, (z0 + z1) / 2.0), Vec3((x1 - x0) / 2.0, 0.0, (z1 - z0) / 2.0))
  {
  }

  /** A rectangle in an `x` plane given by its edges is the one centred between them. */
  lemma SideQuadXCorners(x: real, y0: real, y1: real, z0: real, z1: real)
    ensures AllCornersOf(SideQuadX(x, y0, y1, z0, z1),
      Vec3(x, (y0 + y1) / 2.0, (z0 + z1) / 2.0), Vec3(0.0, (y1 - y0) / 2.0, (z1 - z0) / 2.0))
  {
  }

  /** A rectangle in a `z` plane given by its edges is the one centred between them. */
  lemma SideQuadZCorners(z: real, x0: real, x1: real, y0: real, y1: real)
    ensures AllCornersOf(SideQuadZ(z, x0, x1, y0, y1),
      Vec3((x0 + x1) / 2.0, (y0 + y1) / 2.0, z), Vec3((x1 - x0) / 2.0, (y1 - y0) / 2.0, 0.0))
  {
  }

  /** A rectangle in an `x` plane spanning `2 h` around `(cy, cz)`. */
  lemma SideQuadXAround(x: real, cy: real, cz: real, h: real)
    ensures AllCornersOf(SideQuadX(x, cy - h, cy + h, cz - h, cz + h), Vec3(x, cy, cz), Vec3(0.0, h, h))
  {
  }

  /** A rectangle in a `z` plane spanning `2 h` around `(cx, cy)`. */
  lemma SideQuadZAround(z: real, cx: real, cy: real, h: real)
    ensures AllCornersOf(SideQuadZ(z, cx - h, cx + h, cy - h, cy + h), Vec3(cx, cy, z), Vec3(h, h, 0.0))
  {
  }

  /** A horizontal rectangle centred over the origin. */
  lemma CeilingQuadAroundAxis(hx: real, hz: real, y: real)
    ensures AllCornersOf(CeilingQuad(-hx, hx, -hz, hz, y), Vec3(0.0, y, 0.0), Vec3(hx, 0.0, hz))
  {
  }

  // ---------------------------------------------------------------------
  // addSkyLightPlane
  // ---------------------------------------------------------------------

  /** The sky plane's centre: 30% of the scene's height above its top, over the middle of its footprint. */
  function SkyMid(b: Box): Vec3 {
    Vec3((b.min.x + b.max.x) / 2.0, b.max.y + Size(b).y * 0.3, (b.min.z + b.max.z) / 2.0)
  }

  /** The sky plane spans the scene's whole X/Z footprint. */
  function SkyHalf(b: Box): Vec3 {
    Vec3((b.max.x - b.min.x) / 2.0, 0.0, (b.max.z - b.min.z) / 2.0)
  }

  /** A light quad: triangles over the corners of one rectangle. */
  function Quad(m: int, cs: seq<Vec3>, rows: seq<Idx3>, mid: Vec3, half: Vec3): (p: Buffers)
    requires Fits(rows, |cs|) && AllCornersOf(cs, mid, half)
    ensures |p.rtx| == |rows| && Parallel(p.rtx, p.bvh) && AllUntextured(p.rtx)
    ensures AllMaterial(p.rtx, m) && OnQuad(p.rtx, mid, half)
  {
    PieceOnQuad(Repeat(m, |rows|), cs, rows, mid, half);
    Piece(Repeat(m, |rows|), cs, rows)
  }

  /** The two sky triangles over scene bounds `b`. */
  function SkyPiece(b: Box, lightMtl: int): (p: Buffers)
    ensures |p.rtx| == 2 && Parallel(p.rtx, p.bvh) && AllUntextured(p.rtx)
    ensures AllMaterial(p.rtx, lightMtl) && OnQuad(p.rtx, SkyMid(b), SkyHalf(b))
  {
    var planeY := b.max.y + Size(b).y * 0.3;
    var cs := CeilingQuad(b.min.x, b.max.x, b.min.z, b.max.z, planeY);
    CeilingQuadCorners(b.min.x, b.max.x, b.min.z, b.max.z, planeY);
    PieceOnQuad(Repeat(lightMtl, 2), cs, SkyRows, SkyMid(b), SkyHalf(b));
    Piece(Repeat(lightMtl, 2), cs, SkyRows)
  }

  /** `addSkyLightPlane`: one light quad over the scene, appended twice. */
  function AddSkyLightPlane(buf: Buffers, lightMtl: int): (r: Buffers)
    requires |buf.bvh| > 0
    ensures Grows(buf, r, 4)
    ensures Parallel(NewRtx(buf, r), NewBvh(buf, r)) && AllUntextured(NewRtx(buf, r))
    ensures AllMaterial(NewRtx(buf, r), lightMtl)
    ensures OnQuad(NewRtx(buf, r), SkyMid(Bounds(buf.bvh)), SkyHalf(Bounds(buf.bvh)))
    ensures NewRtx(buf, r)[2..] == NewRtx(buf, r)[..2]
  {
    var added := Then(SkyPiece(Bounds(buf.bvh), lightMtl), SkyPiece(Bounds(buf.bvh), lightMtl));
    AppendPiece(buf, added);
    Append(buf, added)
  }

  /** The sky plane lies above every scene triangle and its footprint covers each of them. */
  lemma SkyOverScene(bvh: seq<BVHTriangle>)
    requires |bvh| > 0 && WellFormed(bvh)
    ensures forall k :: 0 <= k < |bvh| ==>
      bvh[k].max.y <= SkyMid(Bounds(bvh)).y
      && SkyMid(Bounds(bvh)).x - SkyHalf(Bounds(bvh)).x <= bvh[k].min.x
      && bvh[k].max.x <= SkyMid(Bounds(bvh)).x + SkyHalf(Bounds(bvh)).x
      && SkyMid(Bounds(bvh)).z - SkyHalf(Bounds(bvh)).z <= bvh[k].min.z
      && bvh[k].max.z <= SkyMid(Bounds(bvh)).z + SkyHalf(Bounds(bvh)).z
  {
    BoundsOrdered(bvh);
  }

  // ---------------------------------------------------------------------
  // addCornellBox
  // ---------------------------------------------------------------------

  /** The ceiling light's centre: 1e-3 below the room's top, over the room's X/Z centre. */
  function CeilingLightMid(room: Box): Vec3 {
    Vec3((room.max.x + room.min.x) / 2.0, room.max.y - 0.001, (room.max.z + room.min.z) / 2.0)
  }

  /** `addCornellBox`'s light: `lightSize` of the room's width and depth. */
  function CornellLightHalf(room: Box, lightSize: real): Vec3 {
    Vec3(lightSize * Size(room).x / 2.0, 0.0, lightSize * Size(room).z / 2.0)
  }

  /** The four corners of the light rectangle centred on `mid` with half-extents `half`. */
  function LightCorners(mid: Vec3, half: Vec3): seq<Vec3> {
    CeilingQuad(mid.x - half.x, mid.x + half.x, mid.z - half.z, mid.z + half.z, mid.y)
  }

  lemma LightCornersOf(mid: Vec3, half: Vec3)
    requires half.y == 0.0
    ensures AllCornersOf(LightCorners(mid, half), mid, half)
  {
  }

  /**
   * `addCornellBox` with the light's BVH entries built from the light table,
   * like its render triangles. The walls carry material 0 whatever the
   * arguments; the light quad is added twice, once per winding.
   */
  function AddCornellBox(buf: Buffers, lightSize: real, pad: real, lightMtl: int, lightEnabled: bool): (r: Buffers)
    requires |buf.bvh| > 0
    ensures Grows(buf, r, if lightEnabled then 16 else 12)
    ensures Parallel(NewRtx(buf, r), NewBvh(buf, r)) && AllUntextured(NewRtx(buf, r))
    ensures AllMaterial(NewRtx(buf, r)[..12], 0)
    ensures OnPlanes(NewRtx(buf, r)[..12], RoomFaces, Room(buf, pad))
    ensures AllMaterial(NewRtx(buf, r)[12..], lightMtl)
    ensures OnQuad(NewRtx(buf, r)[12..], CeilingLightMid(Room(buf, pad)), CornellLightHalf(Room(buf, pad), lightSize))
  {
    var room := Room(buf, pad);
    TablesLabelled();
    var walls := Walls(Repeat(0, 12), room, CornellWalls, RoomFaces);
    var mid := CeilingLightMid(room);
    var half := CornellLightHalf(room, lightSize);
    LightCornersOf(mid, half);
    var light := Quad(lightMtl, LightCorners(mid, half), CornellLightRows, mid, half);
    var added := if lightEnabled then Then(walls, light) else walls;
    AppendPiece(buf, added);
    Append(buf, added)
  }

  /** For `0 <= lightSize <= 1` the ceiling light stays inside the room's footprint. */
  lemma CornellLightInside(room: Box, lightSize: real)
    requires Ordered(room) && 0.0 <= lightSize <= 1.0
    ensures room.min.x <= CeilingLightMid(room).x - CornellLightHalf(room, lightSize).x
    ensures CeilingLightMid(room).x + CornellLightHalf(room, lightSize).x <= room.max.x
    ensures room.min.z <= CeilingLightMid(room).z - CornellLightHalf(room, lightSize).z
    ensures CeilingLightMid(room).z + CornellLightHalf(room, lightSize).z <= room.max.z
  {
    var s := Size(room);
    assert lightSize * s.x <= s.x && lightSize * s.z <= s.z;
  }

  /**
   * The light's BVH entries as `addCornellBox` builds them: through the
   * first four rows of the wall table instead of the light table, which
   * reaches corners 4 and 5.
   */
  function CornellLightBvhAsWritten(lightCorners: seq<Vec3>): (ts: seq<BVHTriangle>)
    requires 6 <= |lightCorners|
    ensures |ts| == 4
    ensures ts[..2] == Piece(Repeat(0, 2), lightCorners, CornellLightRows[..2]).bvh
  {
    CornellWallRowsReach(|lightCorners|);
    Piece(Repeat(0, 4), lightCorners, CornellWalls[..4]).bvh
  }

  /** The first four wall rows fit a corner list exactly when it has at least six corners, so not the light's four. */
  lemma CornellWallRowsReach(n: int)
    ensures Fits(CornellWalls[..4], n) <==> 6 <= n
  {
    assert CornellWalls[..4][2].j == 5;
  }

  /** Even given six corners, the as-written BVH entries do not belong to the light's render triangles. */
  lemma CornellLightBvhMismatch()
    ensures !Parallel(
      Piece(Repeat(0, 4), MismatchCorners(), CornellLightRows).rtx,
      CornellLightBvhAsWritten(MismatchCorners()))
  {
    var cs := MismatchCorners();
    AsWrittenRow2(cs);
    LightRow2(cs);
    var written := MakeBVH(cs[0], cs[5], cs[4]);
    var wanted := MakeBVH(cs[0], cs[1], cs[3]);
    assert written.max.x >= 6.0;
    assert wanted.max.x <= 1.0;
  }

  /** The third as-written BVH entry is built from corners 0, 5 and 4. */
  lemma AsWrittenRow2(cs: seq<Vec3>)
    requires 6 <= |cs|
    ensures CornellLightBvhAsWritten(cs)[2] == MakeBVH(cs[0], cs[5], cs[4])
  {
    CornellWallRowsReach(|cs|);
    assert CornellWalls[..4][2] == Idx3(0, 5, 4);
    var p := Piece(Repeat(0, 4), cs, CornellWalls[..4]);
    assert p.bvh[2] == BoundsOf(p.rtx[2]);
  }

  /** The third light triangle spans corners 0, 1 and 3. */
  lemma LightRow2(cs: seq<Vec3>)
    requires 4 <= |cs|
    ensures Fits(CornellLightRows, |cs|)
    ensures BoundsOf(Piece(Repeat(0, 4), cs, CornellLightRows).rtx[2]) == MakeBVH(cs[0], cs[1], cs[3])
  {
    assert CornellLightRows[2] == Idx3(0, 1, 3);
  }

  /** A unit light square, followed by two far-away points that rows 2 and 3 of the wall table reach. */
  function MismatchCorners(): (cs: seq<Vec3>)
    ensures |cs| == 6
  {
    [Vec3(0.0, 0.0, 1.0), Vec3(1.0, 0.0, 1.0), Vec3(0.0, 0.0, 0.0), Vec3(1.0, 0.0, 0.0),
     Vec3(5.0, 5.0, 5.0), Vec3(6.0, 6.0, 6.0)]
  }

  // ---------------------------------------------------------------------
  // addMirrorCornellBox and addSideLitCornellBox
  // ---------------------------------------------------------------------

  /** Their lights' half-size: `lightSize` of the unpadded scene's height, halved. */
  function SceneLightHalf(buf: Buffers, lightSize: real): real
    requires |buf.bvh| > 0
  {
    lightSize * Size(Bounds(buf.bvh)).y / 2.0
  }

  /** `addMirrorCornellBox`: the padded room with every wall a mirror, and a square ceiling light. */
  function AddMirrorCornellBox(buf: Buffers, lightSize: real, pad: real, lightMtl: int, mirrorMtl: int): (r: Buffers)
    requires |buf.bvh| > 0
    ensures Grows(buf, r, 14)
    ensures Parallel(NewRtx(buf, r), NewBvh(buf, r)) && AllUntextured(NewRtx(buf, r))
    ensures AllMaterial(NewRtx(buf, r)[..12], mirrorMtl)
    ensures OnPlanes(NewRtx(buf, r)[..12], RoomFaces, Room(buf, pad))
    ensures AllMaterial(NewRtx(buf, r)[12..], lightMtl)
    ensures var h := SceneLightHalf(buf, lightSize);
      OnQuad(NewRtx(buf, r)[12..], CeilingLightMid(Room(buf, pad)), Vec3(h, 0.0, h))
  {
    var room := Room(buf, pad);
    TablesLabelled();
    var walls := Walls(Repeat(mirrorMtl, 12), room, RoomWalls, RoomFaces);
    var h := SceneLightHalf(buf, lightSize);
    var mid := CeilingLightMid(room);
    LightCornersOf(mid, Vec3(h, 0.0, h));
    var light := Quad(lightMtl, LightCorners(mid, Vec3(h, 0.0, h)), FacingRows, mid, Vec3(h, 0.0, h));
    var added := Then(walls, light);
    AppendPiece(buf, added);
    Append(buf, added)
  }

  /**
   * The two side lights of `addSideLitCornellBox`, 1e-3 inside the room:
   * on the `min.x` then `max.x` walls, or with `rotate` on the `max.z`
   * then `min.z` walls, each a square of half-size `h` centred at mid-height.
   */
  function SideLights(room: Box, h: real, lightMtl: int, rotate: bool): (p: Buffers)
    ensures |p.rtx| == 4 && Parallel(p.rtx, p.bvh) && AllUntextured(p.rtx) && AllMaterial(p.rtx, lightMtl)
    ensures var cx := (room.max.x + room.min.x) / 2.0;
      var cy := (room.max.y + room.min.y) / 2.0;
      var cz := (room.max.z + room.min.z) / 2.0;
      if rotate then
        OnQuad(p.rtx[..2], Vec3(cx, cy, room.max.z - 0.001), Vec3(h, h, 0.0))
        && OnQuad(p.rtx[2..], Vec3(cx, cy, room.min.z + 0.001), Vec3(h, h, 0.0))
      else
        OnQuad(p.rtx[..2], Vec3(room.min.x + 0.001, cy, cz), Vec3(0.0, h, h))
        && OnQuad(p.rtx[2..], Vec3(room.max.x - 0.001, cy, cz), Vec3(0.0, h, h))
  {
    if rotate then SideLightsZ(room, h, lightMtl) else SideLightsX(room, h, lightMtl)
  }

  /** Two rectangles of one material, the first's triangles before the second's. */
  function QuadPair(m: int, cs1: seq<Vec3>, rows1: seq<Idx3>, mid1: Vec3, cs2: seq<Vec3>, rows2: seq<Idx3>, mid2: Vec3, half: Vec3): (p: Buffers)
    requires Fits(rows1, |cs1|) && AllCornersOf(cs1, mid1, half)
    requires Fits(rows2, |cs2|) && AllCornersOf(cs2, mid2, half)
    ensures |p.rtx| == |rows1| + |rows2| && Parallel(p.rtx, p.bvh) && AllUntextured(p.rtx) && AllMaterial(p.rtx, m)
    ensures OnQuad(p.rtx[..|rows1|], mid1, half) && OnQuad(p.rtx[|rows1|..], mid2, half)
  {
    var a := Quad(m, cs1, rows1, mid1, half);
    var b := Quad(m, cs2, rows2, mid2, half);
    ThenKeepsAll(a, b, m);
    Then(a, b)
  }

  /** Joining two untextured single-material pieces keeps both properties. */
  lemma ThenKeepsAll(p: Buffers, q: Buffers, m: int)
    requires Parallel(p.rtx, p.bvh) && Parallel(q.rtx, q.bvh)
    requires AllUntextured(p.rtx) && AllUntextured(q.rtx) && AllMaterial(p.rtx, m) && AllMaterial(q.rtx, m)
    ensures AllUntextured(Then(p, q).rtx) && AllMaterial(Then(p, q).rtx, m)
  {
    assert Then(p, q).rtx == p.rtx + q.rtx;
  }

  /** The unrotated pair: on the walls at the low and high x ends of the room. */
  function SideLightsX(room: Box, h: real, lightMtl: int): (p: Buffers)
    ensures |p.rtx| == 4 && Parallel(p.rtx, p.bvh) && AllUntextured(p.rtx) && AllMaterial(p.rtx, lightMtl)
    ensures var cy := (room.max.y + room.min.y) / 2.0;
      var cz := (room.max.z + room.min.z) / 2.0;
      OnQuad(p.rtx[..2], Vec3(room.min.x + 0.001, cy, cz), Vec3(0.0, h, h))
      && OnQuad(p.rtx[2..], Vec3(room.max.x - 0.001, cy, cz), Vec3(0.0, h, h))
  {
    XWallLights(room.min.x + 0.001, room.max.x - 0.001, (room.max.y + room.min.y) / 2.0, (room.max.z + room.min.z) / 2.0, h, lightMtl)
  }

  /** Squares of half-size `h` around `(cy, cz)` in the planes `x1` (facing +x) and `x2` (facing -x). */
  function XWallLights(x1: real, x2: real, cy: real, cz: real, h: real, lightMtl: int): (p: Buffers)
    ensures |p.rtx| == 4 && Parallel(p.rtx, p.bvh) && AllUntextured(p.rtx) && AllMaterial(p.rtx, lightMtl)
    ensures OnQuad(p.rtx[..2], Vec3(x1, cy, cz), Vec3(0.0, h, h)) && OnQuad(p.rtx[2..], Vec3(x2, cy, cz), Vec3(0.0, h, h))
  {
    SideQuadXAround(x1, cy, cz, h);
    SideQuadXAround(x2, cy, cz, h);
    QuadTablesFit();
    QuadPair(lightMtl, SideQuadX(x1, cy - h, cy + h, cz - h, cz + h), FlippedRows, Vec3(x1, cy, cz),
             SideQuadX(x2, cy - h, cy + h, cz - h, cz + h), FacingRows, Vec3(x2, cy, cz), Vec3(0.0, h, h))
  }

  /** The rotated pair: on the walls at the high and low z ends of the room. */
  function SideLightsZ(room: Box, h: real, lightMtl: int): (p: Buffers)
    ensures |p.rtx| == 4 && Parallel(p.rtx, p.bvh) && AllUntextured(p.rtx) && AllMaterial(p.rtx, lightMtl)
    ensures var cx := (room.max.x + room.min.x) / 2.0;
      var cy := (room.max.y + room.min.y) / 2.0;
      OnQuad(p.rtx[..2], Vec3(cx, cy, room.max.z - 0.001), Vec3(h, h, 0.0))
      && OnQuad(p.rtx[2..], Vec3(cx, cy, room.min.z + 0.001), Vec3(h, h, 0.0))
  {
    ZWallLights(room.max.z - 0.001, room.min.z + 0.001, (room.max.x + room.min.x) / 2.0, (room.max.y + room.min.y) / 2.0, h, lightMtl)
  }

  /** Squares of half-size `h` around `(cx, cy)` in the planes `z1` (facing -z) and `z2` (facing +z). */
  function ZWallLights(z1: real, z2: real, cx: real, cy: real, h: real, lightMtl: int): (p: Buffers)
    ensures |p.rtx| == 4 && Parallel(p.rtx, p.bvh) && AllUntextured(p.rtx) && AllMaterial(p.rtx, lightMtl)
    ensures OnQuad(p.rtx[..2], Vec3(cx, cy, z1), Vec3(h, h, 0.0)) && OnQuad(p.rtx[2..], Vec3(cx, cy, z2), Vec3(h, h, 0.0))
  {
    SideQuadZAround(z1, cx, cy, h);
    SideQuadZAround(z2, cx, cy, h);
    QuadTablesFit();
    QuadPair(lightMtl, SideQuadZ(z1, cx - h, cx + h, cy - h, cy + h), FlippedRows, Vec3(cx, cy, z1),
             SideQuadZ(z2, cx - h, cx + h, cy - h, cy + h), FacingRows, Vec3(cx, cy, z2), Vec3(h, h, 0.0))
  }

  /** Both two-triangle tables index a four-corner rectangle. */
  lemma QuadTablesFit()
    ensures Fits(FlippedRows, 4) && Fits(FacingRows, 4)
  {
  }

  /** `addSideLitCornellBox`: the padded room with `wallMtl` walls and two facing side lights. */
  function AddSideLitCornellBox(buf: Buffers, lightSize: real, pad: real, lightMtl: int, wallMtl: int, rotate: bool): (r: Buffers)
    requires |buf.bvh| > 0
    ensures Grows(buf, r, 16)
    ensures Parallel(NewRtx(buf, r), NewBvh(buf, r)) && AllUntextured(NewRtx(buf, r))
    ensures AllMaterial(NewRtx(buf, r)[..12], wallMtl)
    ensures OnPlanes(NewRtx(buf, r)[..12], RoomFaces, Room(buf, pad))
    ensures NewRtx(buf, r)[12..] == SideLights(Room(buf, pad), SceneLightHalf(buf, lightSize), lightMtl, rotate).rtx
  {
    var room := Room(buf, pad);
    TablesLabelled();
    var walls := Walls(Repeat(wallMtl, 12), room, RoomWalls, RoomFaces);
    var added := Then(walls, SideLights(room, SceneLightHalf(buf, lightSize), lightMtl, rotate));
    AppendPiece(buf, added);
    Append(buf, added)
  }

  /** The coordinate a side light's plane fixes lies strictly inside the room, once the room is wider than 2e-3. */
  predicate InsideAcross(t: RTXTriangle, room: Box, rotate: bool) {
    if rotate then room.min.z < t.a.z < room.max.z && room.min.z < t.b.z < room.max.z && room.min.z < t.c.z < room.max.z
    else room.min.x < t.a.x < room.max.x && room.min.x < t.b.x < room.max.x && room.min.x < t.c.x < room.max.x
  }

  lemma SideLightsInside(room: Box, h: real, lightMtl: int, rotate: bool)
    requires room.max.x - room.min.x > 0.002 && room.max.z - room.min.z > 0.002
    ensures forall k :: 0 <= k < 4 ==> InsideAcross(SideLights(room, h, lightMtl, rotate).rtx[k], room, rotate)
  {
    var p := SideLights(room, h, lightMtl, rotate);
    forall k | 0 <= k < 4
      ensures InsideAcross(p.rtx[k], room, rotate)
    {
      if k < 2 {
        assert p.rtx[k] == p.rtx[..2][k];
      } else {
        assert p.rtx[k] == p.rtx[2..][k - 2];
      }
    }
  }

  // ---------------------------------------------------------------------
  // addCube
  // ---------------------------------------------------------------------

  /** The axes `glm::rotate` is called with. */
  datatype Axis = XAxis | YAxis | ZAxis

  /**
   * `rotZ * rotY * rotX`, where `rotate(angle, axis)` stands for the linear
   * part of `glm::rotate(glm::mat4(1.0f), angle, axis)`.
   */
  function Rotation(rotation: Vec3, rotate: (real, Axis) -> Mat3): Mat3 {
    Mul(Mul(rotate(rotation.z, ZAxis), rotate(rotation.y, YAxis)), rotate(rotation.x, XAxis))
  }

  /** The cube's corners before rotation: `±size / 2` about the origin. */
  function HalfBox(size: Vec3): Box {
    var h := Scale(size, 0.5);
    Box(Scale(h, -1.0), h)
  }

  /** The eight corners rotated by `m` and moved to `center`. */
  function CubeCorners(center: Vec3, size: Vec3, m: Mat3): (cs: seq<Vec3>)
    ensures |cs| == 8
  {
    var local := BoxCorners(HalfBox(size));
    seq(8, c requires 0 <= c < 8 => Add(Apply(m, local[c]), center))
  }

  /** The twelve triangles of one cube. */
  function CubePiece(center: Vec3, size: Vec3, rotation: Vec3, mat: int, rotate: (real, Axis) -> Mat3): (p: Buffers)
    ensures |p.rtx| == 12 && Parallel(p.rtx, p.bvh) && AllUntextured(p.rtx) && AllMaterial(p.rtx, mat)
  {
    TablesLabelled();
    LabelledFits(CubeWalls, CubeFaces);
    Piece(Repeat(mat, 12), CubeCorners(center, size, Rotation(rotation, rotate)), CubeWalls)
  }

  /** `addCube`. */
  function AddCube(buf: Buffers, center: Vec3, size: Vec3, rotation: Vec3, mat: int, rotate: (real, Axis) -> Mat3): (r: Buffers)
    ensures Grows(buf, r, 12)
    ensures Parallel(NewRtx(buf, r), NewBvh(buf, r)) && AllUntextured(NewRtx(buf, r))
    ensures AllMaterial(NewRtx(buf, r), mat)
  {
    var p := CubePiece(center, size, rotation, mat, rotate);
    AppendPiece(buf, p);
    Append(buf, p)
  }

  /** The rotations apply about X first, then Y, then Z, and the translation last. */
  lemma CubeRotationOrder(center: Vec3, size: Vec3, rotation: Vec3, rotate: (real, Axis) -> Mat3, c: int)
    requires 0 <= c < 8
    ensures CubeCorners(center, size, Rotation(rotation, rotate))[c]
         == Add(Apply(rotate(rotation.z, ZAxis), Apply(rotate(rotation.y, YAxis),
              Apply(rotate(rotation.x, XAxis), BoxCorners(HalfBox(size))[c]))), center)
  {
    var v := BoxCorners(HalfBox(size))[c];
    var rz := rotate(rotation.z, ZAxis);
    var ry := rotate(rotation.y, YAxis);
    var rx := rotate(rotation.x, XAxis);
    ApplyMul(Mul(rz, ry), rx, v);
    ApplyMul(rz, ry, Apply(rx, v));
  }

  /** The identity leaves every vector alone. */
  lemma ApplyIdentity(v: Vec3)
    ensures Apply(Identity, v) == v
  {
  }

  /** The box a cube of `size` centred on `center` spans when it is not rotated. */
  function CubeBox(center: Vec3, size: Vec3): Box {
    Box(Sub(center, Scale(size, 0.5)), Add(center, Scale(size, 0.5)))
  }

  /** Without rotation, the cube's triangles lie pairwise on the faces of the box `center ± size / 2`. */
  lemma AddCubeUnrotated(buf: Buffers, center: Vec3, size: Vec3, rotation: Vec3, mat: int, rotate: (real, Axis) -> Mat3)
    requires Rotation(rotation, rotate) == Identity
    ensures OnPlanes(NewRtx(buf, AddCube(buf, center, size, rotation, mat, rotate)), CubeFaces, CubeBox(center, size))
  {
    var cs := CubeCorners(center, size, Identity);
    var box := CubeBox(center, size);
    forall c | 0 <= c < 8
      ensures cs[c] == BoxCorners(box)[c]
    {
      ApplyIdentity(BoxCorners(HalfBox(size))[c]);
    }
    assert cs == BoxCorners(box);
    TablesLabelled();
    assert Walls(Repeat(mat, 12), box, CubeWalls, CubeFaces).rtx == CubePiece(center, size, rotation, mat, rotate).rtx;
  }

  // ---------------------------------------------------------------------
  // createClassicCornellBox and createDiverseCornellBox
  // ---------------------------------------------------------------------

  /** `glm::radians`: degrees times its float constant for pi / 180. */
  function Radians(degrees: real): real {
    degrees * 0.01745329251994329576923690768489
  }

  /** The cube-shaped room of side `roomSize` centred on the origin. */
  function ClassicRoom(roomSize: real): Box {
    var half := roomSize * 0.5;
    Box(Vec3(-half, -half, -half), Vec3(half, half, half))
  }

  /** Front, back, floor and ceiling white; the left wall red; the right wall green. */
  function ClassicMaterials(red: int, green: int, white: int): (ms: seq<int>)
    ensures |ms| == 12
  {
    Repeat(white, 8) + Repeat(red, 2) + Repeat(green, 2)
  }

  /** The ceiling light: 130 by 105 units of a 555-unit room. */
  function ClassicLightHalf(roomSize: real): Vec3 {
    Vec3(roomSize * (130.0 / 555.0) * 0.5, 0.0, roomSize * (105.0 / 555.0) * 0.5)
  }

  /** One entry of a cube list: where, how big, how turned, which material. */
  datatype CubeSpec = CubeSpec(position: Vec3, size: Vec3, rotation: Vec3, materialIndex: int)

  /** The short box: 165 units wide, on the right, turned -18 degrees about Y, resting on the floor. */
  function ShortBox(roomSize: real, white: int): CubeSpec {
    var half := roomSize * 0.5;
    var boxSize := roomSize * (165.0 / 555.0);
    CubeSpec(Vec3(half * 0.5, -half + boxSize * 0.5, -half * 0.3), Vec3(boxSize, boxSize, boxSize),
             Vec3(0.0, Radians(-18.0), 0.0), white)
  }

  /** The tall box: 165 by 330 units, on the left and further back, turned 16.5 degrees about Y. */
  function TallBox(roomSize: real, white: int): CubeSpec {
    var half := roomSize * 0.5;
    var boxSize := roomSize * (165.0 / 555.0);
    var tall := roomSize * (330.0 / 555.0);
    CubeSpec(Vec3(-half * 0.3, -half + tall * 0.5, -half * 0.6), Vec3(boxSize, tall, boxSize),
             Vec3(0.0, Radians(16.5), 0.0), white)
  }

  function SpecPiece(spec: CubeSpec, rotate: (real, Axis) -> Mat3): (p: Buffers)
    ensures |p.rtx| == 12 && Parallel(p.rtx, p.bvh) && AllUntextured(p.rtx) && AllMaterial(p.rtx, spec.materialIndex)
  {
    CubePiece(spec.position, spec.size, spec.rotation, spec.materialIndex, rotate)
  }

  /** The room's walls and the ceiling light, before they are appended. */
  function ClassicShell(roomSize: real, red: int, green: int, white: int, lightMtl: int): (p: Buffers)
    ensures |p.rtx| == 14 && Parallel(p.rtx, p.bvh) && AllUntextured(p.rtx)
    ensures OnPlanes(p.rtx[..12], ClassicFaces, ClassicRoom(roomSize))
    ensures AllMaterial(p.rtx[..8], white) && AllMaterial(p.rtx[8..10], red) && AllMaterial(p.rtx[10..12], green)
    ensures AllMaterial(p.rtx[12..14], lightMtl)
    ensures OnQuad(p.rtx[12..14], Vec3(0.0, roomSize * 0.5 - 0.001, 0.0), ClassicLightHalf(roomSize))
  {
    var walls := ClassicWallsPiece(roomSize, red, green, white);
    var half := ClassicLightHalf(roomSize);
    var light := CeilingLight(half.x, half.z, roomSize * 0.5 - 0.001, lightMtl);
    var p := Then(walls, light);
    assert p.rtx[..12] == walls.rtx;
    assert p.rtx[12..14] == light.rtx;
    p
  }

  /** The classic room's twelve wall triangles: white front, back, floor and ceiling, red left, green right. */
  function ClassicWallsPiece(roomSize: real, red: int, green: int, white: int): (p: Buffers)
    ensures |p.rtx| == 12 && Parallel(p.rtx, p.bvh) && AllUntextured(p.rtx)
    ensures OnPlanes(p.rtx, ClassicFaces, ClassicRoom(roomSize))
    ensures AllMaterial(p.rtx[..8], white) && AllMaterial(p.rtx[8..10], red) && AllMaterial(p.rtx[10..12], green)
  {
    TablesLabelled();
    var p := Walls(ClassicMaterials(red, green, white), ClassicRoom(roomSize), ClassicWalls, ClassicFaces);
    ClassicMaterialSlices(p.rtx, red, green, white);
    p
  }

  /** Triangles coloured by the classic material list: eight white, two red, two green. */
  lemma ClassicMaterialSlices(ts: seq<RTXTriangle>, red: int, green: int, white: int)
    requires |ts| == 12 && forall k :: 0 <= k < 12 ==> ts[k].materialIndex == ClassicMaterials(red, green, white)[k]
    ensures AllMaterial(ts[..8], white) && AllMaterial(ts[8..10], red) && AllMaterial(ts[10..12], green)
  {
    var ms := ClassicMaterials(red, green, white);
    assert forall k :: 0 <= k < 8 ==> ms[k] == white;
    assert forall k :: 8 <= k < 10 ==> ms[k] == red;
    assert forall k :: 10 <= k < 12 ==> ms[k] == green;
  }

  /** A ceiling rectangle at height `y` centred over the origin, facing down. */
  function CeilingLight(hx: real, hz: real, y: real, lightMtl: int): (p: Buffers)
    ensures |p.rtx| == 2 && Parallel(p.rtx, p.bvh) && AllUntextured(p.rtx) && AllMaterial(p.rtx, lightMtl)
    ensures OnQuad(p.rtx, Vec3(0.0, y, 0.0), Vec3(hx, 0.0, hz))
  {
    CeilingQuadAroundAxis(hx, hz, y);
    QuadTablesFit();
    Quad(lightMtl, CeilingQuad(-hx, hx, -hz, hz, y), FlippedRows, Vec3(0.0, y, 0.0), Vec3(hx, 0.0, hz))
  }

  /** The room, the light and the two boxes, before they are appended. */
  function ClassicPiece(roomSize: real, red: int, green: int, white: int, lightMtl: int, rotate: (real, Axis) -> Mat3): (p: Buffers)
    ensures |p.rtx| == 38 && Parallel(p.rtx, p.bvh) && AllUntextured(p.rtx)
    ensures p.rtx[..14] == ClassicShell(roomSize, red, green, white, lightMtl).rtx
    ensures p.rtx[14..26] == SpecPiece(ShortBox(roomSize, white), rotate).rtx
    ensures p.rtx[26..] == SpecPiece(TallBox(roomSize, white), rotate).rtx
    ensures AllMaterial(p.rtx[14..], white)
  {
    var shell := ClassicShell(roomSize, red, green, white, lightMtl);
    var short := SpecPiece(ShortBox(roomSize, white), rotate);
    var tall := SpecPiece(TallBox(roomSize, white), rotate);
    var boxes := Then(short, tall);
    var p := Then(shell, boxes);
    assert p.rtx[14..] == boxes.rtx;
    assert p.rtx[14..26] == boxes.rtx[..12];
    assert p.rtx[26..] == boxes.rtx[12..];
    p
  }

  /** What the classic piece's first 14 triangles are: the coloured walls and the ceiling light. */
  lemma ClassicShellFacts(n: seq<RTXTriangle>, roomSize: real, red: int, green: int, white: int, lightMtl: int)
    requires |n| >= 14 && n[..14] == ClassicShell(roomSize, red, green, white, lightMtl).rtx
    ensures OnPlanes(n[..12], ClassicFaces, ClassicRoom(roomSize))
    ensures AllMaterial(n[..8], white) && AllMaterial(n[8..10], red) && AllMaterial(n[10..12], green)
    ensures AllMaterial(n[12..14], lightMtl)
    ensures OnQuad(n[12..14], Vec3(0.0, roomSize * 0.5 - 0.001, 0.0), ClassicLightHalf(roomSize))
  {
    var s := ClassicShell(roomSize, red, green, white, lightMtl).rtx;
    assert n[..12] == s[..12];
    assert n[..8] == s[..8];
    assert n[8..10] == s[8..10];
    assert n[10..12] == s[10..12];
    assert n[12..14] == s[12..14];
  }

  /** `createClassicCornellBox`: 12 walls, a 2-triangle ceiling light and two white boxes. */
  function CreateClassicCornellBox(buf: Buffers, roomSize: real, red: int, green: int, white: int, lightMtl: int,
                                   rotate: (real, Axis) -> Mat3): (r: Buffers)
    ensures Grows(buf, r, 38)
    ensures Parallel(NewRtx(buf, r), NewBvh(buf, r)) && AllUntextured(NewRtx(buf, r))
    ensures OnPlanes(NewRtx(buf, r)[..12], ClassicFaces, ClassicRoom(roomSize))
    ensures AllMaterial(NewRtx(buf, r)[..8], white)
    ensures AllMaterial(NewRtx(buf, r)[8..10], red) && AllMaterial(NewRtx(buf, r)[10..12], green)
    ensures AllMaterial(NewRtx(buf, r)[12..14], lightMtl)
    ensures OnQuad(NewRtx(buf, r)[12..14], Vec3(0.0, roomSize * 0.5 - 0.001, 0.0), ClassicLightHalf(roomSize))
    ensures AllMaterial(NewRtx(buf, r)[14..], white)
  {
    var p := ClassicPiece(roomSize, red, green, white, lightMtl, rotate);
    AppendPiece(buf, p);
    ClassicShellFacts(p.rtx, roomSize, red, green, white, lightMtl);
    Append(buf, p)
  }

  /** All three vertices at height `y`. */
  predicate AtHeight(t: RTXTriangle, y: real) {
    t.a.y == y && t.b.y == y && t.c.y == y
  }

  /** A matrix that keeps the Y coordinate: a rotation about the Y axis. */
  predicate KeepsY(m: Mat3) {
    m.r1 == Vec3(0.0, 1.0, 0.0)
  }

  lemma RotationKeepsY(rotation: Vec3, rotate: (real, Axis) -> Mat3)
    requires rotate(rotation.x, XAxis) == Identity && rotate(rotation.z, ZAxis) == Identity
    requires KeepsY(rotate(rotation.y, YAxis))
    ensures KeepsY(Rotation(rotation, rotate))
  {
    var ry := rotate(rotation.y, YAxis);
    assert Mul(Identity, ry).r1 == ry.r1;
    assert Mul(Mul(Identity, ry), Identity).r1 == Mul(Identity, ry).r1;
  }

  /**
   * A cube turned by a matrix that keeps Y has its bottom face (rows 10
   * and 11) at `center.y - size.y / 2`.
   */
  lemma CubeBottom(center: Vec3, size: Vec3, m: Mat3, mat: int)
    requires KeepsY(m)
    ensures Fits(CubeWalls, 8)
    ensures var p := Piece(Repeat(mat, 12), CubeCorners(center, size, m), CubeWalls);
      AtHeight(p.rtx[10], center.y - size.y * 0.5) && AtHeight(p.rtx[11], center.y - size.y * 0.5)
  {
    CubeWallsFit();
    var cs := CubeCorners(center, size, m);
    BottomCorners(center, size, m);
    CubeRows(mat, cs);
  }

  /** A cube list entry turned only about Y has its bottom at `position.y - size.y / 2`. */
  lemma SpecOnFloor(spec: CubeSpec, rotate: (real, Axis) -> Mat3)
    requires KeepsY(Rotation(spec.rotation, rotate))
    ensures AtHeight(SpecPiece(spec, rotate).rtx[10], spec.position.y - spec.size.y * 0.5)
    ensures AtHeight(SpecPiece(spec, rotate).rtx[11], spec.position.y - spec.size.y * 0.5)
  {
    SpecPieceUnfold(spec, rotate);
    CubeBottom(spec.position, spec.size, Rotation(spec.rotation, rotate), spec.materialIndex);
  }

  lemma SpecPieceUnfold(spec: CubeSpec, rotate: (real, Axis) -> Mat3)
    ensures Fits(CubeWalls, 8)
    ensures SpecPiece(spec, rotate)
         == Piece(Repeat(spec.materialIndex, 12), CubeCorners(spec.position, spec.size, Rotation(spec.rotation, rotate)), CubeWalls)
  {
    CubeWallsFit();
  }

  /** Corners 0, 1, 4 and 5 of a cube turned by a matrix that keeps Y are at the bottom. */
  lemma BottomCorners(center: Vec3, size: Vec3, m: Mat3)
    requires KeepsY(m)
    ensures var cs := CubeCorners(center, size, m);
      cs[0].y == cs[1].y == cs[4].y == cs[5].y == center.y - size.y * 0.5
  {
    var local := BoxCorners(HalfBox(size));
    assert local[0].y == local[1].y == local[4].y == local[5].y == -(size.y * 0.5);
  }

  /** Rows 10 and 11 of the cube table: corners 4, 5, 1 and 4, 1, 0. */
  lemma CubeRows(mat: int, cs: seq<Vec3>)
    requires |cs| == 8
    ensures var p := Piece(Repeat(mat, 12), cs, CubeWalls);
      Xyz(p.rtx[10].a) == cs[4] && Xyz(p.rtx[10].b) == cs[5] && Xyz(p.rtx[10].c) == cs[1]
      && Xyz(p.rtx[11].a) == cs[4] && Xyz(p.rtx[11].b) == cs[1] && Xyz(p.rtx[11].c) == cs[0]
  {
    CubeWallsFit();
    assert CubeWalls[10] == Idx3(4, 5, 1) && CubeWalls[11] == Idx3(4, 1, 0);
  }

  lemma CubeWallsFit()
    ensures Fits(CubeWalls, 8)
  {
    TablesLabelled();
    LabelledFits(CubeWalls, CubeFaces);
  }

  /**
   * When both boxes' turns keep the Y axis fixed (as a turn about Y does,
   * see `RotationKeepsY`), both boxes stand on the floor of the room.
   */
  lemma ClassicBoxesOnFloor(buf: Buffers, roomSize: real, red: int, green: int, white: int, lightMtl: int,
                            rotate: (real, Axis) -> Mat3)
    requires KeepsY(Rotation(Vec3(0.0, Radians(-18.0), 0.0), rotate))
    requires KeepsY(Rotation(Vec3(0.0, Radians(16.5), 0.0), rotate))
    ensures var n := NewRtx(buf, CreateClassicCornellBox(buf, roomSize, red, green, white, lightMtl, rotate));
      AtHeight(n[24], -roomSize * 0.5) && AtHeight(n[25], -roomSize * 0.5)
      && AtHeight(n[36], -roomSize * 0.5) && AtHeight(n[37], -roomSize * 0.5)
  {
    var p := ClassicPiece(roomSize, red, green, white, lightMtl, rotate);
    assert ShortBox(roomSize, white).rotation == Vec3(0.0, Radians(-18.0), 0.0);
    assert TallBox(roomSize, white).rotation == Vec3(0.0, Radians(16.5), 0.0);
    ClassicPieceOnFloor(roomSize, red, green, white, lightMtl, rotate);
    AppendPiece(buf, p);
  }

  lemma ClassicPieceOnFloor(roomSize: real, red: int, green: int, white: int, lightMtl: int, rotate: (real, Axis) -> Mat3)
    requires KeepsY(Rotation(ShortBox(roomSize, white).rotation, rotate))
    requires KeepsY(Rotation(TallBox(roomSize, white).rotation, rotate))
    ensures var p := ClassicPiece(roomSize, red, green, white, lightMtl, rotate);
      AtHeight(p.rtx[24], -roomSize * 0.5) && AtHeight(p.rtx[25], -roomSize * 0.5)
      && AtHeight(p.rtx[36], -roomSize * 0.5) && AtHeight(p.rtx[37], -roomSize * 0.5)
  {
    var p := ClassicPiece(roomSize, red, green, white, lightMtl, rotate);
    var short := ShortBox(roomSize, white);
    var tall := TallBox(roomSize, white);
    SpecOnFloor(short, rotate);
    SpecOnFloor(tall, rotate);
    assert short.position.y - short.size.y * 0.5 == -roomSize * 0.5;
    assert tall.position.y - tall.size.y * 0.5 == -roomSize * 0.5;
    assert p.rtx[24] == p.rtx[14..26][10] && p.rtx[25] == p.rtx[14..26][11];
    assert p.rtx[36] == p.rtx[26..][10] && p.rtx[37] == p.rtx[26..][11];
  }

  /** `createDiverseCornellBox`'s nine extra cubes. */
  function DiverseCubes(roomSize: real, glass: int, mirror: int, checker: int, metal: int): (specs: seq<CubeSpec>)
    ensures |specs| == 9
    ensures specs[0].materialIndex == glass && specs[1].materialIndex == mirror && specs[2].materialIndex == checker
    ensures specs[3].materialIndex == metal && specs[4].materialIndex == glass && specs[5].materialIndex == mirror
    ensures specs[6].materialIndex == mirror && specs[7].materialIndex == checker && specs[8].materialIndex == metal
  {
    var half := roomSize * 0.5;
    [ CubeSpec(Vec3(-half * 0.7, -half + 0.1, half * 0.6), Vec3(0.15, 0.15, 0.15), Vec3(0.0, 0.785, 0.0), glass),
      CubeSpec(Vec3(half * 0.6, -half + 0.05, -half * 0.4), Vec3(0.08, 0.08, 0.08), Vec3(0.2, 0.5, 0.3), mirror),
      CubeSpec(Vec3(0.0, -half + 0.2, -half * 0.7), Vec3(0.25, 0.4, 0.25), Vec3(0.0, 0.0, 0.1), checker),
      CubeSpec(Vec3(half * 0.3, -half + 0.3, half * 0.2), Vec3(0.1, 0.6, 0.1), Vec3(0.1, 1.2, 0.0), metal),
      CubeSpec(Vec3(-half * 0.2, -half + 0.15, -half * 0.2), Vec3(0.2, 0.1, 0.3), Vec3(0.5, 0.0, 0.2), glass),
      CubeSpec(Vec3(half * 0.8, -half + 0.03, half * 0.8), Vec3(0.05, 0.05, 0.05), Vec3(0.0, 0.0, 0.0), mirror),
      CubeSpec(Vec3(half * 0.75, -half + 0.08, half * 0.75), Vec3(0.06, 0.06, 0.06), Vec3(0.3, 0.3, 0.3), mirror),
      CubeSpec(Vec3(-half * 0.5, -half + 0.02, -half * 0.6), Vec3(0.3, 0.04, 0.3), Vec3(0.0, 0.7, 0.0), checker),
      CubeSpec(Vec3(half * 0.1, -half + 0.25, half * 0.5), Vec3(0.18, 0.18, 0.18), Vec3(0.6, 0.4, 0.8), metal) ]
  }

  /** One `addCube` per entry, in list order: entry `s` owns triangles `12s` to `12s + 11`. */
  function CubesPiece(specs: seq<CubeSpec>, rotate: (real, Axis) -> Mat3): (p: Buffers)
    ensures |p.rtx| == 12 * |specs| && Parallel(p.rtx, p.bvh) && AllUntextured(p.rtx)
    ensures forall s :: 0 <= s < |specs| ==> AllMaterial(p.rtx[12 * s..12 * s + 12], specs[s].materialIndex)
    decreases |specs|
  {
    if |specs| == 0 then Buffers([], [])
    else
      var init := CubesPiece(specs[..|specs| - 1], rotate);
      var last := SpecPiece(specs[|specs| - 1], rotate);
      var p := Then(init, last);
      BlocksExtend(init.rtx, last.rtx, p.rtx, specs);
      p
  }

  /** One more cube block behind blocks that already carry their materials. */
  lemma BlocksExtend(init: seq<RTXTriangle>, last: seq<RTXTriangle>, n: seq<RTXTriangle>, specs: seq<CubeSpec>)
    requires |specs| > 0 && |init| == 12 * (|specs| - 1) && |last| == 12
    requires |n| == |init| + 12 && n[..|init|] == init && n[|init|..] == last
    requires forall s :: 0 <= s < |specs| - 1 ==> AllMaterial(init[12 * s..12 * s + 12], specs[..|specs| - 1][s].materialIndex)
    requires AllMaterial(last, specs[|specs| - 1].materialIndex)
    ensures forall s :: 0 <= s < |specs| ==> AllMaterial(n[12 * s..12 * s + 12], specs[s].materialIndex)
  {
    forall s | 0 <= s < |specs|
      ensures AllMaterial(n[12 * s..12 * s + 12], specs[s].materialIndex)
    {
      if s < |specs| - 1 {
        assert specs[..|specs| - 1][s] == specs[s];
        assert n[12 * s..12 * s + 12] == init[12 * s..12 * s + 12];
      } else {
        assert n[12 * s..12 * s + 12] == last;
      }
    }
  }

  /** The classic room's triangles followed by the nine cubes', before they are appended. */
  function DiversePiece(roomSize: real, red: int, green: int, white: int, lightMtl: int,
                        glass: int, mirror: int, checker: int, metal: int,
                        rotate: (real, Axis) -> Mat3): (p: Buffers)
    ensures |p.rtx| == 146 && Parallel(p.rtx, p.bvh) && AllUntextured(p.rtx)
    ensures var classic := ClassicPiece(roomSize, red, green, white, lightMtl, rotate);
      p.rtx[..38] == classic.rtx && p.bvh[..38] == classic.bvh
    ensures AllMaterial(p.rtx[38..50], glass) && AllMaterial(p.rtx[50..62], mirror) && AllMaterial(p.rtx[62..74], checker)
    ensures AllMaterial(p.rtx[74..86], metal) && AllMaterial(p.rtx[86..98], glass) && AllMaterial(p.rtx[98..110], mirror)
    ensures AllMaterial(p.rtx[110..122], mirror) && AllMaterial(p.rtx[122..134], checker) && AllMaterial(p.rtx[134..146], metal)
  {
    var classic := ClassicPiece(roomSize, red, green, white, lightMtl, rotate);
    var specs := DiverseCubes(roomSize, glass, mirror, checker, metal);
    var cubes := CubesPiece(specs, rotate);
    var p := Then(classic, cubes);
    assert p.bvh[..38] == classic.bvh;
    BlocksAfter(p.rtx, cubes.rtx, specs);
    DiverseBlocks(p.rtx, specs, glass, mirror, checker, metal);
    p
  }

  /** The cube blocks keep their materials behind the 38 triangles of the classic piece. */
  lemma BlocksAfter(n: seq<RTXTriangle>, cubes: seq<RTXTriangle>, specs: seq<CubeSpec>)
    requires |n| == 38 + |cubes| && n[38..] == cubes && |cubes| == 12 * |specs|
    requires forall s :: 0 <= s < |specs| ==> AllMaterial(cubes[12 * s..12 * s + 12], specs[s].materialIndex)
    ensures forall s :: 0 <= s < |specs| ==> AllMaterial(n[38 + 12 * s..50 + 12 * s], specs[s].materialIndex)
  {
    forall s | 0 <= s < |specs|
      ensures AllMaterial(n[38 + 12 * s..50 + 12 * s], specs[s].materialIndex)
    {
      assert n[38 + 12 * s..50 + 12 * s] == cubes[12 * s..12 * s + 12];
    }
  }

  /** `createDiverseCornellBox`: the classic room, then nine cubes of mixed materials. */
  function CreateDiverseCornellBox(buf: Buffers, roomSize: real, red: int, green: int, white: int, lightMtl: int,
                                   glass: int, mirror: int, checker: int, metal: int,
                                   rotate: (real, Axis) -> Mat3): (r: Buffers)
    ensures Grows(buf, r, 146)
    ensures Parallel(NewRtx(buf, r), NewBvh(buf, r)) && AllUntextured(NewRtx(buf, r))
    ensures var classic := CreateClassicCornellBox(buf, roomSize, red, green, white, lightMtl, rotate);
      r.rtx[..|classic.rtx|] == classic.rtx && r.bvh[..|classic.bvh|] == classic.bvh
    ensures var n := NewRtx(buf, r);
      AllMaterial(n[38..50], glass) && AllMaterial(n[50..62], mirror) && AllMaterial(n[62..74], checker)
      && AllMaterial(n[74..86], metal) && AllMaterial(n[86..98], glass) && AllMaterial(n[98..110], mirror)
      && AllMaterial(n[110..122], mirror) && AllMaterial(n[122..134], checker) && AllMaterial(n[134..146], metal)
  {
    var p := DiversePiece(roomSize, red, green, white, lightMtl, glass, mirror, checker, metal, rotate);
    AppendPiece(buf, p);
    DiverseStartsClassic(buf, p, ClassicPiece(roomSize, red, green, white, lightMtl, rotate));
    Append(buf, p)
  }

  /** A piece that starts with the classic piece extends the classic box's buffers. */
  lemma DiverseStartsClassic(buf: Buffers, p: Buffers, classic: Buffers)
    requires |p.rtx| >= 38 && |p.bvh| >= 38 && |classic.rtx| == |classic.bvh| == 38
    requires p.rtx[..38] == classic.rtx && p.bvh[..38] == classic.bvh
    ensures Append(buf, p).rtx[..|buf.rtx| + 38] == Append(buf, classic).rtx
    ensures Append(buf, p).bvh[..|buf.bvh| + 38] == Append(buf, classic).bvh
  {
    assert (buf.rtx + p.rtx)[..|buf.rtx| + 38] == buf.rtx + p.rtx[..38];
    assert (buf.bvh + p.bvh)[..|buf.bvh| + 38] == buf.bvh + p.bvh[..38];
  }

  /** The nine blocks' materials, cube by cube. */
  lemma DiverseBlocks(n: seq<RTXTriangle>, specs: seq<CubeSpec>, glass: int, mirror: int, checker: int, metal: int)
    requires |n| == 146 && |specs| == 9
    requires specs[0].materialIndex == glass && specs[1].materialIndex == mirror && specs[2].materialIndex == checker
    requires specs[3].materialIndex == metal && specs[4].materialIndex == glass && specs[5].materialIndex == mirror
    requires specs[6].materialIndex == mirror && specs[7].materialIndex == checker && specs[8].materialIndex == metal
    requires forall s :: 0 <= s < 9 ==> AllMaterial(n[38 + 12 * s..50 + 12 * s], specs[s].materialIndex)
    ensures AllMaterial(n[38..50], glass) && AllMaterial(n[50..62], mirror) && AllMaterial(n[62..74], checker)
    ensures AllMaterial(n[74..86], metal) && AllMaterial(n[86..98], glass) && AllMaterial(n[98..110], mirror)
    ensures AllMaterial(n[110..122], mirror) && AllMaterial(n[122..134], checker) && AllMaterial(n[134..146], metal)
  {
    assert AllMaterial(n[38 + 12 * 0..50 + 12 * 0], specs[0].materialIndex);
    assert AllMaterial(n[38 + 12 * 1..50 + 12 * 1], specs[1].materialIndex);
    assert AllMaterial(n[38 + 12 * 2..50 + 12 * 2], specs[2].materialIndex);
    assert AllMaterial(n[38 + 12 * 3..50 + 12 * 3], specs[3].materialIndex);
    assert AllMaterial(n[38 + 12 * 4..50 + 12 * 4], specs[4].materialIndex);
    assert AllMaterial(n[38 + 12 * 5..50 + 12 * 5], specs[5].materialIndex);
    assert AllMaterial(n[38 + 12 * 6..50 + 12 * 6], specs[6].materialIndex);
    assert AllMaterial(n[38 + 12 * 7..50 + 12 * 7], specs[7].materialIndex);
    assert AllMaterial(n[38 + 12 * 8..50 + 12 * 8], specs[8].materialIndex);
  }
}
