/**
 * The integer side of the 2D and 3D Perlin noise generators: the
 * Fisher-Yates shuffle that builds the permutation, the 512-entry lookup
 * table, the lattice cells and the nested corner lookups, the gradient
 * selection by hash, and the grid fill of `getPerlinMap`.
 *
 * The shuffle's random indices come in as a sequence of draws, one per
 * step, each in [0, i] as `random_int(0, i)` returns them. The 2D and 3D
 * headers carry identical copies of `permute`, `generate_perm` and the
 * table construction; one definition here stands for both.
 */
module Perlin {
  import opened Vectors

  /** `perm_count`. */
  const PermCount: int := 256
  /** The table doubles the permutation so that `perm[p + 1]` needs no wrap. */
  const TableSize: int := 512

  // ---------------------------------------------------------------------
  // The shuffle
  // ---------------------------------------------------------------------

  /** The draw for step `i` of a shuffle of `n` entries lies in [0, i]. */
  predicate ValidDraws(draws: seq<int>, n: int) {
    |draws| == n && forall i :: 0 < i < n ==> 0 <= draws[i] <= i
  }

  /**
   * `permute(arr, n)`: for `i` from `n - 1` down to 1, swap `arr[i]` with
   * `arr[draws[i]]`. The result holds the same entries with the same
   * multiplicities, and its last entry is the one the first draw picked.
   */
  method Permute(arr: seq<int>, draws: seq<int>) returns (r: seq<int>)
    requires ValidDraws(draws, |arr|)
    ensures |r| == |arr| && multiset(r) == multiset(arr)
    ensures |arr| > 1 ==> r[|arr| - 1] == arr[draws[|arr| - 1]]
    ensures |arr| <= 1 ==> r == arr
  {
    var n := |arr|;
    r := arr;
    var i := n - 1;
    while i > 0
      invariant -1 <= i < n || (n == 0 && i == -1)
      invariant |r| == n && multiset(r) == multiset(arr)
      invariant i == n - 1 ==> r == arr
      invariant n > 1 && i < n - 1 ==> r[n - 1] == arr[draws[n - 1]]
    {
      var j := draws[i];
      SwapKeepsMultiset(r, i, j);
      r := r[i := r[j]][j := r[i]];
      i := i - 1;
    }
  }

  lemma SwapKeepsMultiset(s: seq<int>, i: int, j: int)
    requires 0 <= i < |s| && 0 <= j < |s|
    ensures multiset(s[i := s[j]][j := s[i]]) == multiset(s)
  {
    var t := s[i := s[j]][j := s[i]];
    if i != j {
      assert t == s[..] [i := s[j]][j := s[i]];
      assert multiset(s[i := s[j]]) == multiset(s) - multiset{s[i]} + multiset{s[j]};
      assert multiset(t) == multiset(s[i := s[j]]) - multiset{s[j]} + multiset{s[i]};
    }
  }

  /** `0, 1, ..., n - 1`. */
  function Range(n: nat): (s: seq<int>)
    ensures |s| == n && forall k :: 0 <= k < n ==> s[k] == k
  {
    seq(n, k => k)
  }

  /** Each of `0 .. n - 1` occurs exactly once, with the multiplicities of `0 .. n - 1`. */
  predicate IsPermutation(p: seq<int>, n: nat) {
    multiset(p) == multiset(Range(n))
  }

  lemma {:induction false} RangeCounts(n: nat, v: int)
    ensures multiset(Range(n))[v] == if 0 <= v < n then 1 else 0
  {
    if n > 0 {
      assert Range(n) == Range(n - 1) + [n - 1];
      RangeCounts(n - 1, v);
    }
  }

  /** A permutation of `0 .. n - 1` has every entry in range and no entry twice, and contains every value of the range. */
  lemma PermutationEntries(p: seq<int>, n: nat)
    requires |p| == n && IsPermutation(p, n)
    ensures forall k :: 0 <= k < n ==> 0 <= p[k] < n
    ensures forall a, b :: 0 <= a < b < n ==> p[a] != p[b]
    ensures forall v :: 0 <= v < n ==> v in p
  {
    forall k | 0 <= k < n
      ensures 0 <= p[k] < n
    {
      assert p[k] in multiset(p);
      RangeCounts(n, p[k]);
    }
    forall a, b | 0 <= a < b < n
      ensures p[a] != p[b]
    {
      if p[a] == p[b] {
        TwoCopies(p, a, b);
        RangeCounts(n, p[a]);
        assert false;
      }
    }
    forall v | 0 <= v < n
      ensures v in p
    {
      RangeCounts(n, v);
      assert v in multiset(p);
    }
  }

  lemma TwoCopies(s: seq<int>, a: int, b: int)
    requires 0 <= a < b < |s| && s[a] == s[b]
    ensures multiset(s)[s[a]] >= 2
  {
    assert s == s[..b] + s[b..];
    assert s[a] in s[..b];
    assert s[b..][0] == s[b];
    assert multiset(s) == multiset(s[..b]) + multiset(s[b..]);
  }

  /** `generate_perm(n)`: the identity arrangement `0 .. n - 1`, shuffled. */
  method GeneratePerm(n: nat, draws: seq<int>) returns (p: seq<int>)
    requires ValidDraws(draws, n)
    ensures |p| == n && IsPermutation(p, n)
    ensures forall k :: 0 <= k < n ==> 0 <= p[k] < n
    ensures forall a, b :: 0 <= a < b < n ==> p[a] != p[b]
  {
    var ident: seq<int> := [];
    var i := 0;
    while i < n
      invariant 0 <= i <= n && ident == Range(i)
    {
      ident := ident + [i];
      i := i + 1;
    }
    p := Permute(ident, draws);
    PermutationEntries(p, n);
  }

  // ---------------------------------------------------------------------
  // The lookup table
  // ---------------------------------------------------------------------

  /** A lookup table: 512 entries, each a valid index into the permutation. */
  predicate IsTable(perm: seq<int>) {
    |perm| == TableSize && forall i :: 0 <= i < TableSize ==> 0 <= perm[i] < PermCount
  }

  /** The constructor's table fill: `perm[i] = permutation[i % 256]` for every `i < 512`. */
  method BuildTable(permutation: seq<int>) returns (perm: seq<int>)
    requires |permutation| == PermCount
    ensures |perm| == TableSize
    ensures forall i :: 0 <= i < TableSize ==> perm[i] == permutation[i % PermCount]
    ensures perm[..PermCount] == permutation && perm[PermCount..] == permutation
  {
    perm := [];
    var i := 0;
    while i < TableSize
      invariant 0 <= i <= TableSize && |perm| == i
      invariant forall k :: 0 <= k < i ==> perm[k] == permutation[k % PermCount]
    {
      perm := perm + [permutation[i % PermCount]];
      i := i + 1;
    }
  }

  /**
   * The constructor of `Perlin3D` and `Perlin2D`: a shuffled permutation of
   * 0..255, laid out twice. The result is a valid table whose two halves
   * agree and whose first half holds each of 0..255 exactly once.
   */
  method NewTable(draws: seq<int>) returns (perm: seq<int>)
    requires ValidDraws(draws, PermCount)
    ensures IsTable(perm)
    ensures forall i :: 0 <= i < PermCount ==> perm[i + PermCount] == perm[i]
    ensures IsPermutation(perm[..PermCount], PermCount)
  {
    var permutation := GeneratePerm(PermCount, draws);
    perm := BuildTable(permutation);
    forall i | 0 <= i < PermCount
      ensures perm[i + PermCount] == perm[i]
    {
      assert perm[i + PermCount] == permutation[(i + PermCount) % PermCount];
    }
  }

  // ---------------------------------------------------------------------
  // Lattice cells and corner lookups
  // ---------------------------------------------------------------------

  /**
   * `static_cast<int>(floor(x)) & 255`: the low byte of the lattice cell.
   * On a two's-complement `int`, `& 255` is the remainder modulo 256 that
   * is never negative, which is Dafny's `%`.
   */
  function Lattice(x: real): (c: int)
    ensures 0 <= c < PermCount
  {
    x.Floor % PermCount
  }

  /** Lattice cells repeat every 256 units. */
  lemma LatticePeriodic(x: real)
    ensures Lattice(x + 256.0) == Lattice(x)
  {
    assert (x + 256.0).Floor == x.Floor + 256;
  }

  /** On [0, 256) the lattice cell is just the floor. */
  lemma LatticeInRange(x: real)
    requires 0.0 <= x < 256.0
    ensures Lattice(x) == x.Floor
  {
  }

  predicate Bit(d: int) {
    d == 0 || d == 1
  }

  /**
   * One corner of the 3D noise cell: `perm[perm[perm[xi+dx] + yi+dy] + zi+dz]`.
   * Every index stays below 512 and the hash is a valid permutation entry.
   */
  function CornerHash3(perm: seq<int>, xi: int, yi: int, zi: int, dx: int, dy: int, dz: int): (h: int)
    requires IsTable(perm)
    requires 0 <= xi < PermCount && 0 <= yi < PermCount && 0 <= zi < PermCount
    requires Bit(dx) && Bit(dy) && Bit(dz)
    ensures 0 <= h < PermCount
  {
    perm[perm[perm[xi + dx] + yi + dy] + zi + dz]
  }

  /**
   * The eight corner hashes of the 3D noise at an already frequency-scaled
   * point, in the source's order `aaa, baa, aba, bba, aab, bab, abb, bbb`:
   * corner `c` is offset by bit 0 of `c` in x, bit 1 in y and bit 2 in z.
   */
  function Corners3(perm: seq<int>, x: real, y: real, z: real): (hs: seq<int>)
    requires IsTable(perm)
    ensures |hs| == 8
    ensures forall c :: 0 <= c < 8 ==> 0 <= hs[c] < PermCount
    ensures forall c :: 0 <= c < 8 ==>
      hs[c] == CornerHash3(perm, Lattice(x), Lattice(y), Lattice(z), c % 2, (c / 2) % 2, c / 4)
  {
    var xi, yi, zi := Lattice(x), Lattice(y), Lattice(z);
    [CornerHash3(perm, xi, yi, zi, 0, 0, 0),
     CornerHash3(perm, xi, yi, zi, 1, 0, 0),
     CornerHash3(perm, xi, yi, zi, 0, 1, 0),
     CornerHash3(perm, xi, yi, zi, 1, 1, 0),
     CornerHash3(perm, xi, yi, zi, 0, 0, 1),
     CornerHash3(perm, xi, yi, zi, 1, 0, 1),
     CornerHash3(perm, xi, yi, zi, 0, 1, 1),
     CornerHash3(perm, xi, yi, zi, 1, 1, 1)]
  }

  /** The corner hashes, and so the 3D noise, repeat every 256 units along x. */
  lemma Corners3Periodic(perm: seq<int>, x: real, y: real, z: real)
    requires IsTable(perm)
    ensures Corners3(perm, x + 256.0, y, z) == Corners3(perm, x, y, z)
  {
    LatticePeriodic(x);
  }

  /** One corner of the 2D noise cell: `perm[perm[xi+dx] + yi+dy]`, every index below 512. */
  function CornerHash2(perm: seq<int>, xi: int, yi: int, dx: int, dy: int): (h: int)
    requires IsTable(perm)
    requires 0 <= xi < PermCount && 0 <= yi < PermCount
    requires Bit(dx) && Bit(dy)
    ensures 0 <= h < PermCount
  {
    perm[perm[xi + dx] + yi + dy]
  }

  /** The four corner hashes of the 2D noise, in the order `aa, ba, ab, bb`. */
  function Corners2(perm: seq<int>, x: real, y: real): (hs: seq<int>)
    requires IsTable(perm)
    ensures |hs| == 4
    ensures forall c :: 0 <= c < 4 ==> 0 <= hs[c] < PermCount
    ensures forall c :: 0 <= c < 4 ==>
      hs[c] == CornerHash2(perm, Lattice(x), Lattice(y), c % 2, c / 2)
  {
    var xi, yi := Lattice(x), Lattice(y);
    [CornerHash2(perm, xi, yi, 0, 0),
     CornerHash2(perm, xi, yi, 1, 0),
     CornerHash2(perm, xi, yi, 0, 1),
     CornerHash2(perm, xi, yi, 1, 1)]
  }

  /** The 2D corner hashes repeat every 256 units along either axis. */
  lemma Corners2Periodic(perm: seq<int>, x: real, y: real)
    requires IsTable(perm)
    ensures Corners2(perm, x + 256.0, y) == Corners2(perm, x, y)
    ensures Corners2(perm, x, y + 256.0) == Corners2(perm, x, y)
  {
    LatticePeriodic(x);
    LatticePeriodic(y);
  }

  // ---------------------------------------------------------------------
  // Gradients
  // ---------------------------------------------------------------------

  /**
   * The 3D `grad`: the low four bits of the hash (`hash & 0xF`, the
   * non-negative remainder modulo 16) pick one of sixteen sums. All sixteen
   * cases are covered, so the `default` branch is never taken.
   */
  function Grad3(hash: int, x: real, y: real, z: real): (g: real)
    ensures g in {x + y, -x + y, x - y, -x - y,
                  x + z, -x + z, x - z, -x - z,
                  y + z, -y + z, y - z, -y - z}
  {
    var h := hash % 16;
    if h == 0x0 then x + y
    else if h == 0x1 then -x + y
    else if h == 0x2 then x - y
    else if h == 0x3 then -x - y
    else if h == 0x4 then x + z
    else if h == 0x5 then -x + z
    else if h == 0x6 then x - z
    else if h == 0x7 then -x - z
    else if h == 0x8 then y + z
    else if h == 0x9 then -y + z
    else if h == 0xA then y - z
    else if h == 0xB then -y - z
    else if h == 0xC then y + x
    else if h == 0xD then -y + z
    else if h == 0xE then y - x
    else if h == 0xF then -y - z
    else assert false; 0.0
  }

  /**
   * The gradient direction a hash selects: one of the twelve vectors from
   * the cube's centre to the midpoints of its edges, four of them listed twice.
   */
  function GradVector3(hash: int): (v: Vec3)
    ensures v.x in {-1.0, 0.0, 1.0} && v.y in {-1.0, 0.0, 1.0} && v.z in {-1.0, 0.0, 1.0}
    ensures Dot(v, v) == 2.0
  {
    var h := hash % 16;
    if h < 4 then Vec3(if h % 2 == 0 then 1.0 else -1.0, if h < 2 then 1.0 else -1.0, 0.0)
    else if h < 8 then Vec3(if h % 2 == 0 then 1.0 else -1.0, 0.0, if h < 6 then 1.0 else -1.0)
    else if h < 12 then Vec3(0.0, if h % 2 == 0 then 1.0 else -1.0, if h < 10 then 1.0 else -1.0)
    else if h == 12 then Vec3(1.0, 1.0, 0.0)
    else if h == 13 then Vec3(0.0, -1.0, 1.0)
    else if h == 14 then Vec3(-1.0, 1.0, 0.0)
    else Vec3(0.0, -1.0, -1.0)
  }

  /** `grad` is the dot product of the offset with the hash's gradient vector. */
  lemma Grad3IsDot(hash: int, x: real, y: real, z: real)
    ensures Grad3(hash, x, y, z) == Dot(GradVector3(hash), Vec3(x, y, z))
  {
  }

  /** `grad` reads only the low four bits of the hash. */
  lemma Grad3LowBits(hash: int, x: real, y: real, z: real)
    ensures Grad3(hash + 16, x, y, z) == Grad3(hash, x, y, z)
  {
    assert (hash + 16) % 16 == hash % 16;
  }

  /**
   * The 2D `grad`: `hash &= 3` keeps the low two bits, which pick `x`, `-x`,
   * `y` or `-y`; the trailing `return 0` is never reached.
   */
  function Grad2(hash: int, x: real, y: real): (g: real)
    ensures g in {x, -x, y, -y}
  {
    var h := hash % 4;
    if h == 0 then x
    else if h == 1 then -x
    else if h == 2 then y
    else if h == 3 then -y
    else assert false; 0.0
  }

  /** The four directions `i`, `-i`, `j`, `-j` of the 2D gradient. */
  function GradVector2(hash: int): (v: Vec2)
    ensures v.x * v.x + v.y * v.y == 1.0
  {
    var h := hash % 4;
    if h == 0 then Vec2(1.0, 0.0)
    else if h == 1 then Vec2(-1.0, 0.0)
    else if h == 2 then Vec2(0.0, 1.0)
    else Vec2(0.0, -1.0)
  }

  /** The 2D `grad` is the dot product of `(x, y)` with one of the four unit vectors. */
  lemma Grad2IsDot(hash: int, x: real, y: real)
    ensures Grad2(hash, x, y) == GradVector2(hash).x * x + GradVector2(hash).y * y
  {
  }

  // ---------------------------------------------------------------------
  // getPerlinMap
  // ---------------------------------------------------------------------

  /** The position of cell `(i, j)` in a row-major grid `width` wide. */
  function Cell(width: int, i: int, j: int): int {
    j * width + i
  }

  /** The number of cells the fill writes: none unless both extents are positive. */
  function Cells(width: int, height: int): (n: nat)
    ensures width > 0 && height > 0 ==> n == width * height
  {
    if width > 0 && height > 0 then width * height else 0
  }

  /** `frequency / n`, the step between neighbouring samples; never used when `n` is 0. */
  function Spacing(frequency: real, n: int): real {
    if n == 0 then 0.0 else frequency / n as real
  }

  /**
   * What a cell holds: `norm(noise(x, y))` of a freshly built `Perlin2D`
   * for `depth == 1`, its `octaves(x, y, depth)` otherwise. The two noise
   * functions are parameters.
   */
  datatype Sampler = Sampler(depth: int, single: (real, real) -> real, layered: (real, real, int) -> real)

  function At(s: Sampler, x: real, y: real): real {
    if s.depth == 1 then s.single(x, y) else s.layered(x, y, s.depth)
  }

  /** The first `rows` rows of a grid `width` wide hold their samples. */
  predicate RowsDone(out: seq<real>, width: int, rows: int, dx: real, dy: real, s: Sampler) {
    forall jj, ii :: 0 <= jj < rows && 0 <= ii < width ==>
      0 <= Cell(width, ii, jj) < |out| && out[Cell(width, ii, jj)] == At(s, ii as real * dx, jj as real * dy)
  }

  /**
   * `getPerlinMap`: fills `grid[j * width + i]` for every `0 <= j < height`
   * and `0 <= i < width` with the sample at `(i * dx, j * dy)`, where
   * `dx = frequency / width` and `dy = frequency / height`. The indices
   * written, in the order written, are exactly `0, 1, ..., width * height - 1`
   * (row-major, each once, all inside the grid), and the cells past them
   * keep their values.
   */
  method GetPerlinMap(grid: seq<real>, width: int, height: int, frequency: real, s: Sampler)
      returns (out: seq<real>, written: seq<int>)
    requires Cells(width, height) <= |grid|
    ensures |out| == |grid|
    ensures written == Range(Cells(width, height))
    ensures RowsDone(out, width, height, Spacing(frequency, width), Spacing(frequency, height), s)
    ensures forall k :: Cells(width, height) <= k < |grid| ==> out[k] == grid[k]
  {
    var dx := Spacing(frequency, width);
    var dy := Spacing(frequency, height);
    var w := if width > 0 then width else 0;
    var h := if height > 0 then height else 0;
    assert Cells(width, height) == h * w;
    var y := 0.0;
    out, written := grid, [];
    var j, start := 0, 0;
    while j < height
      invariant 0 <= j <= h && start == j * w
      invariant |out| == |grid|
      invariant written == Range(start)
      invariant y == j as real * dy
      invariant RowsDone(out, width, j, dx, dy, s)
      invariant forall k :: start <= k < |grid| ==> out[k] == grid[k]
    {
      RowsInside(w, h, j);
      ghost var before := out;
      out, written := FillRow(out, written, start, w, dx, y, s);
      if width > 0 {
        NextRow(before, out, width, j, start, dx, dy, s);
      } else {
        assert RowsDone(out, width, j + 1, dx, dy, s);
      }
      assert start + w == (j + 1) * w;
      assert (j + 1) as real * dy == j as real * dy + dy;
      y := y + dy;
      j, start := j + 1, start + w;
    }
    assert start == Cells(width, height);
  }

  /** Filling row `j`, which starts at cell `start`, keeps the rows above and adds row `j`. */
  lemma NextRow(before: seq<real>, out: seq<real>, width: int, j: int, start: int, dx: real, dy: real, s: Sampler)
    requires 0 < width && 0 <= j && start == j * width && start + width <= |before| == |out|
    requires RowsDone(before, width, j, dx, dy, s)
    requires forall k :: 0 <= k < start ==> out[k] == before[k]
    requires forall k :: start <= k < start + width ==> out[k] == At(s, (k - start) as real * dx, j as real * dy)
    ensures RowsDone(out, width, j + 1, dx, dy, s)
  {
    forall jj, ii | 0 <= jj < j + 1 && 0 <= ii < width
      ensures 0 <= Cell(width, ii, jj) < |out| && out[Cell(width, ii, jj)] == At(s, ii as real * dx, jj as real * dy)
    {
      if jj < j {
        EarlierRow(width, ii, jj, j);
        MulMonotone(0, jj, width);
        var k := Cell(width, ii, jj);
        assert before[k] == At(s, ii as real * dx, jj as real * dy);
        assert out[k] == before[k];
      } else {
        CurrentRow(out, start, width, ii, dx, j as real * dy, s);
        assert Cell(width, ii, jj) == start + ii;
        var y := j as real * dy;
        assert y == jj as real * dy;
      }
    }
  }

  lemma CurrentRow(out: seq<real>, start: int, width: int, ii: int, dx: real, y: real, s: Sampler)
    requires 0 <= start && start + width <= |out| && 0 <= ii < width
    requires forall k :: start <= k < start + width ==> out[k] == At(s, (k - start) as real * dx, y)
    ensures out[start + ii] == At(s, ii as real * dx, y)
  {
    var k := start + ii;
    assert out[k] == At(s, (k - start) as real * dx, y);
    var offset := (k - start) as real * dx;
    assert offset == ii as real * dx;
  }

  /**
   * The inner loop of `getPerlinMap`: the `count` cells from `start` on get
   * the samples at `x = 0, dx, 2 dx, ...` on the row at height `y`, with `x`
   * accumulated by repeated addition as in the source.
   */
  method FillRow(grid: seq<real>, written: seq<int>, start: int, count: int, dx: real, y: real, s: Sampler)
      returns (out: seq<real>, log: seq<int>)
    requires 0 <= start && 0 <= count && start + count <= |grid|
    requires written == Range(start)
    ensures |out| == |grid|
    ensures log == Range(start + count)
    ensures forall k :: start <= k < start + count ==> out[k] == At(s, (k - start) as real * dx, y)
    ensures forall k :: 0 <= k < start ==> out[k] == grid[k]
    ensures forall k :: start + count <= k < |grid| ==> out[k] == grid[k]
  {
    out, log := grid, written;
    var x := 0.0;
    var i := 0;
    while i < count
      invariant 0 <= i <= count
      invariant |out| == |grid|
      invariant log == Range(start + i)
      invariant x == i as real * dx
      invariant forall k :: start <= k < start + i ==> out[k] == At(s, (k - start) as real * dx, y)
      invariant forall k :: 0 <= k < start ==> out[k] == grid[k]
      invariant forall k :: start + i <= k < |grid| ==> out[k] == grid[k]
    {
      out := out[start + i := At(s, x, y)];
      log := log + [start + i];
      assert (i + 1) as real * dx == i as real * dx + dx;
      x := x + dx;
      i := i + 1;
    }
  }

  /** Row `j` of a grid `w` wide and `h` tall ends inside it. */
  lemma RowsInside(w: int, h: int, j: int)
    requires 0 <= w && 0 <= j < h
    ensures j * w + w <= h * w
  {
    assert (j + 1) * w <= h * w by {
      MulMonotone(j + 1, h, w);
    }
  }

  lemma MulMonotone(a: int, b: int, c: int)
    requires a <= b && 0 <= c
    ensures a * c <= b * c
  {
  }

  /** Every cell of an earlier row comes before the start of row `j`. */
  lemma EarlierRow(width: int, ii: int, jj: int, j: int)
    requires 0 <= ii < width && 0 <= jj < j
    ensures Cell(width, ii, jj) < j * width
  {
    MulMonotone(jj + 1, j, width);
  }
}
