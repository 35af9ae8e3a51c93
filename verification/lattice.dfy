/**
 * The triangle mesh that `getVertices` and `getDensities` walk: two triangles
 * per unit lattice square, in three orientations, emitted in the order of the
 * source's triple loops.
 */
module Lattice {
  import opened Voxels

  /** The three families of lattice squares: constant k, constant j, constant i. */
  datatype Facing = FacingZ | FacingY | FacingX

  /** The first in-plane unit step of a square: `v2 = v1 + Across(f)`. */
  function Across(f: Facing): Voxel {
    match f
    case FacingZ => Voxel(1, 0, 0)
    case FacingY => Voxel(1, 0, 0)
    case FacingX => Voxel(0, 1, 0)
  }

  /** The second in-plane unit step of a square: `v3 = v1 + Along(f)`. */
  function Along(f: Facing): Voxel {
    match f
    case FacingZ => Voxel(0, 1, 0)
    case FacingY => Voxel(0, 0, 1)
    case FacingX => Voxel(0, 0, 1)
  }

  /** The bounds of the loops over `i`, `j` and `k`: `dim - 1` in the plane, `dim` across it. */
  function Bounds(f: Facing, dim: int): Voxel {
    match f
    case FacingZ => Voxel(dim - 1, dim - 1, dim)
    case FacingY => Voxel(dim - 1, dim, dim - 1)
    case FacingX => Voxel(dim, dim - 1, dim - 1)
  }

  /** How many times a loop `for (v = 0; v < e; v++)` runs. */
  function Count(e: int): nat {
    if e > 0 then e else 0
  }

  /** The anchors the triple loop over the squares facing `f` visits on a `dim`-sided grid. */
  ghost function Visits(f: Facing, dim: int): iset<Voxel> {
    var b := Bounds(f, dim);
    iset v | InBox(v, b.x, b.y, b.z)
  }

  /** Every anchor of slab `i` is visited, when `i` is one of the outer loop's values. */
  lemma SlabVisited(f: Facing, dim: int, i: int, nj: nat, nk: nat)
    requires 0 <= i < Count(Bounds(f, dim).x) && nj == Count(Bounds(f, dim).y) && nk == Count(Bounds(f, dim).z)
    ensures forall j, k :: 0 <= j < nj && 0 <= k < nk ==> Voxel(i, j, k) in Visits(f, dim)
  {
  }

  /** Every anchor of row `j` of a visited slab is visited. */
  lemma RowVisited(f: Facing, dim: int, i: int, j: int, nj: nat, nk: nat)
    requires forall j, k :: 0 <= j < nj && 0 <= k < nk ==> Voxel(i, j, k) in Visits(f, dim)
    requires 0 <= j < nj
    ensures forall k :: 0 <= k < nk ==> Voxel(i, j, k) in Visits(f, dim)
  {
  }

  /** The six corners emitted for the square at `v1`: triangles `v1,v2,v4` and `v1,v3,v4`. */
  function Quad(f: Facing, v1: Voxel): seq<Voxel> {
    var v2 := Plus(v1, Across(f));
    var v3 := Plus(v1, Along(f));
    var v4 := Plus(v2, Along(f));
    [v1, v2, v4, v1, v3, v4]
  }

  // ---------------------------------------------------------------------
  // The anchors (i, j, k) the triple loops visit, in visiting order

  /** `(i, j, 0)` .. `(i, j, nk - 1)`: one run of the innermost loop. */
  function Row(i: int, j: int, nk: nat): seq<Voxel> {
    if nk == 0 then [] else Row(i, j, nk - 1) + [Voxel(i, j, nk - 1)]
  }

  /** Rows `j = 0 .. nj - 1` for a fixed `i`: one run of the middle loop. */
  function Slab(i: int, nj: nat, nk: nat): seq<Voxel> {
    if nj == 0 then [] else Slab(i, nj - 1, nk) + Row(i, nj - 1, nk)
  }

  /** Slabs `i = 0 .. ni - 1`: a whole triple loop. */
  function Box(ni: nat, nj: nat, nk: nat): seq<Voxel> {
    if ni == 0 then [] else Box(ni - 1, nj, nk) + Slab(ni - 1, nj, nk)
  }

  /** The anchors of the squares facing `f` on a `dim`-sided grid. */
  function Anchors(f: Facing, dim: int): seq<Voxel> {
    var b := Bounds(f, dim);
    Box(Count(b.x), Count(b.y), Count(b.z))
  }

  /** The corners emitted for a run of anchors, six per anchor. */
  function Expand(f: Facing, a: seq<Voxel>): seq<Voxel> {
    if |a| == 0 then [] else Expand(f, a[..|a| - 1]) + Quad(f, a[|a| - 1])
  }

  /** Every corner the mesh emits, in emission order. */
  function Mesh(dim: int): seq<Voxel> {
    Expand(FacingZ, Anchors(FacingZ, dim))
      + Expand(FacingY, Anchors(FacingY, dim))
      + Expand(FacingX, Anchors(FacingX, dim))
  }

  /** The three floats emitted for one corner. */
  function Triple(c: Voxel): seq<int> {
    [c.x, c.y, c.z]
  }

  /** The flat vertex buffer for a run of corners, three coordinates per corner. */
  function Coords(cs: seq<Voxel>): seq<int> {
    if |cs| == 0 then [] else Coords(cs[..|cs| - 1]) + Triple(cs[|cs| - 1])
  }

  // ---------------------------------------------------------------------
  // Anchors: how many, which, and in what order

  /** Anchor `v` is one the triple loop with bounds `ni`, `nj`, `nk` visits. */
  predicate InBox(v: Voxel, ni: int, nj: int, nk: int) {
    0 <= v.x < ni && 0 <= v.y < nj && 0 <= v.z < nk
  }

  ghost predicate StrictlyIncreasing(s: seq<Voxel>) {
    forall m, n :: 0 <= m < n < |s| ==> Before(s[m], s[n])
  }

  lemma IncreasingAppend(a: seq<Voxel>, b: seq<Voxel>)
    requires StrictlyIncreasing(a) && StrictlyIncreasing(b)
    requires forall m, n :: 0 <= m < |a| && 0 <= n < |b| ==> Before(a[m], b[n])
    ensures StrictlyIncreasing(a + b)
  {
  }

  lemma {:induction false} RowFacts(i: int, j: int, nk: nat)
    ensures |Row(i, j, nk)| == nk
    ensures forall v :: v in Row(i, j, nk) <==> (v.x == i && v.y == j && 0 <= v.z < nk)
    ensures StrictlyIncreasing(Row(i, j, nk))
  {
    if nk > 0 {
      RowFacts(i, j, nk - 1);
      IncreasingAppend(Row(i, j, nk - 1), [Voxel(i, j, nk - 1)]);
    }
  }

  /** `n` runs of `p` are `n - 1` runs and one more. */
  lemma OneMore(n: nat, p: int)
    requires n > 0
    ensures (n - 1) * p + p == n * p
  {
  }

  lemma {:induction false} SlabSize(i: int, nj: nat, nk: nat)
    ensures |Slab(i, nj, nk)| == nj * nk
  {
    if nj > 0 {
      SlabSize(i, nj - 1, nk);
      RowFacts(i, nj - 1, nk);
      OneMore(nj, nk);
    }
  }

  lemma {:induction false} SlabMembers(i: int, nj: nat, nk: nat)
    ensures forall v :: v in Slab(i, nj, nk) <==> (v.x == i && 0 <= v.y < nj && 0 <= v.z < nk)
  {
    if nj > 0 {
      SlabMembers(i, nj - 1, nk);
      RowFacts(i, nj - 1, nk);
    }
  }

  lemma {:induction false} SlabIncreasing(i: int, nj: nat, nk: nat)
    ensures StrictlyIncreasing(Slab(i, nj, nk))
  {
    if nj > 0 {
      SlabIncreasing(i, nj - 1, nk);
      SlabMembers(i, nj - 1, nk);
      RowFacts(i, nj - 1, nk);
      var s, r := Slab(i, nj - 1, nk), Row(i, nj - 1, nk);
      forall m, n | 0 <= m < |s| && 0 <= n < |r|
        ensures Before(s[m], r[n])
      {
        assert s[m] in s && r[n] in r;
      }
      IncreasingAppend(s, r);
    }
  }

  lemma {:induction false} BoxSize(ni: nat, nj: nat, nk: nat)
    ensures |Box(ni, nj, nk)| == ni * (nj * nk)
  {
    if ni > 0 {
      BoxSize(ni - 1, nj, nk);
      SlabSize(ni - 1, nj, nk);
      OneMore(ni, nj * nk);
    }
  }

  lemma {:induction false} BoxMembers(ni: nat, nj: nat, nk: nat)
    ensures forall v :: v in Box(ni, nj, nk) <==> InBox(v, ni, nj, nk)
  {
    if ni > 0 {
      BoxMembers(ni - 1, nj, nk);
      SlabMembers(ni - 1, nj, nk);
      MembersJoin(Box(ni - 1, nj, nk), Slab(ni - 1, nj, nk), ni - 1, nj, nk);
    }
  }

  /** The anchors of `ni - 1` slabs followed by slab `ni - 1` are the anchors of `ni` slabs. */
  lemma MembersJoin(b: seq<Voxel>, s: seq<Voxel>, i: nat, nj: nat, nk: nat)
    requires forall v :: v in b <==> InBox(v, i, nj, nk)
    requires forall v :: v in s <==> (v.x == i && 0 <= v.y < nj && 0 <= v.z < nk)
    ensures forall v :: v in b + s <==> InBox(v, i + 1, nj, nk)
  {
    forall v
      ensures v in b + s <==> InBox(v, i + 1, nj, nk)
    {
      assert v in b + s <==> v in b || v in s;
    }
  }

  lemma {:induction false} BoxIncreasing(ni: nat, nj: nat, nk: nat)
    ensures StrictlyIncreasing(Box(ni, nj, nk))
  {
    if ni > 0 {
      BoxIncreasing(ni - 1, nj, nk);
      BoxMembers(ni - 1, nj, nk);
      SlabIncreasing(ni - 1, nj, nk);
      SlabMembers(ni - 1, nj, nk);
      var b, s := Box(ni - 1, nj, nk), Slab(ni - 1, nj, nk);
      forall m, n | 0 <= m < |b| && 0 <= n < |s|
        ensures Before(b[m], s[n])
      {
        assert b[m] in b && s[n] in s;
      }
      IncreasingAppend(b, s);
    }
  }

  /**
   * A triple loop with bounds `ni`, `nj`, `nk` visits exactly the anchors in
   * `[0, ni) x [0, nj) x [0, nk)`, each once, in lexicographic order.
   */
  lemma BoxFacts(ni: nat, nj: nat, nk: nat)
    ensures |Box(ni, nj, nk)| == ni * (nj * nk)
    ensures forall v :: v in Box(ni, nj, nk) <==> InBox(v, ni, nj, nk)
    ensures StrictlyIncreasing(Box(ni, nj, nk))
  {
    BoxSize(ni, nj, nk);
    BoxMembers(ni, nj, nk);
    BoxIncreasing(ni, nj, nk);
  }

  // ---------------------------------------------------------------------
  // Corners and coordinates

  lemma {:induction false} ExpandAppend(f: Facing, a: seq<Voxel>, b: seq<Voxel>)
    ensures Expand(f, a + b) == Expand(f, a) + Expand(f, b)
    decreases |b|
  {
    if b == [] {
      assert a + b == a;
    } else {
      var b' := b[..|b| - 1];
      assert (a + b)[..|a + b| - 1] == a + b';
      ExpandAppend(f, a, b');
    }
  }

  /** Corner `6q + s` of an expanded run is corner `s` of the square at anchor `q`. */
  lemma {:induction false} ExpandAt(f: Facing, a: seq<Voxel>, q: nat, s: nat)
    requires q < |a| && s < 6
    ensures |Expand(f, a)| == 6 * |a|
    ensures Expand(f, a)[6 * q + s] == Quad(f, a[q])[s]
    decreases |a|
  {
    var a' := a[..|a| - 1];
    if q < |a| - 1 {
      ExpandAt(f, a', q, s);
    } else if a' != [] {
      ExpandAt(f, a', 0, 0);
    }
  }

  lemma {:induction false} CoordsAppend(a: seq<Voxel>, b: seq<Voxel>)
    ensures Coords(a + b) == Coords(a) + Coords(b)
    decreases |b|
  {
    if b == [] {
      assert a + b == a;
    } else {
      var b' := b[..|b| - 1];
      assert (a + b)[..|a + b| - 1] == a + b';
      CoordsAppend(a, b');
    }
  }

  /** Floats `3m .. 3m+2` of the vertex buffer are the coordinates of corner `m`. */
  lemma {:induction false} CoordsAt(cs: seq<Voxel>, m: nat)
    requires m < |cs|
    ensures |Coords(cs)| == 3 * |cs|
    ensures Coords(cs)[3 * m] == cs[m].x
    ensures Coords(cs)[3 * m + 1] == cs[m].y
    ensures Coords(cs)[3 * m + 2] == cs[m].z
    decreases |cs|
  {
    var cs' := cs[..|cs| - 1];
    if m < |cs| - 1 {
      CoordsAt(cs', m);
    } else if cs' != [] {
      CoordsAt(cs', 0);
    }
  }

  /** The vertex buffer of two runs of anchors is the two buffers one after the other. */
  lemma EmitAppend(f: Facing, a: seq<Voxel>, b: seq<Voxel>)
    ensures Coords(Expand(f, a + b)) == Coords(Expand(f, a)) + Coords(Expand(f, b))
  {
    ExpandAppend(f, a, b);
    CoordsAppend(Expand(f, a), Expand(f, b));
  }

  lemma ExpandSnoc(f: Facing, a: seq<Voxel>, v: Voxel)
    ensures Expand(f, a + [v]) == Expand(f, a) + Quad(f, v)
  {
    assert (a + [v])[..|a|] == a;
  }

  /** All coordinates of corners inside a `dim`-sided grid lie in `[0, dim - 1]`. */
  lemma {:induction false} CoordsInGrid(cs: seq<Voxel>, dim: int, n: nat)
    requires forall m :: 0 <= m < |cs| ==> InGrid(cs[m], dim)
    requires n < |Coords(cs)|
    ensures 0 <= Coords(cs)[n] < dim
    decreases |cs|
  {
    var cs' := cs[..|cs| - 1];
    if n < |Coords(cs')| {
      CoordsInGrid(cs', dim, n);
    }
  }

  /** The coordinates of the six corners of a square, in emission order. */
  lemma QuadCoords(f: Facing, v1: Voxel, v2: Voxel, v3: Voxel, v4: Voxel)
    requires v2 == Plus(v1, Across(f)) && v3 == Plus(v1, Along(f)) && v4 == Plus(v2, Along(f))
    ensures Coords(Quad(f, v1)) == Triple(v1) + Triple(v2) + Triple(v4) + Triple(v1) + Triple(v3) + Triple(v4)
  {
    assert [v1][..0] == [];
    assert [v1, v2][..1] == [v1];
    assert [v1, v2, v4][..2] == [v1, v2];
    assert [v1, v2, v4, v1][..3] == [v1, v2, v4];
    assert [v1, v2, v4, v1, v3][..4] == [v1, v2, v4, v1];
    assert [v1, v2, v4, v1, v3, v4][..5] == [v1, v2, v4, v1, v3];
    assert Coords([v1]) == Triple(v1);
    assert Coords([v1, v2]) == Triple(v1) + Triple(v2);
    assert Coords([v1, v2, v4]) == Triple(v1) + Triple(v2) + Triple(v4);
    assert Coords([v1, v2, v4, v1]) == Triple(v1) + Triple(v2) + Triple(v4) + Triple(v1);
    assert Coords([v1, v2, v4, v1, v3]) == Triple(v1) + Triple(v2) + Triple(v4) + Triple(v1) + Triple(v3);
  }

  /** One more run of the innermost loop appends the coordinates of one more square. */
  lemma RowCoordsNext(f: Facing, i: int, j: int, k: nat)
    ensures Coords(Expand(f, Row(i, j, k + 1))) == Coords(Expand(f, Row(i, j, k))) + Coords(Quad(f, Voxel(i, j, k)))
  {
    var v := Voxel(i, j, k);
    assert Row(i, j, k + 1) == Row(i, j, k) + [v];
    ExpandSnoc(f, Row(i, j, k), v);
    CoordsAppend(Expand(f, Row(i, j, k)), Quad(f, v));
  }

  /** One more run of the middle loop appends the coordinates of one more row. */
  lemma SlabCoordsNext(f: Facing, i: int, j: nat, nk: nat)
    ensures Coords(Expand(f, Slab(i, j + 1, nk))) == Coords(Expand(f, Slab(i, j, nk))) + Coords(Expand(f, Row(i, j, nk)))
  {
    assert Slab(i, j + 1, nk) == Slab(i, j, nk) + Row(i, j, nk);
    EmitAppend(f, Slab(i, j, nk), Row(i, j, nk));
  }

  /** One more run of the outer loop appends the coordinates of one more slab. */
  lemma BoxCoordsNext(f: Facing, i: nat, nj: nat, nk: nat)
    ensures Coords(Expand(f, Box(i + 1, nj, nk))) == Coords(Expand(f, Box(i, nj, nk))) + Coords(Expand(f, Slab(i, nj, nk)))
  {
    assert Box(i + 1, nj, nk) == Box(i, nj, nk) + Slab(i, nj, nk);
    EmitAppend(f, Box(i, nj, nk), Slab(i, nj, nk));
  }

  /**
   * The vertex buffers of the three families, one after the other, hold the
   * coordinates of every corner of the mesh, in order.
   */
  lemma MeshVertices(dim: int)
    ensures Coords(Expand(FacingZ, Anchors(FacingZ, dim))) + Coords(Expand(FacingY, Anchors(FacingY, dim)))
              + Coords(Expand(FacingX, Anchors(FacingX, dim))) == Coords(Mesh(dim))
  {
    var z, y, x := Expand(FacingZ, Anchors(FacingZ, dim)), Expand(FacingY, Anchors(FacingY, dim)), Expand(FacingX, Anchors(FacingX, dim));
    CoordsAppend(z, y);
    CoordsAppend(z + y, x);
  }

  // ---------------------------------------------------------------------
  // Properties of the whole mesh

  /** Every square of every family has its four corners inside `[0, dim - 1]^3`. */
  lemma AnchorsFit(f: Facing, dim: int, v: Voxel, s: nat)
    requires v in Anchors(f, dim) && s < 6
    ensures InGrid(Quad(f, v)[s], dim)
  {
    var b := Bounds(f, dim);
    BoxFacts(Count(b.x), Count(b.y), Count(b.z));
  }

  /** Every corner emitted for the squares facing `f` lies in the grid. */
  lemma BlockInGrid(f: Facing, dim: int, m: nat)
    requires m < |Expand(f, Anchors(f, dim))|
    ensures InGrid(Expand(f, Anchors(f, dim))[m], dim)
  {
    var a := Anchors(f, dim);
    if a == [] {
      assert false;
    } else {
      ExpandAt(f, a, 0, 0);
      ExpandAt(f, a, m / 6, m % 6);
      AnchorsFit(f, dim, a[m / 6], m % 6);
    }
  }

  /** Every corner the mesh emits is a lattice point with coordinates in `[0, dim - 1]`. */
  lemma MeshInGrid(dim: int, m: nat)
    requires m < |Mesh(dim)|
    ensures InGrid(Mesh(dim)[m], dim)
  {
    var z := Expand(FacingZ, Anchors(FacingZ, dim));
    var y := Expand(FacingY, Anchors(FacingY, dim));
    var x := Expand(FacingX, Anchors(FacingX, dim));
    if m < |z| {
      BlockInGrid(FacingZ, dim, m);
    } else if m < |z| + |y| {
      BlockInGrid(FacingY, dim, m - |z|);
    } else {
      BlockInGrid(FacingX, dim, m - |z| - |y|);
    }
  }

  /** Every float of the vertex buffer is a lattice coordinate in `[0, dim - 1]`. */
  lemma VertexInRange(dim: int, n: nat)
    requires n < |Coords(Mesh(dim))|
    ensures 0 <= Coords(Mesh(dim))[n] < dim
  {
    var cs := Mesh(dim);
    forall m | 0 <= m < |cs|
      ensures InGrid(cs[m], dim)
    {
      MeshInGrid(dim, m);
    }
    CoordsInGrid(cs, dim, n);
  }

  /** Six corners per anchor. */
  lemma ExpandSize(f: Facing, a: seq<Voxel>)
    ensures |Expand(f, a)| == 6 * |a|
  {
    if a != [] {
      ExpandAt(f, a, 0, 0);
    }
  }

  /** Each family has `dim (dim - 1)^2` squares. */
  lemma SquareCount(f: Facing, dim: int)
    ensures var b := Bounds(f, dim);
            Count(b.x) * (Count(b.y) * Count(b.z)) == if dim > 0 then dim * ((dim - 1) * (dim - 1)) else 0
  {
    if dim > 0 {
      var d, e := dim, dim - 1;
      assert Count(d) == d && Count(e) == e;
      assert e * (e * d) == d * (e * e) && e * (d * e) == d * (e * e) by {
        assert e * d == d * e;
      }
    }
  }

  /** Each family emits six corners per square. */
  lemma BlockSize(f: Facing, dim: int)
    ensures |Expand(f, Anchors(f, dim))| == if dim > 0 then 6 * (dim * ((dim - 1) * (dim - 1))) else 0
  {
    var b := Bounds(f, dim);
    ExpandSize(f, Anchors(f, dim));
    BoxSize(Count(b.x), Count(b.y), Count(b.z));
    SquareCount(f, dim);
  }

  /** The mesh has `18 dim (dim - 1)^2` corners: six per square, `3 dim (dim - 1)^2` squares. */
  lemma MeshSize(dim: int)
    ensures |Mesh(dim)| == if dim > 0 then 18 * (dim * ((dim - 1) * (dim - 1))) else 0
  {
    BlockSize(FacingZ, dim);
    BlockSize(FacingY, dim);
    BlockSize(FacingX, dim);
  }
}
