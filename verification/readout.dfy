/**
 * The density buffer `getDensities` builds: one reading per mesh corner, in
 * the same order as the corners of the vertex buffer.  The grid is read
 * through a snapshot `d` of the cells, so that everything here is a value.
 */
module Readout {
  import opened Voxels
  import opened Lattice

  /** The density snapshot `d` holds for corner `c`; a corner outside the snapshot reads as zero. */
  function Reading(d: imap<Voxel, real>, c: Voxel): real {
    if c in d then d[c] else 0.0
  }

  /** The density buffer for a run of corners, one reading per corner. */
  function Readings(d: imap<Voxel, real>, cs: seq<Voxel>): seq<real> {
    if |cs| == 0 then [] else Readings(d, cs[..|cs| - 1]) + [Reading(d, cs[|cs| - 1])]
  }

  // ---------------------------------------------------------------------
  // Readings of runs of corners

  lemma {:induction false} ReadingsAppend(d: imap<Voxel, real>, a: seq<Voxel>, b: seq<Voxel>)
    ensures Readings(d, a + b) == Readings(d, a) + Readings(d, b)
    decreases |b|
  {
    if b == [] {
      assert a + b == a;
    } else {
      var b' := b[..|b| - 1];
      assert (a + b)[..|a + b| - 1] == a + b';
      ReadingsAppend(d, a, b');
    }
  }

  /** Entry `m` of the density buffer is the reading of corner `m`. */
  lemma {:induction false} ReadingsAt(d: imap<Voxel, real>, cs: seq<Voxel>, m: nat)
    requires m < |cs|
    ensures |Readings(d, cs)| == |cs|
    ensures Readings(d, cs)[m] == Reading(d, cs[m])
    decreases |cs|
  {
    var cs' := cs[..|cs| - 1];
    if m < |cs| - 1 {
      ReadingsAt(d, cs', m);
    } else if cs' != [] {
      ReadingsAt(d, cs', 0);
    }
  }

  /** The density buffer of two runs of anchors is the two buffers one after the other. */
  lemma ReadingsExpandAppend(d: imap<Voxel, real>, f: Facing, a: seq<Voxel>, b: seq<Voxel>)
    ensures Readings(d, Expand(f, a + b)) == Readings(d, Expand(f, a)) + Readings(d, Expand(f, b))
  {
    ExpandAppend(f, a, b);
    ReadingsAppend(d, Expand(f, a), Expand(f, b));
  }

  /** The readings of the six corners of a square, in emission order. */
  lemma QuadReadings(d: imap<Voxel, real>, f: Facing, v1: Voxel, v2: Voxel, v3: Voxel, v4: Voxel)
    requires v2 == Plus(v1, Across(f)) && v3 == Plus(v1, Along(f)) && v4 == Plus(v2, Along(f))
    ensures Readings(d, Quad(f, v1)) == [Reading(d, v1), Reading(d, v2), Reading(d, v4), Reading(d, v1), Reading(d, v3), Reading(d, v4)]
  {
    assert [v1][..0] == [];
    assert [v1, v2][..1] == [v1];
    assert [v1, v2, v4][..2] == [v1, v2];
    assert [v1, v2, v4, v1][..3] == [v1, v2, v4];
    assert [v1, v2, v4, v1, v3][..4] == [v1, v2, v4, v1];
    assert [v1, v2, v4, v1, v3, v4][..5] == [v1, v2, v4, v1, v3];
    assert Readings(d, [v1]) == [Reading(d, v1)];
    assert Readings(d, [v1, v2]) == [Reading(d, v1), Reading(d, v2)];
    assert Readings(d, [v1, v2, v4]) == [Reading(d, v1), Reading(d, v2), Reading(d, v4)];
    assert Readings(d, [v1, v2, v4, v1]) == [Reading(d, v1), Reading(d, v2), Reading(d, v4), Reading(d, v1)];
    assert Readings(d, [v1, v2, v4, v1, v3]) == [Reading(d, v1), Reading(d, v2), Reading(d, v4), Reading(d, v1), Reading(d, v3)];
  }

  // ---------------------------------------------------------------------
  // The loops read the corners of the mesh in order

  /** One more run of the innermost loop appends the readings of one more square. */
  lemma RowReadingsNext(d: imap<Voxel, real>, f: Facing, i: int, j: int, k: nat)
    ensures Readings(d, Expand(f, Row(i, j, k + 1))) == Readings(d, Expand(f, Row(i, j, k))) + Readings(d, Quad(f, Voxel(i, j, k)))
  {
    var v := Voxel(i, j, k);
    assert Row(i, j, k + 1) == Row(i, j, k) + [v];
    ExpandSnoc(f, Row(i, j, k), v);
    ReadingsAppend(d, Expand(f, Row(i, j, k)), Quad(f, v));
  }

  /** One more run of the middle loop appends the readings of one more row. */
  lemma SlabReadingsNext(d: imap<Voxel, real>, f: Facing, i: int, j: nat, nk: nat)
    ensures Readings(d, Expand(f, Slab(i, j + 1, nk))) == Readings(d, Expand(f, Slab(i, j, nk))) + Readings(d, Expand(f, Row(i, j, nk)))
  {
    assert Slab(i, j + 1, nk) == Slab(i, j, nk) + Row(i, j, nk);
    ReadingsExpandAppend(d, f, Slab(i, j, nk), Row(i, j, nk));
  }

  /** One more run of the outer loop appends the readings of one more slab. */
  lemma BoxReadingsNext(d: imap<Voxel, real>, f: Facing, i: nat, nj: nat, nk: nat)
    ensures Readings(d, Expand(f, Box(i + 1, nj, nk))) == Readings(d, Expand(f, Box(i, nj, nk))) + Readings(d, Expand(f, Slab(i, nj, nk)))
  {
    assert Box(i + 1, nj, nk) == Box(i, nj, nk) + Slab(i, nj, nk);
    ReadingsExpandAppend(d, f, Box(i, nj, nk), Slab(i, nj, nk));
  }

  /**
   * The density buffers of the three families, one after the other, hold the
   * readings of every corner of the mesh, in the order the vertex buffer
   * lists them.
   */
  lemma MeshReadings(d: imap<Voxel, real>, dim: int)
    ensures Readings(d, Expand(FacingZ, Anchors(FacingZ, dim))) + Readings(d, Expand(FacingY, Anchors(FacingY, dim)))
              + Readings(d, Expand(FacingX, Anchors(FacingX, dim))) == Readings(d, Mesh(dim))
  {
    var z, y, x := Expand(FacingZ, Anchors(FacingZ, dim)), Expand(FacingY, Anchors(FacingY, dim)), Expand(FacingX, Anchors(FacingX, dim));
    ReadingsAppend(d, z, y);
    ReadingsAppend(d, z + y, x);
  }

  // ---------------------------------------------------------------------
  // The two buffers side by side

  /**
   * The vertex buffer holds three floats per corner, `54 dim (dim - 1)^2` in
   * all, and the density buffer one reading per corner: a third as many.
   */
  lemma BufferSizes(d: imap<Voxel, real>, dim: int)
    ensures |Coords(Mesh(dim))| == if dim > 0 then 54 * (dim * ((dim - 1) * (dim - 1))) else 0
    ensures |Coords(Mesh(dim))| == 3 * |Readings(d, Mesh(dim))|
  {
    var cs := Mesh(dim);
    MeshSize(dim);
    if cs != [] {
      CoordsAt(cs, 0);
      ReadingsAt(d, cs, 0);
    }
  }

  /**
   * The buffers line up: entry `m` of the density buffer is the reading of
   * the corner whose coordinates are floats `3m .. 3m+2` of the vertex
   * buffer, and that corner is a cell of the grid.
   */
  lemma BuffersAligned(d: imap<Voxel, real>, dim: int, m: nat)
    requires m < |Mesh(dim)|
    ensures |Coords(Mesh(dim))| == 3 * |Mesh(dim)| && |Readings(d, Mesh(dim))| == |Mesh(dim)|
    ensures var vs := Coords(Mesh(dim));
            var c := Voxel(vs[3 * m], vs[3 * m + 1], vs[3 * m + 2]);
            InGrid(c, dim) && Readings(d, Mesh(dim))[m] == Reading(d, c)
  {
    var cs := Mesh(dim);
    MeshInGrid(dim, m);
    CoordsAt(cs, m);
    ReadingsAt(d, cs, m);
    assert Voxel(cs[m].x, cs[m].y, cs[m].z) == cs[m];
  }
}
