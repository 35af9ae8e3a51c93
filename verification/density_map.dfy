/**
 * The density map: a cube of `dim x dim x dim` density cells indexed
 * `[x][y][z]`, filled by scan lines and read back as a triangle mesh.
 *
 * The array `cells` is the state the methods change, and `Density(c)` names
 * one of its cells. The value-level specifications in `Deposit` and
 * `Readout` cannot read the heap, so they work on `Snapshot()`, the cells
 * taken as a map from voxels to densities, and `Readout.Reading` reads such
 * a map. `Mirrors(d)` states that a map `d` agrees with the cells; it lets
 * the reading loops take one snapshot as a parameter, which is cheaper for the
 * verifier than re-reading the heap at every step.
 */
module DensityMaps {
  import opened Voxels
  import opened Deposit
  import opened Lattice
  import opened Readout

  class DensityMap {
    /** Cells per axis; no operation changes it after construction. */
    const dim: int
    /** The density readings, `cells[x, y, z]`; the cube itself is never replaced, only its cells. */
    const cells: array3<real>

    /** The cube has `dim` cells along each axis (none when `dim <= 0`). */
    ghost predicate Valid()
    {
      cells.Length0 == Side(dim) && cells.Length1 == Side(dim) && cells.Length2 == Side(dim)
    }

    /** The density stored at cell `c`. */
    function Density(c: Voxel): real
      requires Valid() && InGrid(c, dim)
      reads cells
    {
      cells[c.x, c.y, c.z]
    }

    /** The cells as a value: the density of every voxel of the grid, and nothing else. */
    ghost function Snapshot(): (d: imap<Voxel, real>)
      requires Valid()
      reads cells
    {
      imap c | InGrid(c, dim) :: cells[c.x, c.y, c.z]
    }

    /** The grid is well formed and `d` gives every cell of it the density it holds. */
    ghost predicate Mirrors(d: imap<Voxel, real>)
      reads cells
    {
      Valid() && forall c {:trigger Density(c)} :: InGrid(c, dim) ==> c in d && d[c] == Density(c)
    }

    /** Proof glue: the snapshot of the cells agrees with the cells. */
    lemma SnapshotMirrors()
      requires Valid()
      ensures Mirrors(Snapshot())
    {
    }

    /** Every cell holds zero. */
    ghost predicate Zeroed()
      requires Valid()
      reads cells
    {
      forall x, y, z {:trigger cells[x, y, z]} :: 0 <= x < dim && 0 <= y < dim && 0 <= z < dim ==> cells[x, y, z] == 0.0
    }

    /** Allocates a `dim`-sided cube of zeros (an empty one when `dim <= 0`). */
    constructor (dim: int)
      ensures Valid() && fresh(cells)
      ensures this.dim == dim
      ensures Zeroed()
    {
      this.dim := dim;
      var n := Side(dim);
      cells := new real[n, n, n];
      new;
      Clear();
    }

    /** Overwrites every cell with zero; `dim` stays as it is. */
    method Clear()
      requires Valid()
      modifies cells
      ensures Valid()
      ensures Zeroed()
    {
      var i := 0;
      while i < dim
        invariant 0 <= i <= Side(dim)
        invariant forall x, y, z {:trigger cells[x, y, z]} :: 0 <= x < i && 0 <= y < dim && 0 <= z < dim ==> cells[x, y, z] == 0.0
      {
        var j := 0;
        while j < dim
          invariant 0 <= j <= dim
          invariant forall x, y, z {:trigger cells[x, y, z]} :: 0 <= x < i && 0 <= y < dim && 0 <= z < dim ==> cells[x, y, z] == 0.0
          invariant forall y, z :: 0 <= y < j && 0 <= z < dim ==> cells[i, y, z] == 0.0
        {
          var k := 0;
          while k < dim
            invariant 0 <= k <= dim
            invariant forall x, y, z {:trigger cells[x, y, z]} :: 0 <= x < i && 0 <= y < dim && 0 <= z < dim ==> cells[x, y, z] == 0.0
            invariant forall y, z :: 0 <= y < j && 0 <= z < dim ==> cells[i, y, z] == 0.0
            invariant forall z :: 0 <= z < k ==> cells[i, j, z] == 0.0
          {
            cells[i, j, k] := 0.0;
            k := k + 1;
          }
          j := j + 1;
        }
        i := i + 1;
      }
    }

    /** The voxel `pos` falls in: each coordinate scaled by `dim` and truncated toward zero. */
    method Locate(pos: Vec3) returns (ix: int, iy: int, iz: int)
      ensures Voxel(ix, iy, iz) == VoxelOf(pos, dim)
    {
      ix, iy, iz := Trunc(pos.x * dim as real), Trunc(pos.y * dim as real), Trunc(pos.z * dim as real);
    }

    /**
     * Sharp deposition: sample `i` of `vals` overwrites the cell its position
     * truncates to, the last write winning.  Every target must lie in the grid.
     */
    method AddLine(p1: Vec3, p2: Vec3, vals: seq<real>)
      requires Valid()
      requires forall i :: 0 <= i < |vals| ==> InGrid(Line(p1, p2, |vals|).Target(i, dim), dim)
      modifies cells
      ensures forall x, y, z {:trigger cells[x, y, z]} :: 0 <= x < dim && 0 <= y < dim && 0 <= z < dim ==>
                cells[x, y, z] == SharpValue(old(cells[x, y, z]), Targets(Line(p1, p2, |vals|), dim), vals, Voxel(x, y, z), |vals|)
    {
      var n := |vals|;
      var line := Line(p1, p2, n);
      ghost var targets := Targets(line, dim);
      // The source divides by `numVals` even when it is zero; the step is
      // then never used, because the loop below runs no iteration.
      var step := if n > 0 then line.Step() else Vec3(0.0, 0.0, 0.0);
      var pos := p1;
      var i := 0;
      while i < n
        invariant 0 <= i <= n
        invariant i < n ==> pos == line.Sample(i)
        invariant forall x, y, z {:trigger cells[x, y, z]} :: 0 <= x < dim && 0 <= y < dim && 0 <= z < dim ==>
                    cells[x, y, z] == SharpValue(old(cells[x, y, z]), targets, vals, Voxel(x, y, z), i)
      {
        var ix, iy, iz := Locate(pos);
        assert targets[i] == Voxel(ix, iy, iz);
        cells[ix, iy, iz] := vals[i];
        SampleNext(line, i);
        pos := Vec3(pos.x + step.x, pos.y + step.y, pos.z + step.z);
        i := i + 1;
      }
    }

    /**
     * Smoothed deposition: every sample brightens the cells of the ball of
     * `radius` around its target voxel to the intensity `intensity` gives
     * their squared distance from the sample, never darkening a cell.  Only
     * the number of `vals` matters, not their values.
     */
    method AddLineSmoothed(p1: Vec3, p2: Vec3, vals: seq<real>, radius: int, intensity: real -> real)
      requires Valid()
      modifies cells
      ensures forall x, y, z {:trigger cells[x, y, z]} :: 0 <= x < dim && 0 <= y < dim && 0 <= z < dim ==>
                cells[x, y, z] == Glow(old(cells[x, y, z]), Line(p1, p2, |vals|), dim, radius, intensity, Voxel(x, y, z), |vals|)
    {
      var n := |vals|;
      var line := Line(p1, p2, n);
      // As in AddLine, the step of an empty line is never used.
      var step := if n > 0 then line.Step() else Vec3(0.0, 0.0, 0.0);
      var pos := p1;
      var i := 0;
      while i < n
        invariant 0 <= i <= n
        invariant i < n ==> pos == line.Sample(i)
        invariant forall x, y, z {:trigger cells[x, y, z]} :: 0 <= x < dim && 0 <= y < dim && 0 <= z < dim ==>
                    cells[x, y, z] == Glow(old(cells[x, y, z]), line, dim, radius, intensity, Voxel(x, y, z), i)
      {
        var ix, iy, iz := Locate(pos);
        assert line.Target(i, dim) == Voxel(ix, iy, iz);
        SplatAround(pos, ix, iy, iz, radius, intensity);
        SampleNext(line, i);
        pos := Vec3(pos.x + step.x, pos.y + step.y, pos.z + step.z);
        i := i + 1;
      }
    }

    /**
     * The body of the sample loop of AddLineSmoothed: the offset loops over
     * `[-radius, radius]^3` around the target `(ix, iy, iz)` of the sample
     * at `pos`.  This method runs the loops over `rx` and `ry`; SplatRow runs
     * the innermost loop over `rz`.
     */
    method SplatAround(pos: Vec3, ix: int, iy: int, iz: int, radius: int, intensity: real -> real)
      requires Valid()
      modifies cells
      ensures forall x, y, z {:trigger cells[x, y, z]} :: 0 <= x < dim && 0 <= y < dim && 0 <= z < dim ==>
                cells[x, y, z] == Brighten(old(cells[x, y, z]), SplatAt(pos, Voxel(ix, iy, iz), dim, radius, intensity, Voxel(x, y, z)))
    {
      var rx := -radius;
      while rx <= radius
        invariant -radius <= rx && (rx <= radius + 1 || rx == -radius)
        invariant forall x, y, z {:trigger cells[x, y, z]} :: 0 <= x < dim && 0 <= y < dim && 0 <= z < dim ==>
                    cells[x, y, z] == if Visited(Voxel(x - ix, y - iy, z - iz), radius, Voxel(rx, -radius, -radius))
                                      then Brighten(old(cells[x, y, z]), SplatAt(pos, Voxel(ix, iy, iz), dim, radius, intensity, Voxel(x, y, z)))
                                      else old(cells[x, y, z])
      {
        var ry := -radius;
        while ry <= radius
          invariant -radius <= ry <= radius + 1
          invariant forall x, y, z {:trigger cells[x, y, z]} :: 0 <= x < dim && 0 <= y < dim && 0 <= z < dim ==>
                      cells[x, y, z] == if Visited(Voxel(x - ix, y - iy, z - iz), radius, Voxel(rx, ry, -radius))
                                        then Brighten(old(cells[x, y, z]), SplatAt(pos, Voxel(ix, iy, iz), dim, radius, intensity, Voxel(x, y, z)))
                                        else old(cells[x, y, z])
        {
          SplatRow(pos, ix, iy, iz, rx, ry, radius, intensity);
          ry := ry + 1;
        }
        rx := rx + 1;
      }
    }

    /** The innermost offset loop: offsets `(rx, ry, -radius)` .. `(rx, ry, radius)`. */
    method SplatRow(pos: Vec3, ix: int, iy: int, iz: int, rx: int, ry: int, radius: int, intensity: real -> real)
      requires Valid()
      requires -radius <= rx <= radius && -radius <= ry <= radius
      modifies cells
      ensures forall x, y, z {:trigger cells[x, y, z]} :: 0 <= x < dim && 0 <= y < dim && 0 <= z < dim ==>
                cells[x, y, z] == if x - ix == rx && y - iy == ry
                                  then Brighten(old(cells[x, y, z]), SplatAt(pos, Voxel(ix, iy, iz), dim, radius, intensity, Voxel(x, y, z)))
                                  else old(cells[x, y, z])
    {
      var rz := -radius;
      while rz <= radius
        invariant -radius <= rz <= radius + 1
        invariant forall x, y, z {:trigger cells[x, y, z]} :: 0 <= x < dim && 0 <= y < dim && 0 <= z < dim ==>
                    cells[x, y, z] == if x - ix == rx && y - iy == ry && -radius <= z - iz < rz
                                      then Brighten(old(cells[x, y, z]), SplatAt(pos, Voxel(ix, iy, iz), dim, radius, intensity, Voxel(x, y, z)))
                                      else old(cells[x, y, z])
      {
        SplatCell(pos, ix, iy, iz, rx, ry, rz, radius, intensity);
        rz := rz + 1;
      }
      forall x, y, z | 0 <= x < dim && 0 <= y < dim && 0 <= z < dim && x - ix == rx && y - iy == ry && !(-radius <= z - iz <= radius)
        ensures SplatAt(pos, Voxel(ix, iy, iz), dim, radius, intensity, Voxel(x, y, z)) == None
      {
      }
    }

    /**
     * One step of the innermost offset loop: the cell at offset `(rx, ry, rz)`
     * from the target, when it lies in the grid and in the ball of `radius`,
     * takes the larger of its density and the intensity at its distance.
     */
    method SplatCell(pos: Vec3, ix: int, iy: int, iz: int, rx: int, ry: int, rz: int, radius: int, intensity: real -> real)
      requires Valid()
      requires -radius <= rx <= radius && -radius <= ry <= radius && -radius <= rz <= radius
      modifies cells
      ensures forall x, y, z {:trigger cells[x, y, z]} :: 0 <= x < dim && 0 <= y < dim && 0 <= z < dim ==>
                cells[x, y, z] == if x == ix + rx && y == iy + ry && z == iz + rz
                                  then Brighten(old(cells[x, y, z]), SplatAt(pos, Voxel(ix, iy, iz), dim, radius, intensity, Voxel(x, y, z)))
                                  else old(cells[x, y, z])
    {
      var inside := 0 <= ix + rx < dim && 0 <= iy + ry < dim && 0 <= iz + rz < dim;
      ghost var offer := SplatAt(pos, Voxel(ix, iy, iz), dim, radius, intensity, Voxel(ix + rx, iy + ry, iz + rz));
      assert Minus(Voxel(ix + rx, iy + ry, iz + rz), Voxel(ix, iy, iz)) == Voxel(rx, ry, rz);
      if inside && SquaredNorm(Voxel(rx, ry, rz)) <= radius * radius {
        var absx := pos.x * dim as real + rx as real;
        var absy := pos.y * dim as real + ry as real;
        var absz := pos.z * dim as real + rz as real;
        // `distance` is the square root of d2; `intensity` takes it from there.
        var d2 := SquaredDistance(Vec3(absx, absy, absz), Voxel(ix, iy, iz));
        var px, py, pz := ix + rx, iy + ry, iz + rz;
        var b := intensity(d2);
        assert Shifted(pos, dim, Voxel(rx, ry, rz)) == Vec3(absx, absy, absz);
        assert offer == Some(b);
        if cells[px, py, pz] < b {
          cells[px, py, pz] := b;
        }
      } else {
        assert inside ==> offer == None;
      }
    }

    /**
     * The vertex buffer of the mesh: three coordinates per corner, for the
     * squares facing z, then y, then x.
     */
    method GetVertices() returns (vertices: seq<int>)
      ensures vertices == Coords(Mesh(dim))
    {
      var facingZ := EmitVertices(FacingZ);
      var facingY := EmitVertices(FacingY);
      var facingX := EmitVertices(FacingX);
      vertices := facingZ + facingY + facingX;
      MeshVertices(dim);
    }

    /** One triple loop of the vertex buffer: the corners of every square facing `f`. */
    method EmitVertices(f: Facing) returns (out: seq<int>)
      ensures out == Coords(Expand(f, Anchors(f, dim)))
    {
      var b := Bounds(f, dim);
      var ni, nj, nk := Count(b.x), Count(b.y), Count(b.z);
      out := [];
      var i := 0;
      while i < ni
        invariant 0 <= i <= ni
        invariant out == Coords(Expand(f, Box(i, nj, nk)))
      {
        var slab := EmitVertexSlab(f, i, nj, nk);
        BoxCoordsNext(f, i, nj, nk);
        out := out + slab;
        i := i + 1;
      }
    }

    /** The middle loop: what the squares facing `f` with first coordinate `i` emit. */
    method EmitVertexSlab(f: Facing, i: int, nj: nat, nk: nat) returns (out: seq<int>)
      ensures out == Coords(Expand(f, Slab(i, nj, nk)))
    {
      out := [];
      var j := 0;
      while j < nj
        invariant 0 <= j <= nj
        invariant out == Coords(Expand(f, Slab(i, j, nk)))
      {
        var row := EmitVertexRow(f, i, j, nk);
        SlabCoordsNext(f, i, j, nk);
        out := out + row;
        j := j + 1;
      }
    }

    /** The innermost loop: what the squares facing `f` anchored at `(i, j, 0)` .. `(i, j, nk - 1)` emit. */
    method EmitVertexRow(f: Facing, i: int, j: int, nk: nat) returns (out: seq<int>)
      ensures out == Coords(Expand(f, Row(i, j, nk)))
    {
      out := [];
      var k := 0;
      while k < nk
        invariant 0 <= k <= nk
        invariant out == Coords(Expand(f, Row(i, j, k)))
      {
        var v1 := Voxel(i, j, k);
        var v2 := Plus(v1, Across(f));
        var v3 := Plus(v1, Along(f));
        var v4 := Plus(v2, Along(f));
        QuadCoords(f, v1, v2, v3, v4);
        RowCoordsNext(f, i, j, k);
        out := out + (Triple(v1) + Triple(v2) + Triple(v4) + Triple(v1) + Triple(v3) + Triple(v4));
        k := k + 1;
      }
    }

    /**
     * The density buffer of the mesh: one cell reading per corner, in the
     * order of the vertex buffer.  Like GetVertices it changes nothing.
     */
    method GetDensities() returns (densities: seq<real>)
      requires Valid()
      ensures densities == Readings(Snapshot(), Mesh(dim))
    {
      ghost var d := Snapshot();
      SnapshotMirrors();
      var facingZ := EmitDensities(FacingZ, d);
      var facingY := EmitDensities(FacingY, d);
      var facingX := EmitDensities(FacingX, d);
      densities := facingZ + facingY + facingX;
      MeshReadings(d, dim);
    }

    /** One triple loop of the density buffer: the corners of every square facing `f`, read from `d`. */
    method EmitDensities(f: Facing, ghost d: imap<Voxel, real>) returns (out: seq<real>)
      requires Mirrors(d)
      ensures out == Readings(d, Expand(f, Anchors(f, dim)))
    {
      var b := Bounds(f, dim);
      var ni, nj, nk := Count(b.x), Count(b.y), Count(b.z);
      out := [];
      var i := 0;
      while i < ni
        invariant 0 <= i <= ni
        invariant out == Readings(d, Expand(f, Box(i, nj, nk)))
      {
        SlabVisited(f, dim, i, nj, nk);
        var slab := EmitDensitySlab(f, d, i, nj, nk);
        BoxReadingsNext(d, f, i, nj, nk);
        out := out + slab;
        i := i + 1;
      }
    }

    /** The middle loop: what the squares facing `f` with first coordinate `i` read. */
    method EmitDensitySlab(f: Facing, ghost d: imap<Voxel, real>, i: int, nj: nat, nk: nat) returns (out: seq<real>)
      requires Mirrors(d)
      requires forall j, k :: 0 <= j < nj && 0 <= k < nk ==> Voxel(i, j, k) in Visits(f, dim)
      ensures out == Readings(d, Expand(f, Slab(i, nj, nk)))
    {
      out := [];
      var j := 0;
      while j < nj
        invariant 0 <= j <= nj
        invariant out == Readings(d, Expand(f, Slab(i, j, nk)))
      {
        RowVisited(f, dim, i, j, nj, nk);
        var row := EmitDensityRow(f, d, i, j, nk);
        SlabReadingsNext(d, f, i, j, nk);
        out := out + row;
        j := j + 1;
      }
    }

    /** The innermost loop: what the squares facing `f` anchored at `(i, j, 0)` .. `(i, j, nk - 1)` read. */
    method EmitDensityRow(f: Facing, ghost d: imap<Voxel, real>, i: int, j: int, nk: nat) returns (out: seq<real>)
      requires Mirrors(d)
      requires forall k :: 0 <= k < nk ==> Voxel(i, j, k) in Visits(f, dim)
      ensures out == Readings(d, Expand(f, Row(i, j, nk)))
    {
      out := [];
      var k := 0;
      while k < nk
        invariant 0 <= k <= nk
        invariant out == Readings(d, Expand(f, Row(i, j, k)))
      {
        var square := ReadSquare(f, d, Voxel(i, j, k));
        RowReadingsNext(d, f, i, j, k);
        out := out + square;
        k := k + 1;
      }
    }

    /** The body of the innermost loop: the readings of the six corners of the square at `v1`. */
    method ReadSquare(f: Facing, ghost d: imap<Voxel, real>, v1: Voxel) returns (out: seq<real>)
      requires Mirrors(d) && v1 in Visits(f, dim)
      ensures out == Readings(d, Quad(f, v1))
    {
      var v2 := Plus(v1, Across(f));
      var v3 := Plus(v1, Along(f));
      var v4 := Plus(v2, Along(f));
      var d1, d2, d3, d4 := Density(v1), Density(v2), Density(v3), Density(v4);
      QuadReadings(d, f, v1, v2, v3, v4);
      out := [d1, d2, d4, d1, d3, d4];
    }

    /**
     * Entry `m` of the density buffer is the density of the cell at the
     * lattice corner that floats `3m .. 3m+2` of the vertex buffer name.
     */
    lemma DensityAtVertex(m: nat)
      requires Valid() && m < |Mesh(dim)|
      ensures var vs, ds := Coords(Mesh(dim)), Readings(Snapshot(), Mesh(dim));
              |vs| == 3 * |Mesh(dim)| && |ds| == |Mesh(dim)| && InGrid(Voxel(vs[3 * m], vs[3 * m + 1], vs[3 * m + 2]), dim) &&
              ds[m] == cells[vs[3 * m], vs[3 * m + 1], vs[3 * m + 2]]
    {
      BuffersAligned(Snapshot(), dim, m);
    }

    /** The side of the grid. */
    method GetDim() returns (d: int)
      ensures d == dim
    {
      d := dim;
    }
  }
}
