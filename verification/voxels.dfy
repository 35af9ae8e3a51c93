/**
 * Points of the unit cube, voxel indices, and the sample walk along a scan
 * line that both deposition policies of the density map share.
 */
module Voxels {

  /** A point in normalised unit-cube space (a `glm::vec3`). */
  datatype Vec3 = Vec3(x: real, y: real, z: real)

  /** An integer triple: a voxel index, a lattice corner, or an offset between two of them. */
  datatype Voxel = Voxel(x: int, y: int, z: int)

  function Plus(a: Voxel, b: Voxel): Voxel {
    Voxel(a.x + b.x, a.y + b.y, a.z + b.z)
  }

  function Minus(a: Voxel, b: Voxel): Voxel {
    Voxel(a.x - b.x, a.y - b.y, a.z - b.z)
  }

  /** Strict lexicographic order on integer triples: the order of a triple loop over `x`, `y`, `z`. */
  predicate Before(a: Voxel, b: Voxel) {
    a.x < b.x || (a.x == b.x && (a.y < b.y || (a.y == b.y && a.z < b.z)))
  }

  /** The number of cells along one axis: a non-positive `dim` gives an empty grid. */
  function Side(dim: int): nat {
    if dim > 0 then dim else 0
  }

  /** Voxel `c` addresses a cell of a `dim`-sided grid. */
  predicate InGrid(c: Voxel, dim: int) {
    0 <= c.x < dim && 0 <= c.y < dim && 0 <= c.z < dim
  }

  /**
   * The C++ conversion of a float to `int`: truncation toward zero (for a
   * negative argument this differs from the floor).
   */
  function Trunc(r: real): int {
    if r >= 0.0 then r.Floor else -((-r).Floor)
  }

  /** Truncation drops the fractional part and moves toward zero, never away from it. */
  lemma TruncTowardZero(r: real)
    ensures 0.0 <= r ==> 0 <= Trunc(r) && Trunc(r) as real <= r < Trunc(r) as real + 1.0
    ensures r < 0.0 ==> Trunc(r) <= 0 && Trunc(r) as real - 1.0 < r <= Trunc(r) as real
  {
  }

  /** The voxel holding point `p`: each coordinate scaled by `dim` and truncated. */
  function VoxelOf(p: Vec3, dim: int): Voxel {
    Voxel(Trunc(p.x * dim as real), Trunc(p.y * dim as real), Trunc(p.z * dim as real))
  }

  /**
   * A scan line: `n` samples taken from `p1` towards `p2`.  Sample `i` sits
   * at `p1 + i * (p2 - p1) / n`, so the walk stops one step short of `p2`.
   */
  datatype Line = Line(p1: Vec3, p2: Vec3, n: nat) {

    /** The distance between consecutive samples; an empty line has none. */
    function Step(): Vec3
      requires n > 0
    {
      Vec3((p2.x - p1.x) / n as real, (p2.y - p1.y) / n as real, (p2.z - p1.z) / n as real)
    }

    /** Position of sample `i` (for `i == n`, the point the walk never reaches). */
    function Sample(i: nat): Vec3
      requires n > 0
    {
      var d := Step();
      Vec3(p1.x + i as real * d.x, p1.y + i as real * d.y, p1.z + i as real * d.z)
    }

    /** The voxel that sample `i` is deposited into on a `dim`-sided grid. */
    function Target(i: nat, dim: int): Voxel
      requires i < n
    {
      VoxelOf(Sample(i), dim)
    }
  }

  /** The walk starts at `p1`, and `n` steps would land exactly on `p2`. */
  lemma SampleEnds(line: Line)
    requires line.n > 0
    ensures line.Sample(0) == line.p1
    ensures line.Sample(line.n) == line.p2
  {
    var n := line.n as real;
    var d := line.Step();
    assert n * d.x == line.p2.x - line.p1.x;
    assert n * d.y == line.p2.y - line.p1.y;
    assert n * d.z == line.p2.z - line.p1.z;
  }

  /** Moving one step along the walk: the loop-carried `x += dx` of the source. */
  lemma SampleNext(line: Line, i: nat)
    requires line.n > 0
    ensures line.Sample(i + 1) == Vec3(line.Sample(i).x + line.Step().x,
                                       line.Sample(i).y + line.Step().y,
                                       line.Sample(i).z + line.Step().z)
  {
    var d := line.Step();
    var s, t := line.Sample(i), line.Sample(i + 1);
    assert t.x == line.p1.x + (i + 1) as real * d.x;
    assert (i + 1) as real * d.x == i as real * d.x + d.x;
    assert (i + 1) as real * d.y == i as real * d.y + d.y;
    assert (i + 1) as real * d.z == i as real * d.z + d.z;
  }

  /** No sample of a line with distinct endpoints lies on `p2`: the last sample falls short. */
  lemma SamplesStopShort(line: Line, i: nat)
    requires i < line.n
    requires line.p1 != line.p2
    ensures line.Sample(i) != line.p2
  {
    SampleEnds(line);
  }
}
