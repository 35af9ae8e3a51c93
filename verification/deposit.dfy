/**
 * What the two deposition policies of the density map leave in one cell,
 * stated per cell as functions of the cell's value before the call.
 *
 * Sharp deposition (`addLine`) overwrites: a cell ends up holding the value
 * of the last sample whose target voxel it is.  Smoothed deposition
 * (`addLineSmoothed`) splats a ball of offsets around every sample's target
 * and only ever brightens: a cell ends up holding the maximum of its old
 * value and every intensity offered to it.
 */
module Deposit {
  import opened Voxels

  datatype Option<T> = None | Some(value: T)

  /** The larger of two values, as the brighten-only write computes it (`if (cell < n) cell = n`). */
  function Max(a: real, b: real): real {
    if a < b then b else a
  }

  // ---------------------------------------------------------------------
  // Sharp deposition

  /** The voxel each sample of `line` lands on, in sample order. */
  function Targets(line: Line, dim: int): (r: seq<Voxel>)
    ensures |r| == line.n
    ensures forall i :: 0 <= i < line.n ==> r[i] == line.Target(i, dim)
  {
    seq(line.n, i requires 0 <= i < line.n => line.Target(i, dim))
  }

  /** The last of the first `k` entries of `targets` that is voxel `c`, if any. */
  function LastHit(targets: seq<Voxel>, c: Voxel, k: nat): (r: Option<nat>)
    requires k <= |targets|
    ensures r.Some? ==> r.value < k
    decreases k
  {
    if k == 0 then None
    else if targets[k - 1] == c then Some(k - 1)
    else LastHit(targets, c, k - 1)
  }

  /**
   * LastHit finds the latest sample that targets `c`: it does target `c`,
   * no later one does, and there is none exactly when no sample targets `c`.
   */
  lemma {:induction false} LastHitIsLast(targets: seq<Voxel>, c: Voxel, k: nat)
    requires k <= |targets|
    ensures var r := LastHit(targets, c, k);
            (r.Some? ==> r.value < k && targets[r.value] == c) &&
            (r.Some? ==> forall j :: r.value < j < k ==> targets[j] != c) &&
            (r.None? <==> forall j :: 0 <= j < k ==> targets[j] != c)
  {
    if k > 0 {
      LastHitIsLast(targets, c, k - 1);
    }
  }

  /**
   * The value of cell `c` after the first `k` samples of a sharp deposit,
   * sample `i` landing on `targets[i]`: each sample overwrites its own
   * target and leaves every other cell alone.
   */
  function SharpValue(before: real, targets: seq<Voxel>, vals: seq<real>, c: Voxel, k: nat): real
    requires |targets| == |vals| && k <= |vals|
    decreases k
  {
    if k == 0 then before
    else if targets[k - 1] == c then vals[k - 1]
    else SharpValue(before, targets, vals, c, k - 1)
  }

  /**
   * The last write wins: a cell ends up holding the value of the last sample
   * that landed on it, or `before` when none did.
   */
  lemma {:induction false} SharpValueIsLastHit(before: real, targets: seq<Voxel>, vals: seq<real>, c: Voxel, k: nat)
    requires |targets| == |vals| && k <= |vals|
    ensures SharpValue(before, targets, vals, c, k) == match LastHit(targets, c, k)
                                                       case Some(i) => vals[i]
                                                       case None => before
  {
    if k > 0 && targets[k - 1] != c {
      SharpValueIsLastHit(before, targets, vals, c, k - 1);
    }
  }

  /** A cell that no sample lands on keeps its value; in particular an empty line changes nothing. */
  lemma {:induction false} SharpUntouched(before: real, targets: seq<Voxel>, vals: seq<real>, c: Voxel, k: nat)
    requires |targets| == |vals| && k <= |vals|
    requires forall i :: 0 <= i < k ==> targets[i] != c
    ensures SharpValue(before, targets, vals, c, k) == before
  {
    if k > 0 {
      SharpUntouched(before, targets, vals, c, k - 1);
    }
  }

  /**
   * A sharp deposit stores only along the line: a cell it changes is the
   * target of some sample and holds that sample's value.
   */
  lemma SharpStoresSampleValues(before: real, targets: seq<Voxel>, vals: seq<real>, c: Voxel, k: nat)
    requires |targets| == |vals| && k <= |vals|
    ensures var r := SharpValue(before, targets, vals, c, k);
            r == before || exists i :: 0 <= i < k && targets[i] == c && r == vals[i]
  {
    SharpValueIsLastHit(before, targets, vals, c, k);
    LastHitIsLast(targets, c, k);
  }

  // ---------------------------------------------------------------------
  // Smoothed deposition

  /** The squared length of an integer offset: the source's `rx*rx + ry*ry + rz*rz`. */
  function SquaredNorm(o: Voxel): int {
    o.x * o.x + o.y * o.y + o.z * o.z
  }

  /** Offset `o` lies in the cube `[-radius, radius]^3` that the three offset loops visit. */
  predicate InCube(o: Voxel, radius: int) {
    -radius <= o.x <= radius && -radius <= o.y <= radius && -radius <= o.z <= radius
  }

  /**
   * The offset loops, once they have reached offset `r`, have visited offset
   * `o`: it lies in the cube and precedes `r` in loop order.
   */
  predicate Visited(o: Voxel, radius: int, r: Voxel) {
    InCube(o, radius) && Before(o, r)
  }

  /**
   * The position of the cell at offset `o` as the source measures it: the
   * exact (untruncated) scaled sample position `s * dim`, shifted by `o`.
   */
  function Shifted(s: Vec3, dim: int, o: Voxel): Vec3 {
    Vec3(s.x * dim as real + o.x as real, s.y * dim as real + o.y as real, s.z * dim as real + o.z as real)
  }

  /** The squared distance from point `a` to voxel `t`, whose square root the source computes. */
  function SquaredDistance(a: Vec3, t: Voxel): real {
    (a.x - t.x as real) * (a.x - t.x as real)
      + (a.y - t.y as real) * (a.y - t.y as real)
      + (a.z - t.z as real) * (a.z - t.z as real)
  }

  /**
   * The intensity a sample at `s` with target voxel `t` offers cell `c`, or
   * `None` when the sample's offset loops skip `c`.  `intensity` maps a
   * squared distance to a brightness; it stands for `1.25^(-sqrt(d2))`.
   */
  function SplatAt(s: Vec3, t: Voxel, dim: int, radius: int, intensity: real -> real, c: Voxel): (r: Option<real>)
    ensures r.Some? ==> InGrid(c, dim) && InCube(Minus(c, t), radius)
    ensures r.Some? ==> SquaredNorm(Minus(c, t)) <= radius * radius
  {
    var o := Minus(c, t);
    if InCube(o, radius) && InGrid(c, dim) && SquaredNorm(o) <= radius * radius
    then Some(intensity(SquaredDistance(Shifted(s, dim, o), t)))
    else None
  }

  /** The intensity sample `i` of a smoothed deposit along `line` offers cell `c`. */
  function Splat(line: Line, dim: int, radius: int, intensity: real -> real, i: nat, c: Voxel): Option<real>
    requires i < line.n
  {
    SplatAt(line.Sample(i), line.Target(i, dim), dim, radius, intensity, c)
  }

  /** A cell at `before` after it is offered `offer`: brightened, never darkened. */
  function Brighten(before: real, offer: Option<real>): (r: real)
    ensures before <= r
    ensures offer.Some? ==> offer.value <= r && (r == before || r == offer.value)
    ensures offer.None? ==> r == before
  {
    match offer
    case None => before
    case Some(v) => Max(before, v)
  }

  /**
   * The value of cell `c` after the first `k` samples of a smoothed deposit
   * that found it at `before`: the maximum of `before` and every intensity
   * those samples offered `c`.
   */
  function Glow(before: real, line: Line, dim: int, radius: int, intensity: real -> real, c: Voxel, k: nat): real
    requires k <= line.n
    decreases k
  {
    if k == 0 then before
    else Brighten(Glow(before, line, dim, radius, intensity, c, k - 1), Splat(line, dim, radius, intensity, k - 1, c))
  }

  /**
   * Brighten-only: the result of a smoothed deposit is the maximum of the
   * cell's old value and every intensity offered to it, whatever the order.
   */
  lemma {:induction false} GlowIsMax(before: real, line: Line, dim: int, radius: int, intensity: real -> real, c: Voxel, k: nat)
    requires k <= line.n
    ensures before <= Glow(before, line, dim, radius, intensity, c, k)
    ensures forall i :: 0 <= i < k && Splat(line, dim, radius, intensity, i, c).Some? ==>
              Splat(line, dim, radius, intensity, i, c).value <= Glow(before, line, dim, radius, intensity, c, k)
    ensures var r := Glow(before, line, dim, radius, intensity, c, k);
            r == before || exists i :: 0 <= i < k && Splat(line, dim, radius, intensity, i, c) == Some(r)
  {
    if k > 0 {
      GlowIsMax(before, line, dim, radius, intensity, c, k - 1);
    }
  }

  /** A cell that no sample splats keeps its value: nothing outside the balls changes. */
  lemma {:induction false} GlowUntouched(before: real, line: Line, dim: int, radius: int, intensity: real -> real, c: Voxel, k: nat)
    requires k <= line.n
    requires forall i :: 0 <= i < k ==> Splat(line, dim, radius, intensity, i, c).None?
    ensures Glow(before, line, dim, radius, intensity, c, k) == before
  {
    if k > 0 {
      GlowUntouched(before, line, dim, radius, intensity, c, k - 1);
    }
  }

  /** With a negative radius the offset loops are empty and a smoothed deposit changes nothing. */
  lemma NegativeRadiusIsNoOp(before: real, line: Line, dim: int, radius: int, intensity: real -> real, c: Voxel)
    requires radius < 0
    ensures Glow(before, line, dim, radius, intensity, c, line.n) == before
  {
    GlowUntouched(before, line, dim, radius, intensity, c, line.n);
  }

  /** With radius zero a smoothed deposit changes at most the samples' own target voxels. */
  lemma ZeroRadiusHitsTargetsOnly(before: real, line: Line, dim: int, intensity: real -> real, c: Voxel)
    requires forall i :: 0 <= i < line.n ==> line.Target(i, dim) != c
    ensures Glow(before, line, dim, 0, intensity, c, line.n) == before
  {
    forall i | 0 <= i < line.n
      ensures Splat(line, dim, 0, intensity, i, c).None?
    {
      var o := Minus(c, line.Target(i, dim));
      assert o != Voxel(0, 0, 0);
    }
    GlowUntouched(before, line, dim, 0, intensity, c, line.n);
  }

  /** Raising the starting value of a cell raises the result by the same maximum. */
  lemma {:induction false} GlowFromMax(before: real, v: real, line: Line, dim: int, radius: int, intensity: real -> real, c: Voxel, k: nat)
    requires k <= line.n
    ensures Glow(Max(before, v), line, dim, radius, intensity, c, k)
         == Max(Glow(before, line, dim, radius, intensity, c, k), v)
  {
    if k > 0 {
      GlowFromMax(before, v, line, dim, radius, intensity, c, k - 1);
    }
  }

  /**
   * The first `k` samples of `b` and the whole of `a` can be splatted in
   * either order: induction on `k`, moving one sample of `b` past `a` at a time.
   */
  lemma {:induction false} GlowSwap(before: real, a: Line, ra: int, b: Line, rb: int, dim: int, intensity: real -> real, c: Voxel, k: nat)
    requires k <= b.n
    ensures Glow(Glow(before, a, dim, ra, intensity, c, a.n), b, dim, rb, intensity, c, k)
         == Glow(Glow(before, b, dim, rb, intensity, c, k), a, dim, ra, intensity, c, a.n)
  {
    if k > 0 {
      GlowSwap(before, a, ra, b, rb, dim, intensity, c, k - 1);
      match Splat(b, dim, rb, intensity, k - 1, c)
      case None =>
      case Some(v) =>
        GlowFromMax(Glow(before, b, dim, rb, intensity, c, k - 1), v, a, dim, ra, intensity, c, a.n);
    }
  }

  /**
   * Smoothed deposits commute: two lines splatted in either order leave every
   * cell at the same brightness (the max-intensity envelope).
   */
  lemma SmoothedDepositsCommute(before: real, a: Line, ra: int, b: Line, rb: int, dim: int, intensity: real -> real, c: Voxel)
    ensures Glow(Glow(before, a, dim, ra, intensity, c, a.n), b, dim, rb, intensity, c, b.n)
         == Glow(Glow(before, b, dim, rb, intensity, c, b.n), a, dim, ra, intensity, c, a.n)
  {
    GlowSwap(before, a, ra, b, rb, dim, intensity, c, b.n);
  }
}
