# DensityMap: a verified model of the ultrasound voxel grid

The ultrasound visualiser stores its readings in a `DensityMap`: a cube of
`dim x dim x dim` density cells indexed `[x][y][z]`. Scan lines are
deposited into it and it is read back as a triangle mesh. This project
models that class in Dafny and proves what its operations do:

- **Construction and reset.** The constructor allocates the cube and fills
  it with zeros. `clear` zeros every cell in place.
- **Sharp deposition (`addLine`).** It takes `n = |vals|` samples at
  `p1 + i (p2 - p1) / n`. Each sample's voxel is its position scaled by
  `dim` and truncated toward zero, and `vals[i]` overwrites that cell. The
  last write wins.
- **Smoothed deposition (`addLineSmoothed`).** For each sample it visits
  the offsets in `[-radius, radius]^3` around the target voxel. It skips
  cells outside the grid and outside the ball of `radius`. Every remaining
  cell is raised to the intensity of its distance from the sample, but
  never lowered.
- **Mesh extraction.** `getVertices` emits two triangles per unit square of
  the lattice, in three families: squares facing z, then y, then x.
  `getDensities` emits, in the same order, the density of the cell at every
  emitted corner. `getDim` returns the side.

Modules:

- `Voxels` (`voxels.dfy`): points, voxel indices, C++ float-to-int
  truncation, and the sample walk along a scan line.
- `Deposit` (`deposit.dfy`): what the two deposition policies leave in one
  cell, as functions of the cell's value before the call.
  - `SharpValue` describes sharp deposition, with `LastHit` as an
    independent reference.
  - `Glow` and `Brighten` describe smoothed deposition.
- `Lattice` (`lattice.dfy`): the anchors the triple loops visit (`Box`,
  `Slab`, `Row`), the six corners of each square (`Quad`), the whole mesh
  (`Mesh`), and the flat vertex buffer (`Coords`).
- `Readout` (`readout.dfy`): the density buffer, as the readings of the
  mesh corners from a snapshot of the cells.
- `DensityMaps` (`density_map.dfy`): the class itself. It has `dim`, and
  the cells as an `array3<real>`. Every method loop of the source is a
  `while` loop, proved against the functions above.

The model has these properties:

- **After a sharp deposit, every cell is described exactly.** Each cell
  holds the last sample value written to it. A cell no sample lands on is
  unchanged, and an empty line changes nothing.
- **Smoothed deposition only brightens.** Each cell ends at the maximum of
  its old value and every intensity offered to it. Only in-grid cells
  within the ball are offered anything. A negative radius is a no-op, and
  radius 0 touches only target voxels. Two smoothed deposits commute.
- **The mesh has the expected shape.**
  - The triple loops visit exactly the anchors of their box, each once, in
    lexicographic order.
  - The vertex buffer holds `54 dim (dim - 1)^2` floats, each in
    `[0, dim - 1]`.
  - The density buffer holds a third as many entries. Entry `m` is the
    density of the cell named by vertex floats `3m .. 3m+2`.

## Model

| member | source | states |
|---|---|---|
| `DensityMaps.DensityMap.constructor` | ultrasound/densityMap.cpp:4-19 | the grid has `dim` cells per axis (none for `dim <= 0`) and every cell is zero |
| `DensityMaps.DensityMap.Clear` | ultrasound/densityMap.cpp:21-31 | afterwards every cell is zero and the grid keeps its shape |
| `DensityMaps.DensityMap.Locate` | ultrasound/densityMap.cpp:117-119 | the indices of a position are its coordinates scaled by `dim` and truncated toward zero |
| `DensityMaps.DensityMap.AddLine` | ultrasound/densityMap.cpp:101-129 | every cell ends as `SharpValue` of its old value: the value of the last sample whose target it is, else unchanged |
| `Deposit.LastHitIsLast` | ultrasound/densityMap.cpp:115-122 | the last hit on a cell is a sample that targets it, no later sample does, and there is none exactly when no sample targets the cell |
| `Deposit.SharpValueIsLastHit` | ultrasound/densityMap.cpp:115-128 | last write wins: a cell holds `vals[i]` for its last hit `i`, or its old value when no sample hit it |
| `Deposit.SharpUntouched` | ultrasound/densityMap.cpp:111-128 | a cell that no sample lands on keeps its value, so an empty `vals` changes nothing |
| `Deposit.SharpStoresSampleValues` | ultrasound/densityMap.h:20-21 | a changed cell is the target of some sample and holds that sample's value |
| `Voxels.SampleEnds` | ultrasound/densityMap.cpp:106-113 | the walk starts at `p1`, and `n` steps would land on `p2` |
| `Voxels.SampleNext` | ultrasound/densityMap.cpp:124-127 | one `x += dx` step moves sample `i` to sample `i + 1` |
| `Voxels.SamplesStopShort` | ultrasound/densityMap.cpp:115 | no sample of a line with distinct endpoints lies on `p2` |
| `Voxels.TruncTowardZero` | ultrasound/densityMap.cpp:49-51 | the float-to-int conversion drops the fraction toward zero, for both signs |
| `DensityMaps.DensityMap.AddLineSmoothed` | ultrasound/densityMap.cpp:33-99 | every cell ends as `Glow` of its old value, the running brighten-only maximum over all samples |
| `DensityMaps.DensityMap.SplatAround` | ultrasound/densityMap.cpp:54-92 | one sample brightens each cell by the intensity it offers that cell, and changes no other cell |
| `DensityMaps.DensityMap.SplatRow` | ultrasound/densityMap.cpp:56-90 | the innermost offset loop touches only the cells at offsets `(rx, ry, _)`, each by its offer |
| `DensityMaps.DensityMap.SplatCell` | ultrasound/densityMap.cpp:57-89 | one offset step brightens only the cell at that offset, and only when it is in the grid and in the ball |
| `Deposit.SplatAt` | ultrasound/densityMap.cpp:58-84 | a sample offers intensity only to in-grid cells within `radius` of its target, in cube and in ball |
| `Deposit.Brighten` | ultrasound/densityMap.cpp:86-89 | a write never darkens; the result is the old value or the offer, and at least both |
| `Deposit.GlowIsMax` | ultrasound/densityMap.cpp:86-89 | the result is at least the old value and every offer, and equals one of them |
| `Deposit.GlowUntouched` | ultrasound/densityMap.cpp:57-68 | a cell no sample offers anything keeps its value |
| `Deposit.NegativeRadiusIsNoOp` | ultrasound/densityMap.cpp:54-56 | with `radius < 0` the offset loops are empty and nothing changes |
| `Deposit.ZeroRadiusHitsTargetsOnly` | ultrasound/densityMap.cpp:66 | with `radius == 0` only the samples' own target voxels can change |
| `Deposit.GlowFromMax` | ultrasound/densityMap.cpp:86-89 | starting from `max(before, v)` ends at `max(result, v)` |
| `Deposit.SmoothedDepositsCommute` | ultrasound/densityMap.cpp:33-99 | two smoothed deposits in either order leave every cell at the same value |
| `DensityMaps.DensityMap.GetVertices` | ultrasound/densityMap.cpp:132-193 | the result is `Coords(Mesh(dim))`: three coordinates per corner of every square, z-facing then y-facing then x-facing |
| `DensityMaps.DensityMap.EmitVertices` | ultrasound/densityMap.cpp:135-152 | one family's triple loop emits the coordinates of the corners of its anchors, in visiting order |
| `DensityMaps.DensityMap.EmitVertexSlab` | ultrasound/densityMap.cpp:136-151 | the middle loop emits the coordinates of the squares of slab `i` |
| `DensityMaps.DensityMap.EmitVertexRow` | ultrasound/densityMap.cpp:137-150 | the innermost loop emits the coordinates of the squares of row `(i, j)` |
| `Lattice.QuadCoords` | ultrasound/densityMap.cpp:138-149 | each square emits its corners in the order `v1, v2, v4, v1, v3, v4` |
| `Lattice.RowCoordsNext` | ultrasound/densityMap.cpp:137-150 | one more `k` appends one more square's coordinates |
| `Lattice.SlabCoordsNext` | ultrasound/densityMap.cpp:136-151 | one more `j` appends one more row's coordinates |
| `Lattice.BoxCoordsNext` | ultrasound/densityMap.cpp:135-152 | one more `i` appends one more slab's coordinates |
| `Lattice.MeshVertices` | ultrasound/densityMap.cpp:132-193 | the three families' buffers, one after the other, are the vertex buffer of the whole mesh |
| `Lattice.BoxFacts` | ultrasound/densityMap.cpp:135-137 | a triple loop visits exactly the anchors of its box, `ni nj nk` of them, each once, in lexicographic order |
| `Lattice.BoxMembers` | ultrasound/densityMap.cpp:135-137 | the anchors visited are exactly those in `[0, ni) x [0, nj) x [0, nk)` |
| `Lattice.AnchorsFit` | ultrasound/densityMap.cpp:135-190 | all four corners of every visited square lie in the grid |
| `Lattice.MeshInGrid` | ultrasound/densityMap.cpp:135-190 | every emitted corner is a cell of the grid |
| `Lattice.VertexInRange` | ultrasound/densityMap.cpp:138-141 | every float of the vertex buffer is an integer in `[0, dim - 1]` |
| `Lattice.MeshSize` | ultrasound/densityMap.cpp:135-190 | the mesh has `18 dim (dim - 1)^2` corners, or none for `dim <= 0` |
| `Lattice.CoordsAt` | ultrasound/densityMap.cpp:143-149 | floats `3m .. 3m+2` of the vertex buffer are the coordinates of corner `m` |
| `Lattice.ExpandAt` | ultrasound/densityMap.cpp:143-149 | corner `6q + s` of a run of squares is corner `s` of square `q` |
| `DensityMaps.DensityMap.GetDensities` | ultrasound/densityMap.cpp:196-257 | the result is the readings of the cells at the mesh corners, in mesh order; the cells are not changed |
| `DensityMaps.DensityMap.EmitDensities` | ultrasound/densityMap.cpp:199-216 | one family's triple loop reads the cells at the corners of its anchors, in visiting order |
| `DensityMaps.DensityMap.EmitDensitySlab` | ultrasound/densityMap.cpp:200-215 | the middle loop reads the corners of the squares of slab `i` |
| `DensityMaps.DensityMap.EmitDensityRow` | ultrasound/densityMap.cpp:201-214 | the innermost loop reads the corners of the squares of row `(i, j)` |
| `DensityMaps.DensityMap.ReadSquare` | ultrasound/densityMap.cpp:202-213 | the body reads the four corner cells and pushes them in the order `d1, d2, d4, d1, d3, d4` |
| `Readout.QuadReadings` | ultrasound/densityMap.cpp:207-213 | the readings of a square follow its corner order `v1, v2, v4, v1, v3, v4` |
| `Readout.ReadingsAt` | ultrasound/densityMap.cpp:207-213 | entry `m` of the density buffer is the reading of corner `m` |
| `Readout.RowReadingsNext` | ultrasound/densityMap.cpp:201-214 | one more `k` appends one more square's readings |
| `Readout.SlabReadingsNext` | ultrasound/densityMap.cpp:200-215 | one more `j` appends one more row's readings |
| `Readout.BoxReadingsNext` | ultrasound/densityMap.cpp:199-216 | one more `i` appends one more slab's readings |
| `Readout.MeshReadings` | ultrasound/densityMap.cpp:196-257 | the three families' buffers, one after the other, are the readings of the whole mesh in vertex-buffer order |
| `Readout.BufferSizes` | ultrasound/densityMap.cpp:132-257 | the vertex buffer has `54 dim (dim - 1)^2` floats, three times the density buffer's length |
| `Readout.BuffersAligned` | ultrasound/densityMap.cpp:199-254 | entry `m` of the density buffer reads the in-grid corner named by vertex floats `3m .. 3m+2` |
| `DensityMaps.DensityMap.DensityAtVertex` | ultrasound/densityMap.cpp:138-149 | entry `m` of the density buffer is `cells[vs[3m], vs[3m+1], vs[3m+2]]` |
| `DensityMaps.DensityMap.GetDim` | ultrasound/densityMap.cpp:260-262 | returns the side of the grid |

## Left out

- `ultrasound/main.cpp` is not part of this model. It covers window setup,
  input callbacks, shader loading, buffer upload, the draw loop and the
  demo fills. All of it is I/O and rendering.
- `pointLineDistance` is not modelled. Nothing calls it, and it is
  floating-point vector geometry.
- Floating point is not modelled. Positions, steps and densities are exact
  reals.
  - Sample `i` sits at the ideal `p1 + i (p2 - p1) / n`. The float drift of
    the repeated `x += dx` is not modelled.
  - Vertex coordinates are integers. They are exact as floats for any grid
    that fits in memory.
- The intensity `pow(1.25, -sqrt(d2))` is a caller-supplied function
  `intensity` of the squared distance `d2`. The proofs hold for every
  such function.
- Float-to-int conversions that overflow `int` are not modelled. `Trunc`
  is exact truncation on unbounded integers.
- `DensityMaps.DensityMap.AddLine` requires every sample's target to lie in
  the grid. The source writes `cells[ix][iy][iz]` without a bounds check,
  so a target outside the grid is undefined behaviour there, not a defined
  error to model.
- `DensityMaps.DensityMap.AddLineSmoothed` takes `vals` only for its length.
  The source never reads the values, and neither does the model.
- `DensityMaps.DensityMap.AddLineSmoothed` evaluates the radius and offset
  arithmetic on unbounded integers: `-radius`, `ix + rx` and the test
  `rx*rx + ry*ry + rz*rz > radius*radius`. The source does these in 32-bit
  `int`, which overflows for `radius == INT_MIN`, for `ix + rx` past
  `INT_MAX`, and in `radius*radius` once `|radius| > 46340`. The model
  agrees with the source only for radii and voxel indices small enough that
  none of these overflow.
- The `radius` field of the header is not modelled, because nothing reads
  it. The smoothed radius is the method's parameter.
- `dim` and `cells` are fixed after construction (`const`). They are public
  fields in the source, but no operation assigns either of them;
  `clear` zeroes the cells in place.
- The constructor builds the cube by `push_back` in triple loops. The model
  allocates the array and runs `Clear`, with the same result.
- Each triple loop is split into one method per loop level, plus the loop
  body of `getDensities` (`ReadSquare`). The loop body of
  `addLineSmoothed` is split the same way (`SplatAround`, `SplatRow`,
  `SplatCell`). Control flow and the order of writes are those of the
  source.
- The accessors' "nothing changes" is stated by the frame: `GetVertices`,
  `GetDensities` and `GetDim` have no `modifies` clause. Repeated calls
  therefore return the same buffers.
- `Readout.Reading` reads a corner outside the snapshot as zero. No mesh
  corner is outside the grid (`Lattice.MeshInGrid`), so this default is
  never used.
