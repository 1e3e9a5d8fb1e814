# Voxel chunk mesher, modelled in Dafny

This project models the CPU side of a block-terrain renderer, the chunk
mesher in `src/world.rs`. The model covers:

- Chunk construction (`Chunk::new`, the solid/air threshold of `get_block`).
- The chunk list and neighbour scan of `spawn_chunks`.
- The whole of `create_cube_mesh`: face culling, face emission through
  `generate_cube`, the stable sort by normal with `partial_cmp`, the two
  greedy merge passes, and the index and colour buffers.
- The `RemoveMultiple` extension trait on `Vec<T>`.

Modelling choices:

- **Lattice.** Every vertex lies on a cell centre ± 0.5, so positions are
  integer triples scaled by 2 (`Lattice.V3`, `Lattice.CellCentre`). Exact
  `Vec3` equality then becomes integer equality.
- **Dimensions.** The chunk width W (the source's 32) and height H (256)
  are parameters, with W ≥ 2 and H ≥ 1. So is the render distance (25).
- **Buffers.** The mesher's `Vec` buffers are owned locals, so they are
  modelled as sequences passed in and returned.
- **Surface height.** Perlin noise and the float surface height become an
  arbitrary integer function `surface(x, z)`.
- **Colour.** The random hue of each quad becomes a function from quad
  number to hue.
- **Index arithmetic.** Rust's `i32` division truncates toward zero. It is
  modelled where it matters (`GridIndex.TruncDiv`, the −Z test).
- **Merge passes.** These are modelled statement by statement:
  - the scan keeps the corners it read before a merge;
  - indices shift after a merge;
  - `remove_multiple`/`remove`/`insert` move entries exactly as in the
    source;
  - a scan can index `sorted_normals[i]` past the end after a merge that
    shrank the buffer, which would panic in Rust. There the pass returns
    `ok = false`, and `Merge.ReachesPanic` states which replayed scan
    reached that read;
  - the merges a pass makes are recorded as rows (a quad i and the quads
    merged into it) grouped into scans, and replayed by `Merge.RowReplay`,
    `Merge.RoundReplay` and `Merge.PassReplay`. `Merge.Reaches` relates a
    pass's output to its input through such a replay.

Behaviour of the code that the model keeps as written:

- **Missing neighbour.** A face at the chunk edge whose neighbour chunk is
  not loaded is not drawn, so the edge of the world is left open.
- **Bottom layer.** −Y is never drawn at y = 0, so the underside of the
  world is left open.
- **−Z at y = 0, z = 0.** For these cells −Z is never drawn. The row test at
  `src/world.rs:247` and `:252` compares `i / W²` with `(i − W) / W²`, and
  under truncating division both are 0.
- **"down" neighbour.** It is the first chunk in list order with the same x
  and any z offset of at least W. On the generated grid this is the chunk at
  z + W.
- **Colours.** Each quad that survives merging gets one colour; faces are
  not coloured when they are emitted.
- **Second merge pass, i < j.** The normals buffer removes entries
  `[i+2, i+3, j+2, j+3]` while the position buffer removes
  `[i+2, i+3, j, j+1]`. The model keeps this. Because every quad's normals
  are uniform and the pass requires equal normals, the result is still one
  normal per quad (`Merge.SecondMergeUniform`).

## Model

| member | source | states |
|---|---|---|
| Lattice.PartialCmp | src/world.rs:577-587 | Equal exactly when the two vectors are equal; Less exactly when the first is lexicographically smaller (x, then y, then z); never None on the lattice, so the `unwrap` in the sort cannot fail |
| Lattice.PartialCmpFlip | src/world.rs:577-587 | swapping the arguments turns Less into Greater and back |
| Lattice.PartialCmpTransitive | src/world.rs:577-587 | the order is transitive, so `sort_by` sorts by a total order |
| GridIndex.TruncDiv | src/world.rs:247-252 | Rust's truncating `/`: equals Euclidean division for a non-negative dividend, and 0 for a small negative one |
| GridIndex.DecodeIndex | src/world.rs:65-67 | decoding the flat index of an in-range (x, y, z) gives (x, y, z) back |
| GridIndex.EncodeCell | src/world.rs:65-67 | every index below W·W·H decodes to an in-range triple that encodes back to it |
| Terrain.GeneratedColumn | src/world.rs:91-95 | the terrain is a height field: outside the test cube, every cell below a solid cell of the same column is solid |
| Terrain.NewChunk | src/world.rs:50-78 | the chunk has exactly W·H·W blocks, block i has id i and the type decoded from i, and the chunk keeps its id and position |
| Terrain.GeneratedCell | src/world.rs:64-75 | per coordinate: the 3×3×3 test cube is solid; any other cell is solid exactly when y is below the surface at (x + position.x, z + position.z) |
| Registry.Classify | src/world.rs:127-143 | the key the scan files another chunk under; a chunk is never filed as its own neighbour |
| Registry.FindNeighbors | src/world.rs:124-145 | a side is a key exactly when some chunk is classified under it, and then it maps to the first such chunk in list order |
| Registry.GenerateChunks | src/world.rs:111-120 | r·r chunks in x-outer, z-inner order; chunk k has id k, position (⌊k/r⌋·W, (k mod r)·W) and generated blocks |
| Registry.GridClassify | src/world.rs:130-143 | on the grid: left/right/top are the chunks one column lower in x, one higher in x, one lower in z; down is any chunk further along z in the same column |
| Registry.GridSide | src/world.rs:124-145 | on a generated grid each side is present exactly when the adjacent grid cell exists, and then maps to that cell's chunk (down to z + W) |
| FaceTables.NormalTableRows | src/world.rs:520-554 | each row of the normal table is four copies of the direction's unit axis normal |
| FaceTables.UnitNormalInjective | src/world.rs:520-554 | distinct directions have distinct normals |
| FaceTables.FaceIsUnitSquare | src/world.rs:482-516 | the four corners of every face lie on the face plane, ±0.5 from the cell centre along the normal, and consecutive corners are one unit apart on one axis |
| FaceTables.FaceWindingOutward | src/world.rs:482-516 | the corners of every face wind counter-clockwise around its outward normal |
| Culling.VisibleFacesSpec | src/world.rs:186-258 | a tag is pushed exactly when that face is visible; the tags strictly increase, so there are no duplicates and at most six |
| Culling.PlusXTest | src/world.rs:187-198 | the +X guards on i decide x < W − 1 and x = W − 1, and i + 1 and i − W + 1 are the in-chunk and mirrored neighbour cells, the latter in range |
| Culling.MinusXTest | src/world.rs:201-212 | the −X guards decide x > 0 and x = 0; i − 1 and i + W − 1 are the in-chunk and mirrored neighbours |
| Culling.PlusYTest | src/world.rs:218-221 | i + W² is in range exactly below the top layer, and is then the cell above |
| Culling.MinusYTest | src/world.rs:224-226 | i − W² is non-negative exactly above the bottom layer, and is then the cell below |
| Culling.PlusZTest | src/world.rs:232-243 | the +Z row test decides z < W − 1 and z = W − 1; i + W and i − W(W − 1) are the in-chunk and mirrored neighbours |
| Culling.MinusZTest | src/world.rs:247-258 | with truncating division the −Z row test decides z > 0, and sends only z = 0, y > 0 to the "top" lookup; i − W and i + W(W − 1) are the neighbours |
| Culling.TestPlusX | src/world.rs:187-198 | pushes +X exactly when the face is visible |
| Culling.TestMinusX | src/world.rs:201-212 | pushes −X exactly when the face is visible |
| Culling.TestPlusY | src/world.rs:218-221 | pushes +Y exactly when the face is visible |
| Culling.TestMinusY | src/world.rs:224-226 | pushes −Y exactly when the face is visible |
| Culling.TestPlusZ | src/world.rs:232-243 | pushes +Z exactly when the face is visible |
| Culling.TestMinusZ | src/world.rs:247-258 | pushes −Z exactly when the face is visible |
| Culling.CullCell | src/world.rs:186-258 | `vfaces` is the visible-face list of the cell's coordinates; no −Y at y = 0; no −Z at y = 0, z = 0 |
| Emission.GenerateCube | src/world.rs:560-574 | appends, per tag in order, the tag's four corners shifted to the cell and its four normals, leaving earlier entries unchanged |
| Emission.EmitAppend | src/world.rs:563-571 | emitting two runs of faces in turn gives the two emissions concatenated |
| Emission.EmittedQuad | src/world.rs:560-574 | quad k of the emitted buffers is face k: its table corners around the cell centre and four copies of its normal |
| Emission.EmittedFaces | src/world.rs:560-574 | positions and normals have one length, a multiple of 4; each quad of normals is four copies of one unit axis normal |
| Emission.CellFacesSpec | src/world.rs:184-265 | a face belongs to cell i's emission exactly when the cell is solid, the face is visible and the face's cell is i |
| Emission.FaceListSpec | src/world.rs:179-268 | a face is emitted for cells below n exactly when its cell index is below n, the cell is solid and the face is visible |
| Emission.AirChunkEmpty | src/world.rs:184 | an all-air chunk emits no face |
| Emission.EmitCell | src/world.rs:184-267 | one loop round appends exactly the faces of cell i (none for air) |
| Emission.EmitChunk | src/world.rs:179-268 | the buffers after the per-voxel loop are the corners and normals of the face list |
| NormalSort.Zip | src/world.rs:273 | pairs entry k of the normals with entry k of the positions, up to the shorter length |
| NormalSort.SortByNormal | src/world.rs:274 | the result is a permutation of the pairs, with normals non-decreasing under `partial_cmp` |
| NormalSort.SortStable | src/world.rs:274 | stability: for every normal, the pairs with that normal keep their relative order |
| NormalSort.SortedBlock | src/world.rs:274 | in the sorted run, the pairs of one normal form one contiguous block |
| NormalSort.SortKeepsFaces | src/world.rs:273-282 | sorting a run of faces gives a run of faces, and each quad of the result is a whole quad of the input, corners in their original order |
| NormalSort.SortFaces | src/world.rs:273-282 | the unzipped buffers zip back to the stably sorted pairs |
| NormalSort.NormalsOfZip | src/world.rs:273 | the normals of the zipped buffers are the normal buffer |
| VecOps.RemovalOrder | src/world.rs:614-615 | the trait's loops visit the given indices in strictly decreasing order |
| VecOps.RemoveMultiple | src/world.rs:613-619 | deletes exactly the given positions and keeps the rest in order |
| VecOps.TakeMultiple | src/world.rs:629-638 | as `RemoveMultiple`, and returns the removed elements in increasing index order |
| VecOps.TakeMultipleInOrder | src/world.rs:640-649 | as `RemoveMultiple`, and returns element `s[to_remove[p]]` at position p, in the order the indices were given |
| VecOps.SwapRemoveMultiple | src/world.rs:621-627 | survivors and removed elements together are the original multiset; entries below every removed index stay in place |
| VecOps.SwapTakeMultiple | src/world.rs:651-659 | as `SwapRemoveMultiple`, and returns the removed elements in decreasing index order |
| Merge.Relocate1 | src/world.rs:337-341 | the first pass's remove/insert sequence replaces quads i and j by the quad [B.c0, A.c1, A.c2, B.c3] at the lower of the two positions |
| Merge.Relocate2Vertices | src/world.rs:401-405 | the second pass's position moves give [A.c0, A.c1, B.c2, B.c3] at the lower position |
| Merge.Relocate2Normals | src/world.rs:407-411 | the second pass's normal moves, including their different index list for i < j |
| Merge.MergedQuads | src/world.rs:336-364 | a merge leaves the merged quad at the lower position, keeps every other quad in order, and shortens both buffers by exactly 4 |
| Merge.FirstMergeUniform | src/world.rs:343-347 | a first-pass merge keeps one normal per quad |
| Merge.SecondMergeUniform | src/world.rs:407-428 | a second-pass merge keeps one normal per quad, in both branches |
| Merge.MergeAt | src/world.rs:336-364 | one merge of either pass rewrites both buffers to the merged quads |
| Merge.MergeStep | src/world.rs:333-364 | a step merges exactly when quads i and j are Mergeable (both quads of the buffers, distinct, the copied corners match quad j and the current normals match), and a merge shortens both buffers by 4 |
| Merge.MergeStepCond | src/world.rs:331-333 | on the buffers a row starts from, a step merges exactly when j starts a quad other than i and the pair passes the pass's test |
| Merge.RowScan | src/world.rs:326-371 | the inner loop from position j: each merge counted removes one quad from both buffers, which stay the same length |
| Merge.RoundScan | src/world.rs:318-374 | one scan from quad position i: each merge counted removes one quad, and both buffers stay equal in length and a multiple of 4 |
| Merge.PassScan | src/world.rs:313-375 | the `while g != 0` loop: scans repeat while the last merged and none read past the end; every merge removes one quad |
| Merge.ScanPair | src/world.rs:326-370 | one step of the inner scan: it counts a merge exactly when quads i and j are Mergeable in the current buffers, and then returns exactly MergeStep's buffers; otherwise the buffers are unchanged; ok is false exactly when quad j passes the corner half of the test while quad i lies past the end of the shrunk normals (the read of `sorted_normals[i]` that panics), and then nothing is merged; the rest of the row after this step is RowScan's rest |
| Merge.ScanRow | src/world.rs:326-371 | the loop's outcome (buffers, merges, ok) equals RowScan from position 0, so every later position of the row is still tried after a merge; the output is the input after the row's merges replayed in order; the row merges nothing exactly when quad i passes no test, and then leaves the buffers unchanged; ok is false only at the read past the end |
| Merge.RowScanClean | src/world.rs:326-371 | on the buffers a row starts from, RowScan from j counts no merge exactly when quad i passes the test against no quad from j on |
| Merge.RowScanReplays | src/world.rs:326-371 | RowScan's buffers are those from merging the positions RowMerges records, in order |
| Merge.RowScanCounts | src/world.rs:326-371 | RowScan counts one merge per position RowMerges records |
| Merge.RowScanFacts | src/world.rs:326-371 | what a row's scan promises: no merge exactly when clean, then buffers unchanged; its merges replay to its output; a stop is a read past the end; normals stay one per quad |
| Merge.ScanQuad | src/world.rs:323-372 | one row of a scan: the scan's replay grows by that row, and RoundScan at quad i is that row followed by RoundScan at i + 1, or stops there at the read past the end |
| Merge.ScanRound | src/world.rs:318-374 | the loop's outcome equals RoundScan from quad 0, so every quad gets its row; the output is the input after the scan's rows of merges, replayed row by row; one full scan merges nothing exactly when no pair of distinct quads passes the test; each merge removes 4 entries; ok is false only when the last replayed row ends at the read past the end |
| Merge.RoundScanClean | src/world.rs:318-374 | on the buffers a scan starts from, RoundScan from quad i counts no merge exactly when no quad from i on passes the test against another quad |
| Merge.RoundScanFacts | src/world.rs:318-374 | what a scan promises: no merge exactly when no pair passes the test, then buffers unchanged; normals stay one per quad |
| Merge.MergePass | src/world.rs:313-375 | the `while g != 0` loop terminates and its outcome equals PassScan; the output is reached from the input by scans whose every merge passed the test; on exit no pair of distinct quads passes the pass's test; a buffer with nothing to merge comes back unchanged, so a second run is a no-op; lengths stay equal and multiples of 4; ok is false only when scans replayed from the input end at the read past the end |
| Merge.PanicNeedsMerge | src/world.rs:318-333 | a replayed pass that ends at the read past the end has merged at least once, since quad i was inside the buffers when its row started: the output is strictly shorter than the input |
| Merge.ReachesFromClean | src/world.rs:313-375 | buffers in which no pair passes the test are a fixed point: every sequence of scans that replays from them leaves them unchanged |
| Mesh.IndicesStep | src/world.rs:452 | appending quad n's six indices [4n, 4n+1, 4n+2, 4n+2, 4n+3, 4n] keeps every quad's six indices at exactly that pattern and every index below the vertex count |
| Mesh.TrianglesTileQuad | src/world.rs:452 | the pushed pattern tiles its quad: two triangles of the quad's own corners winding with its corner cycle, covering all four corners and meeting along a diagonal |
| Mesh.ColorsStep | src/world.rs:453-458 | four copies of quad n's colour extend the colour buffer by one quad |
| Mesh.Assemble | src/world.rs:451-459 | 6 indices per quad, exactly [4k, 4k+1, 4k+2, 4k+2, 4k+3, 4k] for quad k, all below the vertex count, so two triangles tiling the quad in its winding; 4 identical colours (0, 0, hue, 1) per quad |
| Mesh.Unzip | src/world.rs:279-282 | the unzip loop's buffers are the two halves of the pairs |
| Mesh.EmittedPairs | src/world.rs:273 | the zipped emission is a run of faces |
| Mesh.SortedEmission | src/world.rs:273-282 | the sorted emission is a run of faces, each quad a quad of the emission |
| Mesh.MergeBothPasses | src/world.rs:313-442 | the first pass, then the second unless the first panicked: the output is reached from the input by first-pass merges followed by second-pass merges; without a panic nothing is left for the second pass to merge; with nothing to merge in either pass the buffers come back unchanged; one normal per quad is kept; ok is false only when the first pass ends at the read past the end, or finishes with nothing left to merge and the second pass ends there |
| Mesh.CreateCubeMesh | src/world.rs:162-469 | positions, normals and colours have one length, a multiple of 4, at most the unmerged size; one normal and one colour per quad; every index in range; the indices of quad k are exactly [4k, 4k+1, 4k+2, 4k+2, 4k+3, 4k]; the positions and normals are reached from the sorted emission by the first pass's merges followed by the second pass's, each passing its test; after the second pass no pair passes its test; with nothing to merge the mesh is exactly the sorted emission; ok is false only when a replay of the passes from the sorted emission ends at the read past the end |

## Left out

- `src/main.rs` is not part of this model. It is engine bootstrap: window, camera, light.
- Perlin noise, the `f64` surface sum and its `as i32` cast are not modelled. The surface height is an arbitrary integer function of (x, z).
- The random hue is a parameter. The model does not draw random numbers.
- Bevy plumbing is not modelled. This covers commands, asset handles, `PbrBundle` spawning, `Mesh::new(...).with_inserted_attribute`, the plugin and the world transform of each chunk mesh.
- `f32` arithmetic and rounding are not modelled. Positions are exact integers on the doubled lattice.
- `Chunk::new` decodes indices with `CHUNK_WIDTH` while counting cells with its `size` argument. The model uses one width W for both, which is how `spawn_chunks` calls it.
- Integer widths are unbounded. The source's `i32` indices and `u32` index buffer cannot overflow for its constants.
- The O(n²) cost of the neighbour scan and of the merge scans is not modelled.
- Merge.MergePass: the model does not prove that the out-of-range read of `sorted_normals[i]` can never happen on real chunks. The read is reported as `ok = false`, and the contracts only say that such a read was reached after at least one merge.
- Merge.MergePass: the model does not state that merged quads are rectangles or that merging preserves covered area. What it proves about a pass is that its output is its input after a replayed sequence of single merges, each passing the test, each replacing two quads by one at the lower position and keeping all other quads in order (`Merge.MergedQuads`), and that these are exactly the merges the loops make (`Merge.PassScan`).
- Merge.MergePass: requires equal-length buffers whose length is a multiple of 4. Every caller in the mesher meets this.
- Mesh.CreateCubeMesh: when the first merge pass would panic, the model skips the second pass and reports `ok = false`.
- VecOps.RemoveMultiple, VecOps.TakeMultiple, VecOps.TakeMultipleInOrder, VecOps.SwapRemoveMultiple and VecOps.SwapTakeMultiple require distinct, in-range indices. With repeated indices the source removes a wrong element or panics. The mesher only calls `remove_multiple`, always with four distinct in-range indices.
