# TheCar: image flip, mesh buffers, draw ranges and camera clamps

`Source.cpp` is an OpenGL demo that draws a car on four wheels and lets a
fly-through camera look at it. Most of the program is GPU plumbing, but a few
pieces of it are ordinary sequential code with properties that can be stated
exactly. This project models those pieces in Dafny and proves those properties:

- **Image flip** (`image_flip.dfy`, module `ImageFlip`). `flipImageVertically`
  puts the rows of a decoded texture in reverse order, in place, by swapping
  bytes pairwise. It is modelled as a method on an `array<byte>` and proved
  equal to a specification function, `Flipped`. Byte `b` of row `r` comes from
  byte `b` of row `height - 1 - r`. The bytes are permuted (the multiset is
  kept), an odd middle row keeps its bytes, bytes past the image never change,
  and flipping twice gives the buffer back.
- **Mesh generators** (`meshes.dfy`, module `Meshes`). These are `DrawTorus`,
  `DrawCylinder` and `DrawRectangle`. A vertex is an opaque value that records
  the integer sample it was computed from, such as ring, tube sample, sweep
  pass or plane. The vertex buffer is the sequence of eight-float groups those
  vertices flatten to. The model proves:
  - the torus vertex count, `rSeg * (cSeg + 1) * 2`;
  - the ranges of the torus sample indices;
  - that a torus with no vertices makes the upload throw;
  - for the swept solids, that each counter counts exactly its own section:
    `sideVerts = 2(n + 1)`, `topVerts = bottomVerts = n + 1`, and
    `nIndices = sideVerts + topVerts + bottomVerts`;
  - that the strip and the fans are built as a strip and fans need.

  The sweeps step a float angle until it passes a bound. Their trip count is
  the parameter `n`: 63 passes for the cylinder (step 0.1 up to 2π) and 4 for
  the rectangle (step π/2 up to 5).
- **Draw ranges** (`draw_ranges.dfy`, module `DrawRanges`). These are the
  `glDrawArrays(mode, first, count)` calls that `DrawWheel` and `DrawCar` make
  on those meshes:
  - the three calls on a swept solid partition its buffer;
  - each call draws exactly its section;
  - the halved calls on the car's sides stay inside the full ones and draw a
    prefix of each section.
- **Camera and speed** (`camera.dfy`, module `CameraModel`).
  `Camera::ProcessMouseScroll` clamps the zoom to `[1, 45]`.
  `Camera::ProcessMouseMovement` clamps the pitch to `[-89, 89]` when asked and
  never clamps the yaw. `UMouseScrollCallback` keeps the global `cameraSpeed`
  non-negative: a negative result becomes 0.1, but exactly 0 is kept, so eight
  notches down from the initial 8 stop the camera.

Floats are modelled as `real` (camera) or abstracted away (mesh geometry).
The direction vectors computed by `updateCameraVectors` are trigonometry, so
the model records only which angles they were last computed from.

## Model

| member | source | states |
|---|---|---|
| ImageFlip.RowStartIsProduct | Source.cpp:654-655 | Row `r` of `w`-byte rows starts at byte `r * w`, the product the source computes. |
| ImageFlip.RowOffset | Source.cpp:654-655 | The offset `j * width * channels` the source computes is the start of row `j` of `width * channels`-byte rows. |
| ImageFlip.Mirror | Source.cpp:652-665 | The position whose byte the flip moves to position `k`: a position inside the `height` rows maps to a position inside them, and a position past the image maps to itself. |
| ImageFlip.MirrorRow | Source.cpp:652-665 | The position that lands on byte `b` of row `r` is byte `b` of row `height - 1 - r`, and it lies inside the image. |
| ImageFlip.MirrorTwice | Source.cpp:652-665 | The row reversal of positions is an involution. |
| ImageFlip.Flipped | Source.cpp:650-666 | The flipped buffer has the same length, and every byte at or past `height * w` is the original byte. |
| ImageFlip.FlippedRow | Source.cpp:652-665 | After the flip, byte `b` of row `r` holds what byte `b` of row `height - 1 - r` held, and both indices lie in the buffer. |
| ImageFlip.FlippedTwice | Source.cpp:650-666 | Flipping twice restores the buffer. |
| ImageFlip.FlippedMiddleRow | Source.cpp:652 | With an odd height, every byte of the middle row `height / 2` is unchanged. |
| ImageFlip.MiddleIsFixed | Source.cpp:652 | Bytes between the rows exchanged by the `height / 2` passes (at most the middle row) are their own mirror. |
| ImageFlip.PassBounds | Source.cpp:654-657 | The two rows exchanged by pass `j` do not overlap and lie inside the image. |
| ImageFlip.NothingFlippedYet | Source.cpp:652 | Before the first pass the loop invariant holds with nothing flipped. |
| ImageFlip.FlipStepFront | Source.cpp:654-664 | After pass `j`, rows `0..j` hold their mirrors' original bytes. |
| ImageFlip.FlipStepBack | Source.cpp:655-664 | After pass `j`, rows `height - 1 - j..height - 1` hold their mirrors' original bytes. |
| ImageFlip.FlipStep | Source.cpp:652-665 | One pass of the outer loop extends the flipped border by one row at each end and leaves the rest in place. |
| ImageFlip.AllRowsFlipped | Source.cpp:652 | After `height / 2` passes the buffer is exactly `Flipped` of the original. |
| ImageFlip.SwapBytes | Source.cpp:659-661 | Swapping through `temp` exchanges the two bytes, changes nothing else and keeps the multiset of bytes. |
| ImageFlip.SwapRows | Source.cpp:657-664 | The inner loop exchanges the `width * channels` bytes at `index1` with those at `index2`, leaves all other bytes in place and keeps the multiset. |
| ImageFlip.FlipRowPair | Source.cpp:652-665 | One outer pass, computing both offsets and swapping the rows, keeps the loop invariant one row further on and keeps the multiset. |
| ImageFlip.FlipImageVertically | Source.cpp:650-666 | For at least two rows of a positive length, the buffer becomes `Flipped` of the old buffer (the row reversal above); otherwise no byte is read or changed and the buffer may be of any size. The multiset of bytes is kept either way. |
| Meshes.Layout | Source.cpp:1363-1370 | Each vertex is pushed as eight floats, the first of which belongs to that vertex. |
| Meshes.Flatten | Source.cpp:1379 | A buffer of `m` vertices holds `8 * m` floats, so dividing its size by 8 gives back the vertex count. |
| Meshes.VertexAt | Source.cpp:1379-1400 | Vertex `k` of a buffer of 8-float vertices starts at float `8k` (the stride), and all eight of its floats lie in the buffer. |
| Meshes.FlattenPush | Source.cpp:1363-1370 | Pushing one vertex appends its eight floats to the buffer. |
| Meshes.FlattenConcat | Source.cpp:1424-1462 | The buffer of two runs of vertices is the buffer of the first followed by the buffer of the second. |
| Meshes.VertexAtFlatten | Source.cpp:1379-1389 | Reading vertex `k` of the uploaded buffer (float `8k`) gives the `k`-th vertex pushed, and the buffer holds exactly as many vertices as were pushed. |
| Meshes.TorusSample | Source.cpp:1353-1360 | The vertex for ring `i`, tube sample `j` and offset `k`: its ring index `(i + k) % rSeg` lies in `[0, rSeg)`, its tube index `j % (cSeg + 1)` equals `j`, and its u numerator `i + k` lies in `[0, rSeg]`. |
| Meshes.TorusPair | Source.cpp:1352-1372 | The `k <= 1` loop pushes the same tube sample on ring `i` and on the next ring, ring 0 following the last, with u numerators `i` and `i + 1`. |
| Meshes.Ring | Source.cpp:1351-1372 | One ring pushes two vertices per tube sample. |
| Meshes.Rings | Source.cpp:1350-1372 | The first `i` passes of the ring loop push `i * (cSeg + 1) * 2` vertices. |
| Meshes.TorusVertices | Source.cpp:1350-1379 | The torus has `rSeg * (cSeg + 1) * 2` vertices when `rSeg > 0` and `cSeg >= 0`, and it is empty exactly when `rSeg <= 0` or `cSeg < 0`. |
| Meshes.TyreCount | Source.cpp:687-688 | The tyre and the wheel rim (30 rings, 36 tube segments) have 2220 vertices each. |
| Meshes.RingInRange | Source.cpp:1351-1360 | Every vertex of ring `i` is a torus point with indices in range and u numerator `i` or `i + 1`. |
| Meshes.RingsInRange | Source.cpp:1350-1360 | Every vertex of the torus has its ring index in `[0, rSeg)`, its tube index in `[0, cSeg]` and its u numerator in `[0, rSeg]`. |
| Meshes.SideWall | Source.cpp:1420-1429 | `m` passes of the tube loop push `2m` vertices. |
| Meshes.CapRim | Source.cpp:1438-1446 | `m` passes of a cap loop push `m` vertices. |
| Meshes.CapRimPoints | Source.cpp:1438-1460 | Point `k` of a cap rim is the point of pass `k`, in the cap's plane. |
| Meshes.SideWallAlternates | Source.cpp:1424-1425 | The wall alternates between a top point and a bottom point at the same angle. |
| Meshes.SideWallPlanes | Source.cpp:1420-1429 | The wall's even positions lie in the top plane and its odd positions in the bottom plane. |
| Meshes.SideSection | Source.cpp:1420-1434 | The side section holds `2(n + 1)` vertices and alternates between the top and the bottom plane, the closing seam pair included, as a triangle strip between the two rims needs. |
| Meshes.TopSection | Source.cpp:1437-1448 | The top cap holds `n + 1` vertices, every one in the top plane. |
| Meshes.BottomSection | Source.cpp:1450-1463 | The bottom cap holds `n + 1` vertices: `n` rim points in the bottom plane and a closing seam point in the plane `seam` it is written in. |
| Meshes.SweptSolid | Source.cpp:1413-1463 | The buffer of a swept solid holds `4(n + 1)` vertices: the side, top and bottom sections, in that order. |
| Meshes.BottomCapFlat | Source.cpp:1541-1552 | With its seam in the bottom plane (as the rectangle writes it), every point of the bottom fan lies in the bottom plane. |
| Meshes.CylinderBottomSeamOnTop | Source.cpp:1452-1463 | As the cylinder writes it, the bottom fan's last vertex is the top fan's seam vertex and lies in the top plane, while its first vertex lies in the bottom plane. |
| Meshes.Mesh.constructor | Source.cpp:568-575 | A global mesh starts with all counters zero and no uploaded data. |
| Meshes.Mesh.DrawTorus | Source.cpp:1342-1404 | The ring loop runs `rSeg` times, the tube loop `j <= cSeg` runs `cSeg + 1` times and the offset loop twice, so `nIndices` is `rSeg * (cSeg + 1) * 2` (the number of vertices pushed). The upload throws exactly when no vertex was pushed, and otherwise the buffer is the torus. No other counter changes. |
| Meshes.Mesh.Sweep | Source.cpp:1413-1469 | The shared sweep sets `sideVerts = 2(n + 1)`, `topVerts = bottomVerts = n + 1` and `nIndices = sideVerts + topVerts + bottomVerts`, and uploads the side, top and bottom sections in that order. |
| Meshes.Mesh.DrawCylinder | Source.cpp:1406-1494 | As `Sweep`, with the bottom fan closed in the top plane as written. |
| Meshes.Mesh.DrawRectangle | Source.cpp:1496-1583 | As `Sweep`, with the bottom fan closed in the bottom plane. |
| DrawRanges.WholeStrip | Source.cpp:1797 | The strip over a whole mesh (tyre at 1797, rim at 1838, body at 1986) draws exactly the vertices `[0, nIndices)`. |
| DrawRanges.SweptCalls | Source.cpp:1883-1885 | The strip and the two fans on a swept solid have counts `sideVerts`, `topVerts` and `bottomVerts`, start at 0, each start where the previous one ends, and the last ends at `sideVerts + topVerts + bottomVerts`. |
| DrawRanges.HalfSideStrip | Source.cpp:2195 | The front's and the rear's strip (2195, 2235) starts at 0 and draws half the side section, rounded down. |
| DrawRanges.HalvedSweptCalls | Source.cpp:2312-2314 | Each call on the car's sides has the mode and the start of the corresponding full call and half its count, rounded down. |
| DrawRanges.Drawn | Source.cpp:1797 | A draw call yields exactly `count` vertices. |
| DrawRanges.DrawnSlice | Source.cpp:1883-1885 | A call inside the buffer draws the slice `[first, first + count)` of the pushed vertices. |
| DrawRanges.WholeStripDrawsAll | Source.cpp:1797 | A strip from 0 over `nIndices` vertices (tyre, rim and body) draws every pushed vertex in order. |
| DrawRanges.SweptCallsPartition | Source.cpp:1883-1885 | When `nIndices = sideVerts + topVerts + bottomVerts`, the strip and the two fans stay inside the buffer, cover every vertex and never overlap. |
| DrawRanges.SweptCallsDrawSections | Source.cpp:1933-1935 | On the generated counters, the strip draws exactly the side section, the first fan the top cap and the second fan the bottom cap. |
| DrawRanges.HubBottomFanReachesTop | Source.cpp:1885 | The hub's bottom fan, drawn whole, ends on a vertex in the top plane. |
| DrawRanges.HalvedCallsWithin | Source.cpp:2312-2314 | Each halved call of the car's sides, and the half strip of the front and the rear, lies within the corresponding full call and inside the buffer. |
| DrawRanges.DrawnPrefix | Source.cpp:2312-2314 | A call starting a section and drawing no more than its length draws a prefix of it. |
| DrawRanges.HalvedCallsDraw | Source.cpp:2312-2314 | The halved calls draw the first `n + 1` side points and the first `(n + 1) / 2` points of each cap, which never reach the cap's closing seam. |
| DrawRanges.HalfSideStripDraws | Source.cpp:2195 | The front's and the rear's strip draws the first half of their side section. |
| CameraModel.Clamp | Source.cpp:535-539 | The clamped value lies in `[lo, hi]` and equals the input when the input is already in range. |
| CameraModel.ClampNearest | Source.cpp:535-539 | No point of `[lo, hi]` is closer to the input than the clamped value. |
| CameraModel.ClampMonotone | Source.cpp:535-539 | Clamping keeps order. |
| CameraModel.ClampIdempotent | Source.cpp:535-539 | Clamping an already clamped value changes nothing. |
| CameraModel.Camera.UpdateCameraVectors | Source.cpp:544-555 | The vectors are recomputed from the current angles, and nothing else changes. |
| CameraModel.Camera.constructor | Source.cpp:468-475 | A new camera has the given angles, speed 2.5, sensitivity 0.1, zoom 45, and vectors matching its angles. |
| CameraModel.Camera.ProcessMouseMovement | Source.cpp:511-530 | The yaw grows by `xoffset * sensitivity` unclamped. With `constrainPitch` the pitch ends in `[-89, 89]`, being `pitch + yoffset * sensitivity` clamped to that range; without it the pitch is not clamped. The vectors follow the new angles, and the zoom, speed and sensitivity stay. |
| CameraModel.Camera.ProcessMouseScroll | Source.cpp:533-540 | The zoom becomes `old zoom - yoffset` clamped to `[1, 45]`, and nothing else changes. |
| CameraModel.ScrollRoundTrip | Source.cpp:533-540 | Scrolling back by the same offset restores a zoom that neither scroll had to clamp. |
| CameraModel.ScrolledSpeed | Source.cpp:1091-1095 | The speed after a scroll is never negative. It is `speed + yoffset` when that is non-negative (0 included) and 0.1 when it is negative. |
| CameraModel.Controls.constructor | Source.cpp:606 | The speed starts at 8. |
| CameraModel.Controls.MouseScrollCallback | Source.cpp:1089-1097 | The callback sets the speed to `ScrolledSpeed` of the old speed, so it is never negative. |
| CameraModel.NotchesFromInitial | Source.cpp:1091-1095 | From the initial 8, each of the first eight notches down subtracts exactly 1. |
| CameraModel.ScrollingCanStopCamera | Source.cpp:1091-1095 | Eight notches down leave the speed at exactly 0, which is kept. A ninth raises it to 0.1. |
| CameraModel.ScrollUpNeverSlows | Source.cpp:1091-1095 | Scrolling up never lowers a non-negative speed. |

## Left out

- OpenGL, GLFW and GLEW calls are not modelled: VAO/VBO creation, attribute pointers, textures, shaders, window setup and the side effects of `glDrawArrays`. The mesh's `buffer` field stands for the data handed to `glBufferData`, and a draw call is a value.
- The `Shader` class, `CreateTexture`/`DestroyTexture` (file I/O via `stb_image`), `exists_test0`, `URender`, `main`'s loop and the other input callbacks are not part of this model.
- The hand-written vertex tables `Plane`, `Wing`, `DrawCube` and `DrawPyramid` are literal data and are not modelled.
- Vertex positions, normals and texture coordinates are floating-point trigonometry and are not computed. A vertex records only the integer sample it comes from, so two vertices are equal exactly when they come from the same sample.
- `DrawTorus`'s float parameters `r` and `c` (the two radii) and `zMulti` only enter the float positions and normals; they do not change the number or order of the vertices, so they are not modelled. `texture` is unused by the source.
- `GetViewMatrix`, `ProcessKeyboard`, `Position` and `WorldUp` are vector math and are not modelled.
- The `DrawWheel`/`DrawCar` model, view and projection matrices are not modelled beyond the draw ranges.
- Meshes.Mesh.DrawCylinder: the float-driven trip count of the sweeps is the parameter `n` and is not derived from the float loop `angle <= 2 * M_PI`.
- Meshes.Mesh.DrawRectangle: the float-driven trip count of the sweeps is the parameter `n` and is not derived from the float loop `angle <= numSlices + 1`.
- Meshes.Mesh.Sweep: the cylinder and the rectangle are modelled by one shared sweep. The only difference that matters to the integer structure is the plane of the bottom seam, which is its `seam` parameter.
- ImageFlip.FlipImageVertically: `int` overflow of `j * width * channels` for images of 2^31 bytes or more is not modelled. Integers are unbounded.
- Meshes.Mesh.DrawTorus: the `GLuint` counters and the `int` loop indices are unbounded, and the `std::out_of_range` that `at(0)` throws on an empty vector is the `thrown` result rather than a C++ exception.
- CameraModel.Camera.ProcessMouseMovement: float rounding of the scaled offsets and sums is not modelled. The angles are reals.
- CameraModel.Controls.MouseScrollCallback: the `double` to `float` conversion of the offset, and 0.1f not being exactly 0.1, are not modelled.
- CameraModel.Camera.UpdateCameraVectors: the Front, Right and Up vectors are represented only by the angles they were computed from.

## Findings

| source | as written | input that shows it | evidently intended | confidence | as-written member | corrected member |
|---|---|---|---|---|---|---|
| Source.cpp:1462 | The cylinder closes its bottom fan with the point `(radius, 0, height)`, the top plane's seam point. | Any cylinder, e.g. the hub `DrawCylinder(gCHub, 10, 11)`, whose bottom fan is drawn whole at Source.cpp:1885: its last vertex is `(10, 0, 11)`, so the last triangle of the bottom cap rises to the top plane. | A bottom seam at z = 0, as `DrawRectangle` writes it at Source.cpp:1551, so the whole bottom fan is flat. | medium, not executed | Meshes.CylinderBottomSeamOnTop | Meshes.BottomCapFlat |
