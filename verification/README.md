# Tank demo: mesh generators and controls

A model of the non-graphical core of `tanque3d.cpp`, a small OpenGL demo that
draws a tank built from cubes, a cylinder for the cannon and six road wheels.
The model covers:

- `createCylinder` and `createWheel`. They append vertices (six floats each:
  position, then colour) and triangle indices to two vectors. The model keeps
  the vertex payload exact where the program writes literals or halves of a
  parameter. The `radius * cos(...)` and `radius * sin(...)` coordinates stay
  symbolic.
- The cube's hard-coded vertex array and its index table in `setupBuffers`.
  `drawCube` draws the table with a fixed count of 36.
- How `setupBuffers` calls the generators, and the eleven indexed draws of one
  frame, as counts. This is the context the proofs about counts need.
- `key_callback`. It updates turret yaw (`AngTorreX`), turret pitch
  (`AngTorreY`) and the chassis position (`PosX`, `PosZ`).
- The yaw check at the start of every frame. It negates a yaw of exactly 180
  or -180.

Files:

- `mesh.dfy` (`MeshBuffers`): the buffer layout, shared by everything else.
  A vertex is six floats; a triangle is three indices. It also holds the
  round trips of both layouts and the loop count and ring successor both
  generators use.
- `cylinder.dfy` (`Cylinder`): `createCylinder`.
- `wheel.dfy` (`Wheel`): `createWheel`.
- `cuboid.dfy` (`Cuboid`): the cube's vertices, index table and draw count.
  The table is checked against an independent description of the six faces.
- `scene.dfy` (`Scene`): `setupBuffers` and the draws of one frame.
- `input.dfy` (`TankInput`): `key_callback`, the frame-start yaw check, and
  traces of key events and frame starts.

Yaw and pitch start at 0 and move by whole degrees, so they are integers here.
The chassis position moves by 0.1 per key event, so it is an integer count of
tenths. A generated index list is built from the triangles each loop
iteration pushes (`Tri` records), flattened three corners per triangle. That
is the same sequence of `push_back` calls.

## Model

| member | source | states |
|---|---|---|
| MeshBuffers.Floats | tanque3d.cpp:101-106 | one vertex is six floats, and the three colour floats are plain numbers |
| MeshBuffers.Flatten | tanque3d.cpp:95-115 | pushing `k` vertices one after another appends exactly `6k` floats |
| MeshBuffers.VertexAt | tanque3d.cpp:230-234 | a vertex read through the stride-6 layout exists only below the vertex count, and re-flattening it gives back the six floats it was read from |
| MeshBuffers.FlattenSlice | tanque3d.cpp:95-115 | vertex `k` of a pushed run occupies exactly floats `6k .. 6k+6` |
| MeshBuffers.FlattenRoundTrip | tanque3d.cpp:230-234 | reading vertex `k` back from a pushed run gives the `k`-th vertex pushed, and nothing past the end |
| MeshBuffers.SegmentsIsLoopRange | tanque3d.cpp:95 | the loop index ranges over exactly `0 <= i < numSegments`, `Segments(N)` values, none when `N <= 0` |
| MeshBuffers.Next | tanque3d.cpp:119 | the successor segment is always a valid segment of the ring |
| MeshBuffers.NextIsModulo | tanque3d.cpp:119 | the successor is exactly `(i + 1) % numSegments`, the last segment going to 0 |
| MeshBuffers.Corners | tanque3d.cpp:120-126 | pushing triangle corners appends three indices per triangle |
| MeshBuffers.CornersRoundTrip | tanque3d.cpp:120-126 | triangle `t` read back from an index list is the `t`-th triangle pushed |
| MeshBuffers.CornersMembers | tanque3d.cpp:120-126 | an index occurs in the list exactly when it is a corner of some pushed triangle |
| MeshBuffers.CornersBelow | tanque3d.cpp:120-126 | if every pushed triangle stays below `m`, so does every index |
| Cylinder.RingVertices | tanque3d.cpp:95-115 | after `k` iterations there are `2k` vertices: the bottom vertex of segment `i` at slot `2i`, the top vertex at slot `2i+1` |
| Cylinder.TrianglesUpTo | tanque3d.cpp:118-127 | `k` iterations push `2k` triangles, each corner below `2N` |
| Cylinder.SegmentTriangles | tanque3d.cpp:119-126 | one iteration pushes two triangles over ring vertices below `2N`, sharing the diagonal edge `(2next, 2i+1)` of the side quad |
| Cylinder.CreateCylinder | tanque3d.cpp:91-128 | the previous contents stay as a prefix; exactly `12N` floats and `6N` indices are appended; the appended indices depend on `N` alone, are below `2N` and fit in an `int` |
| Cylinder.TrianglesBlock | tanque3d.cpp:118-127 | triangles `2i` and `2i+1` are the two pushed by iteration `i` |
| Cylinder.SideTriangles | tanque3d.cpp:118-127 | segment `i` gives triangles `(2i, 2next, 2i+1)` and `(2i+1, 2next, 2next+1)`, with `next` equal to 0 for the last segment |
| Cylinder.LastSegmentCloses | tanque3d.cpp:119-126 | the last segment's triangles reach back to vertices 0 and 1, closing the tube |
| Cylinder.TrianglesSpanRings | tanque3d.cpp:120-126 | every side triangle has corners on both rings: two bottom and one top, or the other way round |
| Cylinder.IndicesCoverRings | tanque3d.cpp:95-127 | the index list uses exactly the vertices `0 .. 2N`: each index is one of them and each of them is used |
| Cylinder.RingSlots | tanque3d.cpp:95-115 | read back, even slot `2i` is segment `i`'s bottom vertex and odd slot `2i+1` its top vertex, with nothing past slot `2N - 1` |
| Wheel.RimVertices | tanque3d.cpp:149-168 | after `k` iterations there are `2k` rim vertices: back rim of segment `i` first, front rim second |
| Wheel.TrianglesUpTo | tanque3d.cpp:171-192 | `k` iterations push `4k` triangles, each corner below `2N + 2` |
| Wheel.SegmentTriangles | tanque3d.cpp:172-191 | one iteration pushes four triangles over vertices below `2N + 2`, the third anchored at centre 0 and the fourth at centre 1 |
| Wheel.CreateWheel | tanque3d.cpp:130-193 | the previous contents stay as a prefix; exactly `6(2 + 2N)` floats and `12N` indices are appended; the appended indices depend on `N` alone, are below `2N + 2` and fit in an `int` |
| Wheel.TrianglesBlock | tanque3d.cpp:171-192 | triangles `4i .. 4i+3` are the four pushed by iteration `i` |
| Wheel.TriangleOfSegment | tanque3d.cpp:171-192 | triangle `4i + p` of the index list is triangle `p` of segment `i` |
| Wheel.SegmentTrianglesRead | tanque3d.cpp:171-192 | segment `i` gives two side triangles, the fan `(0, 2i+2, 2next+2)`, and a fan around 1 whose rim corners are the first fan's, moved to the other face and in reverse order |
| Wheel.CentreRoles | tanque3d.cpp:174-191 | vertex 0 is a corner exactly of the fan triangles around it, vertex 1 exactly of the other fan; side triangles use neither centre |
| Wheel.FanCorners | tanque3d.cpp:183-191 | the fan around 0 uses only even rim slots of at least 2, and the fan around 1 only odd rim slots of at least 3 |
| Wheel.IndicesCoverVertices | tanque3d.cpp:134-192 | with at least one segment, the index list uses exactly the vertices `0 .. 2N + 2` |
| Wheel.VertexUsed | tanque3d.cpp:171-192 | every one of the `2N + 2` vertices is a corner of some triangle |
| Wheel.VertexSlots | tanque3d.cpp:133-168 | read back: slot 0 is the `-width/2` centre, slot 1 the `+width/2` centre, slot `2i+2` segment `i`'s back rim vertex, slot `2i+3` its front rim vertex, and nothing past slot `2N + 1` |
| Wheel.SlotFace | tanque3d.cpp:133-168 | even slots lie at depth `-width/2` and odd slots at `+width/2` |
| Wheel.FansLieOnTheirFaces | tanque3d.cpp:183-191 | every corner of the fan around 0 is a vertex on the `-width/2` face, and every corner of the fan around 1 is one on the `+width/2` face |
| Cuboid.TableTriangles | tanque3d.cpp:208-215 | the table, read three entries at a time, is twelve triangles |
| Cuboid.TableSplitsFaces | tanque3d.cpp:208-215 | triangles `2f` and `2f+1` are the two halves of face `f`, split along a diagonal |
| Cuboid.FacesLieInTheirPlanes | tanque3d.cpp:196-215 | each face has four distinct corners, all in that face's plane, listed in order around it: consecutive corners differ in one coordinate, opposite ones in two |
| Cuboid.PlanesAreTheSixFaces | tanque3d.cpp:209-214 | the six face planes are `x`, `y` or `z` at `±0.5`, and no two are the same |
| Cuboid.TrianglesAreFaceHalves | tanque3d.cpp:196-215 | each table triangle has three distinct corners, all in its face's plane |
| Cuboid.DrawCountMatchesTable | tanque3d.cpp:208-293 | the table has exactly the 36 entries `drawCube` draws: twelve whole triangles |
| Cuboid.TableCoversVertices | tanque3d.cpp:196-215 | every table entry is one of the 8 vertices, and each of the 8 is used |
| Cuboid.VerticesAreCorners | tanque3d.cpp:196-206 | the eight vertices are the eight corners of `[-0.5, 0.5]³`, each exactly once |
| Cuboid.DataIsFlat | tanque3d.cpp:196-206 | the 48-float array is the eight vertices pushed in the attribute layout |
| Cuboid.BufferSlots | tanque3d.cpp:196-234 | read back, the array holds the eight vertices in order and nothing else |
| Scene.Setup | tanque3d.cpp:195-278 | for segment counts of at least one, the cube has 48 floats and 36 indices; the default cylinder has `12N` floats and `6N` indices; the wheel has `6(2N + 2)` floats and `12N` indices |
| Scene.CubeDrawable | tanque3d.cpp:196-293 | all 36 cube indices name one of its 8 vertices |
| Scene.CylinderDrawable | tanque3d.cpp:239-240 | the generated cylinder's whole index buffer is whole triangles over existing vertices |
| Scene.WheelDrawable | tanque3d.cpp:263-264 | the generated wheel's whole index buffer is whole triangles over existing vertices |
| Scene.NarrowToInt | tanque3d.cpp:297 | the count reaching `int numIndices` lies in the 32-bit signed range and is congruent to the vector size modulo `2^32`; it equals the size exactly when the size fits in an `int` |
| Scene.FrameDraws | tanque3d.cpp:407-456 | a frame issues eleven draws: the wheel mesh exactly at positions 3 to 8, the cylinder exactly last, the cube elsewhere; cubes with the count 36, the others with their index vector's size after the conversion to `int` |
| Scene.FrameDrawsAreSound | tanque3d.cpp:407-456 | a frame has eleven draws; each reads exactly its mesh's whole index buffer if and only if that buffer's size fits in an `int`, and then only whole triangles over existing vertices |
| Scene.FrameCounts | tanque3d.cpp:407-456 | the counts are 36 per cube, `12N` per wheel and `6N` for the cannon, as they arrive after the conversion to `int` |
| Scene.DefaultFrameCounts | tanque3d.cpp:240 | with the 36 default segments `setupBuffers` uses, each of the six wheel draws reads 432 indices and the cannon draw 216 |
| Scene.OversizedWheelDrawsNothing | tanque3d.cpp:431 | a wheel whose `12N` indices lie between `2^31` and `2^32` reaches the draw with the negative count `12N - 2^32` |
| TankInput.KeyCallback | tanque3d.cpp:312-343 | a release changes nothing; each key moves only its own scalar, by at most one step; the pitch stays in `[-90, 0]` |
| TankInput.KeyMovesByItsStep | tanque3d.cpp:312-343 | a press or repeat moves the key's scalar by exactly its step. The pitch moves from inside its range exactly when the result stays in range; an unrelated key changes nothing |
| TankInput.MirroredKeysCancel | tanque3d.cpp:314-341 | A and D, Up and Down, Left and Right undo each other; so do W and S while the first move stays in range |
| TankInput.Wrap | tanque3d.cpp:386-388 | the yaw changes exactly when it is 180 or -180, and then only its sign changes |
| TankInput.WrapInvolution | tanque3d.cpp:386-388 | applying the check twice gives back the original yaw |
| TankInput.WrapKeepsOrientation | tanque3d.cpp:386-388 | the check moves the yaw by a whole turn or not at all |
| TankInput.Presses | tanque3d.cpp:313 | the number of presses and repeats of a key is at most the number of events |
| TankInput.Frames | tanque3d.cpp:385-388 | the number of frame starts is at most the number of events |
| TankInput.Apply | tanque3d.cpp:312-388 | one event moves the chassis by at most a tenth per axis and keeps the pitch range; a frame start changes only the yaw |
| TankInput.Run | tanque3d.cpp:385-388 | after any events the chassis is at most one tenth per event away from its start on each axis |
| TankInput.PitchStaysInRange | tanque3d.cpp:320-329 | a pitch in `[-90, 0]` stays there whatever key events and frames follow |
| TankInput.PitchInRangeFromStart | tanque3d.cpp:13 | from the initial state the pitch is in `[-90, 0]` after any events |
| TankInput.PositionCountsPresses | tanque3d.cpp:330-341 | `PosZ` is the Up presses minus the Down presses, and `PosX` the Left presses minus the Right presses, in tenths |
| TankInput.YawCountsPressesBetweenFrames | tanque3d.cpp:314-319 | with no frame start in between, the yaw moves by the A presses minus the D presses |
| TankInput.YawCountsPressesModuloTurns | tanque3d.cpp:314-388 | across any events, the yaw equals the A presses minus the D presses up to whole turns |
| TankInput.YawCanStepOverTheCheck | tanque3d.cpp:386-388 | two A events between frames carry the yaw from 179 to 181, past the check |
| TankInput.IdleFrames | tanque3d.cpp:385-388 | `k` idle frames are `k` events, all frame starts |
| TankInput.BoundaryYawAlternates | tanque3d.cpp:385-388 | a yaw resting at ±180 flips sign on every frame: it is back after an even number of frames and negated after an odd one |

## Left out

- OpenGL, GLEW and GLFW calls are outside the model. This covers shader
  compilation, buffer upload, vertex array setup, draw calls, window and
  context creation, and swapping and polling. The upload and the draws are
  modelled only as the buffers uploaded and the counts drawn. The stride-6
  attribute layout is modelled as the `VertexAt` read-back.
- The `cos`/`sin` positions and the π approximation are symbolic. They appear
  as `RadiusCos(radius, i, N)` and `RadiusSin(radius, i, N)` with no numeric
  value, so nothing is proved about the circle's geometry.
- glm matrix composition (translate, rotate, scale, `lookAt`, `perspective`)
  is left out. It is floating-point 4×4 algebra in a library outside this
  model.
- `cameraAngle` and its per-frame float increment are left out. They affect
  only the view matrix.
- TankInput.PositionCountsPresses: `PosX` and `PosZ` are float sums of `0.1f`
  in the program. They are counted here as exact tenths, so float rounding of
  the accumulated position is not modelled.
- TankInput.KeyCallback, TankInput.KeyMovesByItsStep,
  TankInput.MirroredKeysCancel, TankInput.YawCountsPressesBetweenFrames and
  TankInput.YawCountsPressesModuloTurns: yaw is an exact integer. Past 2^24
  degrees a 32-bit float can no longer step by 1 (at `2^24` an A press leaves
  the yaw unchanged), and that regime is not modelled. The frame check
  itself is exact in floats.
- Scene.Setup: both segment counts are at least one. With an empty vector
  `setupBuffers` takes `&v[0]` for the upload, which is undefined behaviour.
  `setupBuffers` itself always passes the default 36.
- Float literals are exact reals here. This covers colour constants such as
  `0.2f` and `0.8f`, and the default arguments of the generators
  (`width = 0.2f` gives a wheel face at exactly `-0.1` here, not at the
  nearest float). Their nearest-float values are not modelled.
- TankInput.MirroredKeysCancel: the Up/Down and Left/Right cancellations
  are facts about exact tenths. They are not true of the program's float
  `PosX`/`PosZ`: from `0.2f`, Up then Down gives `0.20000002f`. The A/D and
  W/S halves are exact in floats.
- Cylinder.CreateCylinder and Wheel.CreateWheel: segment counts above the
  bounds `MaxSegments` are excluded by `requires`. There the largest index
  expression overflows C++ `int`, which is undefined behaviour rather than a
  result: `i * 2 + 1` (and `next * 2 + 1`) in `createCylinder` past
  `2^30` segments, `i * 2 + 3` (and `next * 2 + 3`) in `createWheel` past
  `2^30 - 1`. A count of zero or less is accepted. Then `createCylinder`
  appends nothing, and `createWheel` appends only its two centre vertices
  and no indices.
- Cylinder.CreateCylinder and Wheel.CreateWheel: the generators number
  vertices from slot 0 of the vector, not from the first vertex they append.
  On non-empty vectors the appended indices therefore point at the older
  vertices. The contracts state this: the appended indices depend on `N`
  alone. The slot lemmas are stated for the appended run, which is what
  `setupBuffers` uses with empty vectors.
- The shadowed declarations at tanque3d.cpp:17-20 and 374-376 are left out.
  The locals are the ones passed to `setupBuffers`, so the shadowing has no
  effect on behaviour.
- Scene.FrameDrawsAreSound: the index count passed to `drawCylinder`
  narrows a `size_t` to `int`. The model wraps it modulo `2^32` into a
  32-bit signed `int` (`NarrowToInt`). That is what the usual compilers do;
  before C++20 the standard leaves it implementation-defined. The lemma
  promises a whole-buffer draw only while the count fits in an `int`, and
  states that it is not one otherwise.
- Scene.FrameCounts: the wheel and cannon counts are stated after the same
  narrowing, under the same 32-bit assumption. What OpenGL does with a
  negative count (it reports an error and draws nothing) is outside the
  model.
- GLFW key codes and the `scancode`/`mods` arguments are left out. The
  callback ignores the latter two, and keys are an enumeration here.
