# Folding doors and floor socket — a verified model

Two browser WebGL demos, modelled in Dafny.

**The folding door.** Four wooden panels hang on a serial hinge chain.
- Panel 1 turns about a fixed wall point.
- Each later panel turns about a point one panel width plus a small gap along its predecessor.
- A pair of hinges sits between neighbouring panels, and two legs stand under every panel.
- Every rebuild clears five parallel arrays (positions, normals, colours, texture coordinates, indices) and refills the first four from the four panel angles.
- `updateBuffers` then indexes the vertex stream in groups of four, as quads.
- The buttons open (all panels to 90°), close (all to 0°) and fold (0°, 170°, −170°, 170°) the door. They do this through three flags that a per-frame animation step follows at 1.5° per frame, snapping to the target once every angle is within 0.5°.
- A small parser, `hexToRgb`, turns the lighting colour pickers' values into RGB. `isPowerOf2` tests a texture size.

**The floor socket.** A flush floor socket whose cover pops up on a hinge.
- Each rebuild clears the arrays and appends, in order: a bevelled base frame, a recess, a button with a triangular indicator, and either a flat cover (angle exactly 0) or the pop-up mechanism.
- The pop-up mechanism is a wedge, a back panel, a socket panel and two round holes. It is built in local arrays and then turned about the hinge line by `90 − coverAngle` degrees.
- A floor grid of 84 unindexed line vertices follows when the grid is shown.
- Opening and closing move the cover 2.5° per frame within [0, 85]. An auto-rotation counter advances 2° per frame modulo 360, with JavaScript's `%`.

**How the model is organised.** The imperative builders are classes whose fields are the demos' global arrays (`DoorScene.FoldingDoors`, `FloorSocket.Socket`), plus one class for the door's per-part local arrays (`DoorParts.PartMesh`).
- Each builder method is proved to append exactly what a specification function describes.
- The properties are proved about those functions.
- Each class keeps an invariant (`Valid`): the arrays show the scene for the current angles. Every command and every animation tick preserves it.
- The animation step, the hinge chain, `hexToRgb` and `isPowerOf2` are pure functions with lemmas.

**Parameters instead of code.** Cosine, sine, `normalize`, `mix`, `cross` and the matrix product of the MV.js helper library are passed in as a `MathLib` value; MV.js is not part of this model.
- Results that need the product to be the exact matrix product assume it (`MultIsProduct`).
- Results that need a rotation to be a true rotation take (cos, sin) pairs on the unit circle.

**Quirks kept as the code has them.**
- The door's cylinder caps push 3-vertex triangles into the stream that `updateBuffers` indexes as quads (`QuadIndexing.StraddlingTriangleNotIndexed`).
- The door's initial geometry has no indices until the first `updateBuffers` (the `FoldingDoors` constructor ensures `indices == []`).
- `stopAnimation` and `resetAnimation` on the door leave `isFolding` as it was.
- The socket does not clear `isOpening` when the cover is already at 85, nor `isClosing` at 0 (`SocketAnimation.FlagStaysAtLimit`).
- The flat cover is used only when the angle is exactly 0.
- The door's index loop compares `i` with `vertices.length / 4` as a number, so it covers ⌈n/4⌉ quads, not ⌊n/4⌋ (`QuadIndexing.LoopRunsQuadCountTimes`). The door always has a multiple of four vertices, where the two agree; a partial last quad would index past the end (`QuadIndexing.PartialQuadOverruns`).

## Model

| member | source | states |
|---|---|---|
| Algebra.ApplyMul | folding-doors/folding-doors.js:216-221 | applying the product `mult(a, b)` to a point applies `b` first, then `a` |
| Algebra.MulTranslateLinearPart | folding-doors/folding-doors.js:224-224 | following a transform by a translation leaves its upper-left 3×3 block unchanged |
| Algebra.ApplyUpper3OnlyLinear | folding-doors/folding-doors.js:366-372 | the normal matrix sees only the upper-left 3×3 block, so two transforms with the same block turn normals alike |
| Algebra.Clamp | floor-socket.js:723-723 | `max(lo, min(hi, v))` lies in [lo, hi]: it is `v` inside the range, `lo` below it and `hi` above it |
| DoorParts.PartMesh.AddQuad | folding-doors/folding-doors.js:419-436 | appends the four corners, four copies of the normal and the colour, and the quad's texture corners; the arrays stay parallel |
| DoorParts.PartMesh.AddTriangle | folding-doors/folding-doors.js:531-536 | appends the three corners, three copies of the normal and the colour, and the triangle's texture corners; the arrays stay parallel |
| DoorParts.PartMesh.CreateFrameCylinder | folding-doors/folding-doors.js:439-528 | appends exactly the 160 vertices of `CylinderVertices` (16 side quads, then two 16-triangle caps), their normals and one colour each |
| DoorParts.PartMesh.AddSides | folding-doors/folding-doors.js:442-472 | the side loop appends side quads 0..15 and their mid-angle normals, in order |
| DoorParts.PartMesh.AddCap | folding-doors/folding-doors.js:474-527 | a cap loop appends 16 triangles fanned from the cap centre, 48 vertices sharing one normal |
| DoorParts.PartMesh.CreateFrameRect | folding-doors/folding-doors.js:378-412 | appends the 24 corners of the six box faces in the source's order, each face with its axis normal |
| DoorParts.PartMesh.CreatePanelFill | folding-doors/folding-doors.js:414-417 | a frame box of 0.8 times the given thickness |
| DoorParts.FanStartsAtCentre | folding-doors/folding-doors.js:478-500 | every triangle of a cap starts at the cap's centre |
| DoorParts.FanIsClosedChain | folding-doors/folding-doors.js:478-500 | neighbouring cap triangles share a rim point, so a cap has no gaps, in both windings |
| DoorParts.SidesSpanLength | folding-doors/folding-doors.js:451-470 | every side quad runs the full length of the axis: its second corner is its first moved by `length` |
| DoorParts.RimPointOnCircle | folding-doors/folding-doors.js:453-466 | for a true (cos, sin) pair a rim point lies at distance `radius` from the cylinder's axis |
| DoorParts.CylinderCapsAtEnds | folding-doors/folding-doors.js:474-527 | the two caps are centred on the two ends of the axis and face opposite ways |
| DoorParts.BoxFacesOnTheirPlanes | folding-doors/folding-doors.js:389-411 | each of the 24 box corners lies on the plane of its face, half the box's extent out along the face normal |
| DoorChain.WallAnchorAt | folding-doors/folding-doors.js:216-216 | the wall anchor takes the local origin to (−2, DOOR_HEIGHT/2, 0) |
| DoorChain.FirstPanelPivotsOnWall | folding-doors/folding-doors.js:215-217 | whatever its angle, panel 1's pivot stays at the wall point |
| DoorChain.PivotOnPreviousPanel | folding-doors/folding-doors.js:220-235 | for every angle of panel k+1, its pivot is where `T_k` puts (W + GAP, 0, 0) |
| DoorChain.HingeOnRightEdge | folding-doors/folding-doors.js:224-238 | the hinge after a panel sits at that panel's right edge (W, 0, 0) |
| DoorChain.HingeNormalsFollowPanel | folding-doors/folding-doors.js:590-596 | a hinge's normals are turned exactly as its panel's: the extra translation never reaches a normal |
| DoorChain.ChainStaysConnected | folding-doors/folding-doors.js:215-238 | in the whole chain panel 1 pivots on the wall, each later panel on its predecessor, and each hinge on its panel's right edge |
| DoorChain.ChainDependsOnlyOnEarlierAngles | folding-doors/folding-doors.js:215-238 | `T_k` depends only on θ1..θk, and the hinge after panel k does not depend on θ(k+1) |
| DoorAnimation.Approach | folding-doors/folding-doors.js:1094-1102 | one step moves an angle toward its target by at most 1.5, never past it, and not at all when it is on target |
| DoorAnimation.ApproachShortens | folding-doors/folding-doors.js:1094-1102 | a step off target removes exactly one of the ticks the angle still needs |
| DoorAnimation.ApproachAllShortens | folding-doors/folding-doors.js:1094-1131 | a step of all four angles removes one tick from the slowest angle's count |
| DoorAnimation.NoStepsLeftIsTarget | folding-doors/folding-doors.js:1134-1142 | no tick is left exactly when all four angles are on target |
| DoorAnimation.TickInMode | folding-doors/folding-doors.js:1089-1254 | with one flag set, a tick runs that mode's phase only, and clears the flag when the phase arrives |
| DoorAnimation.IdleIsFixed | folding-doors/folding-doors.js:1089-1092 | with no flag set, ticks change nothing |
| DoorAnimation.ModeConverges | folding-doors/folding-doors.js:1134-1143 | from any four real angles, enough ticks in one mode end with the flag clear and the angles exactly at the mode's targets |
| DoorAnimation.OpeningEndsAtNinety | folding-doors/folding-doors.js:1092-1144 | opening ends at (90, 90, 90, 90) with every flag clear |
| DoorAnimation.ClosingEndsAtZero | folding-doors/folding-doors.js:1146-1198 | closing ends at (0, 0, 0, 0) with every flag clear |
| DoorAnimation.FoldingEndsFolded | folding-doors/folding-doors.js:1200-1254 | folding ends at (0, 170, −170, 170) with every flag clear |
| DoorAnimation.OpeningFromRestInSixtyTicks | folding-doors/folding-doors.js:1092-1144 | from rest, 60 ticks open the door exactly |
| DoorAnimation.FoldKeepsFirstPanel | folding-doors/folding-doors.js:1202-1210 | a fold begun with panel 1 at 0 keeps it at 0 on every tick |
| DoorAnimation.MotionRequestsRebuild | folding-doors/folding-doors.js:1089-1256 | a tick that moves any angle always asks for a rebuild |
| DoorAnimation.PhaseMovesOnlyWhenChanged | folding-doors/folding-doors.js:1092-1144 | a phase that reports no change leaves the angles where they were |
| QuadIndexing.QuadIndices | folding-doors/folding-doors.js:777-783 | the loop pushes six indices per quad |
| QuadIndexing.LoopTestIsIntegral | folding-doors/folding-doors.js:778-779 | the test `i < vertices.length / 4` on numbers is the integer test 4i < n |
| QuadIndexing.LoopRunsQuadCountTimes | folding-doors/folding-doors.js:778-779 | the loop runs for exactly the quads 0 .. ⌈n/4⌉ − 1 |
| QuadIndexing.QuadIndicesAt | folding-doors/folding-doors.js:780-782 | quad i contributes (b, b+1, b+2, b, b+2, b+3) with b = 4i, at positions 6i .. 6i+5 |
| QuadIndexing.QuadIndicesInRange | folding-doors/folding-doors.js:779-783 | every index of q quads is below 4q |
| QuadIndexing.QuadIndicesCoverVertices | folding-doors/folding-doors.js:779-783 | every vertex of the q quads is named by some index |
| QuadIndexing.TrianglesStayInTheirQuad | folding-doors/folding-doors.js:780-782 | index triangle t uses only the vertices of quad t/2, in the two windings of a quad |
| QuadIndexing.SceneIndicesFitUint16 | folding-doors/folding-doors.js:798-798 | for a multiple of four up to 65536 vertices, every index names an existing vertex and fits a Uint16Array element |
| QuadIndexing.PartialQuadOverruns | folding-doors/folding-doors.js:778-783 | when the count is not a multiple of four, the last indices name vertices past the end |
| QuadIndexing.StraddlingTriangleNotIndexed | folding-doors/folding-doors.js:531-536 | a cap triangle pushed at a position 2 mod 4 straddles two quads and is never drawn as such |
| DoorScene.TransformPointsMul | folding-doors/folding-doors.js:360-362 | placing points with a product places them with each factor in turn |
| DoorScene.SceneStartsWithFirstPanel | folding-doors/folding-doors.js:241-241 | the scene's first 1424 vertices are panel 1 placed by `T_1` |
| DoorScene.FirstPanelFollowsOnlyItsAngle | folding-doors/folding-doors.js:215-217 | panel 1's vertices depend only on `panel1Angle` |
| DoorScene.FoldKeepsFirstPanelInPlace | folding-doors/folding-doors.js:1200-1254 | throughout a fold begun with panel 1 at 0, panel 1's vertices never move |
| DoorScene.HingesRideOnTheirPanel | folding-doors/folding-doors.js:584-599 | a hinge's vertices are its panel's transform applied after the shift to the right edge, and its normals are turned as the panel's |
| DoorScene.LegsHangBelowTheDoor | folding-doors/folding-doors.js:634-658 | leg side vertices stay at or below the door's bottom, and the foot cap lies `LEG_HEIGHT` below it |
| DoorScene.LegCapsAreFans | folding-doors/folding-doors.js:646-661 | every quad of a leg's foot cap starts and ends at the foot centre |
| DoorScene.HingeWithinItsBand | folding-doors/folding-doors.js:572-575 | every hinge side vertex lies on the bottom or the top edge of the hinge's band |
| DoorScene.HingesInsideTheDoor | folding-doors/folding-doors.js:543-547 | both hinge bands at 2/5 and 4/5 of the height lie inside the door and do not overlap |
| DoorScene.SceneIndicesValid | folding-doors/folding-doors.js:777-798 | the full scene's 7008 vertices give 1752 quads, every index below 7008 and within Uint16 range |
| DoorScene.WithAngle | folding-doors/folding-doors.js:853-887 | a panel slider changes its own panel's angle and no other |
| DoorScene.FoldingDoors.constructor | folding-doors/folding-doors.js:83-99 | starts at rest with the geometry built for angles 0 and no indices, camera at pitch 20, yaw 45, distance 8 |
| DoorScene.FoldingDoors.AppendTransformed | folding-doors/folding-doors.js:360-375 | appends the part's positions placed by `m`, its normals turned by the upper 3×3 block and normalised, and its colours and texture coordinates as they are |
| DoorScene.FoldingDoors.CreateDoorPanel | folding-doors/folding-doors.js:260-376 | appends panel `PanelBlock` (8 cylinders, 6 boxes, 1424 vertices) placed by `m`, with its normals and colours |
| DoorScene.FoldingDoors.CreateHinge | folding-doors/folding-doors.js:551-600 | appends one 12-segment hinge (48 vertices) placed by `m` |
| DoorScene.FoldingDoors.CreateHinges | folding-doors/folding-doors.js:539-549 | appends the two hinges at 2/5 and 4/5 of the door's height |
| DoorScene.FoldingDoors.CreateLeg | folding-doors/folding-doors.js:612-681 | appends one leg (16 side quads and 16 cap quads, 128 vertices) placed by `m` |
| DoorScene.FoldingDoors.CreateLegs | folding-doors/folding-doors.js:603-609 | appends the legs at x = 0.1 and x = W − 0.1 |
| DoorScene.FoldingDoors.CreateFoldingDoors | folding-doors/folding-doors.js:200-258 | empties the arrays and refills them with exactly the scene for the current angles: 7008 vertices, parallel arrays, no indices |
| DoorScene.FoldingDoors.CreateParts | folding-doors/folding-doors.js:240-257 | appends the 15 parts in the source's order |
| DoorScene.FoldingDoors.CreatePanels | folding-doors/folding-doors.js:241-244 | appends the four panels, each with its own transform |
| DoorScene.FoldingDoors.CreateHingeSets | folding-doors/folding-doors.js:247-250 | appends the three hinge pairs, each with its hinge transform |
| DoorScene.FoldingDoors.CreateLegSets | folding-doors/folding-doors.js:253-257 | appends the four leg pairs, each with its panel's transform |
| DoorScene.FoldingDoors.AddPanel | folding-doors/folding-doors.js:241-244 | appending panel i extends the scene prefix by part i |
| DoorScene.FoldingDoors.AddHingePair | folding-doors/folding-doors.js:247-250 | appending a hinge pair extends the scene prefix by that part |
| DoorScene.FoldingDoors.AddLegPair | folding-doors/folding-doors.js:253-257 | appending a leg pair extends the scene prefix by that part |
| DoorScene.FoldingDoors.UpdateBuffers | folding-doors/folding-doors.js:773-783 | rebuilds the geometry and the full quad index list; the invariant holds |
| DoorScene.FoldingDoors.IndexQuads | folding-doors/folding-doors.js:777-783 | the index loop produces exactly the quad indices for the current vertex count |
| DoorScene.FoldingDoors.UpdateAnimation | folding-doors/folding-doors.js:1089-1281 | the state becomes one tick of the animation function; a rebuild happens exactly when the tick asks for one, otherwise the buffers are untouched; the invariant holds |
| DoorScene.FoldingDoors.AdvanceAngles | folding-doors/folding-doors.js:1089-1254 | the three phases move the angles and flags as one tick does, and report whether to rebuild |
| DoorScene.FoldingDoors.RunMode | folding-doors/folding-doors.js:1092-1144 | a phase is skipped when its flag is clear, and otherwise is the phase function |
| DoorScene.FoldingDoors.RunPhase | folding-doors/folding-doors.js:1092-1144 | steps the four angles and applies the arrival snap, as the phase function |
| DoorScene.FoldingDoors.OpenDoors | folding-doors/folding-doors.js:942-953 | exactly `isOpening` is set; the angles stay |
| DoorScene.FoldingDoors.CloseDoors | folding-doors/folding-doors.js:955-966 | exactly `isClosing` is set; the angles stay |
| DoorScene.FoldingDoors.FoldDoors | folding-doors/folding-doors.js:968-979 | exactly `isFolding` is set; the angles stay |
| DoorScene.FoldingDoors.StopAnimation | folding-doors/folding-doors.js:1018-1020 | clears `isOpening` and `isClosing` only, `isFolding` kept |
| DoorScene.FoldingDoors.ResetAnimation | folding-doors/folding-doors.js:981-1016 | all angles to 0, `isOpening` and `isClosing` cleared, `isFolding` kept, geometry and indices rebuilt |
| DoorScene.FoldingDoors.ResetState | folding-doors/folding-doors.js:981-987 | the state half of `resetAnimation` |
| DoorScene.FoldingDoors.SetPanelAngle | folding-doors/folding-doors.js:853-857 | the slider sets one panel's angle, leaves the others, and rebuilds |
| DoorScene.FoldingDoors.SetAngle | folding-doors/folding-doors.js:854-854 | sets panel k's angle and no other |
| DoorScene.FoldingDoors.MouseDown | folding-doors/folding-doors.js:807-811 | starts a drag at (x, y) |
| DoorScene.FoldingDoors.MouseUp | folding-doors/folding-doors.js:813-815 | ends the drag |
| DoorScene.FoldingDoors.MouseMove | folding-doors/folding-doors.js:817-832 | without a drag nothing changes; during one, yaw follows x at 0.5 per pixel and pitch follows y, kept in [−89, 89] |
| DoorScene.FoldingDoors.Wheel | folding-doors/folding-doors.js:834-841 | the distance moves 0.01 per scroll unit, kept in [3, 15] |
| DoorScene.FoldingDoors.SetZoom | folding-doors/folding-doors.js:893-896 | the zoom slider sets the distance |
| DoorScene.FoldingDoors.ResetView | folding-doors/folding-doors.js:1082-1087 | camera back to pitch 20, yaw 45, distance 8 |
| DoorScene.BuildPanel | folding-doors/folding-doors.js:260-358 | a panel's local arrays: the eight frame cylinders, then the six fills, in the source's order |
| DoorScene.AddOuterBars | folding-doors/folding-doors.js:286-300 | the two bottom and two top bars |
| DoorScene.AddSidesAndMiddleBars | folding-doors/folding-doors.js:302-316 | the two side posts and the two middle bars |
| DoorScene.AddTopFills | folding-doors/folding-doors.js:327-341 | the cream, dark brown and cream fills above the middle bars |
| DoorScene.AddBottomFills | folding-doors/folding-doors.js:343-357 | the three fills below the middle bars |
| DoorScene.BuildLeg | folding-doors/folding-doors.js:612-662 | a leg's local arrays: 16 side quads, then 16 foot-cap quads |
| DoorScene.AddLegSides | folding-doors/folding-doors.js:623-643 | the leg's side loop |
| DoorScene.AddLegCap | folding-doors/folding-doors.js:645-662 | the leg's foot-cap loop, each quad's normal pointing down |
| HexColor.DigitValue | folding-doors/folding-doors.js:935-937 | a hex digit's value is below 16 |
| HexColor.ByteValue | folding-doors/folding-doors.js:935-937 | two hex digits give a byte |
| HexColor.MatchDigits | folding-doors/folding-doors.js:933-933 | the pattern matches exactly an optional '#' followed by six hex digits, either case |
| HexColor.ParseHex | folding-doors/folding-doors.js:933-937 | a colour is read exactly when the pattern matches, and its channels are bytes |
| HexColor.HexToRgb | folding-doors/folding-doors.js:932-939 | a match gives each channel's byte over 255, every other string white; channels lie in [0, 1] |
| HexColor.LowerChar | folding-doors/folding-doors.js:933-933 | lower-casing keeps hex digits hex digits, with the same value |
| HexColor.Lower | folding-doors/folding-doors.js:933-933 | lower-casing works character by character |
| HexColor.DigitRoundTrip | folding-doors/folding-doors.js:935-937 | reading a written digit gives the digit back, in either case |
| HexColor.ByteRoundTrip | folding-doors/folding-doors.js:935-937 | reading a written byte gives the byte back |
| HexColor.ParseEncode | folding-doors/folding-doors.js:933-937 | every colour written as six hex digits, with or without '#', any case, reads back as itself |
| HexColor.ParseOnlyEncodings | folding-doors/folding-doors.js:933-933 | every string that reads as a colour is that colour's encoding, up to case |
| HexColor.ParseIgnoresCase | folding-doors/folding-doors.js:933-933 | the `i` flag: lower-casing the input does not change the result |
| HexColor.ShortFormIsWhite | folding-doors/folding-doors.js:938-938 | the three-digit form and the empty string fall back to white |
| HexColor.OrangeExample | folding-doors/folding-doors.js:932-939 | "#FF8800" reads as (1, 136/255, 0) |
| HexColor.Bits32 | folding-doors/folding-doors.js:197-197 | the operands of `&` are seen as 32-bit patterns |
| HexColor.BitAnd | folding-doors/folding-doors.js:197-197 | a bitwise and is no larger than either operand |
| HexColor.BitAndPredecessor | folding-doors/folding-doors.js:197-197 | for positive n, n & (n − 1) is 0 exactly when n is a power of two |
| HexColor.IsPowerOf2Correct | folding-doors/folding-doors.js:196-198 | on 32-bit values the test accepts exactly 0 and the powers of two |
| HexColor.PowersOfTwoPass | folding-doors/folding-doors.js:196-198 | every power of two below 2^32 passes |
| HexColor.WrapAround | folding-doors/folding-doors.js:197-197 | only the low 32 bits count: 2^32 + 6 is judged as 6 |
| SocketGeometry.Shift | floor-socket.js:244-246 | a builder's local indices are offset by the start vertex |
| SocketGeometry.AppendBlockWellFormed | floor-socket.js:557-575 | a block whose local indices are in range keeps every index of the mesh on an existing vertex, and its own in the new block |
| SocketGeometry.AppendUnindexed | floor-socket.js:532-533 | vertices pushed without indices leave the indices as they were |
| SocketGeometry.AppendBoxShape | floor-socket.js:540-576 | `addBox` appends 8 vertices, 8 colours and 36 indices, all in [start, start + 8), earlier ones kept |
| SocketGeometry.AppendBaseFrameShape | floor-socket.js:188-247 | `addBaseFrame` appends 8 vertices, 8 colours and 36 indices, all in [start, start + 8) |
| SocketGeometry.BackSideColoured | floor-socket.js:217-225 | exactly vertices 2, 3, 6 and 7 of the base frame get the back colour |
| SocketGeometry.AppendTriangleShape | floor-socket.js:484-498 | `addTriangle` appends 3 vertices and the indices (start, start + 1, start + 2) |
| SocketGeometry.Lighten | floor-socket.js:288-293 | the back panel's colour is the body colour plus 0.3 per channel, capped at 1, opaque |
| SocketGeometry.FanInRange | floor-socket.js:434-436 | a hole's fan indices lie within its centre and rim vertices |
| SocketGeometry.FanTriangle | floor-socket.js:434-436 | fan triangle t is (centre, c + 1 + t, c + 2 + t) |
| SocketGeometry.PopUpLocalShape | floor-socket.js:254-442 | the local pop-up has 52 vertices (6 + 8 + 4 + 17 + 17) and 156 indices (24 + 36 + 6 + 45 + 45), all in range, the two hole fans at vertices 18 and 35 |
| SocketGeometry.PivotKeepsXAndW | floor-socket.js:446-463 | the hinge rotation keeps x (up to the offset) and w |
| SocketGeometry.PivotFixesHingeLine | floor-socket.js:446-463 | points on the hinge line (y = 0, z = hingeZ) do not move, up to the offset |
| SocketGeometry.PivotKeepsDistanceToHinge | floor-socket.js:446-463 | for a true rotation, every point keeps its distance from the hinge line |
| SocketGeometry.WedgeBackEdgeStays | floor-socket.js:268-272 | with hingeZ = d2 the wedge's back bottom corners 2 and 3 land at (±w/2 + x, y, d2 + z) for every angle |
| SocketGeometry.AppendPopUpShape | floor-socket.js:254-474 | `addPopUpMechanism` appends 52 vertices and 156 indices, all in [start, start + 52) |
| SocketGeometry.RunShape | floor-socket.js:160-181 | every builder keeps the mesh well formed, keeps what was there and adds its fixed counts |
| SocketGeometry.RunAllShape | floor-socket.js:136-181 | a sequence of builders from empty arrays gives a well-formed mesh with the summed counts |
| SocketGeometry.SocketMeshShape | floor-socket.js:136-181 | the socket has 35 vertices and 147 indices with the flat cover, 79 and 267 with the pop-up, every index on a vertex |
| SocketGeometry.GridAfterIndexedGeometry | floor-socket.js:939-959 | with the grid shown no index reaches a grid vertex, and the grid starts at `vertices.length − 84`, where `render` draws it |
| SocketAnimation.CoverTick | floor-socket.js:856-878 | a tick without rebuild changes nothing; the angle moves at most 2.5; flags are only ever cleared |
| SocketAnimation.TickStaysReachable | floor-socket.js:856-878 | a tick keeps the angle in [0, 85] and never sets both flags |
| SocketAnimation.OpeningTick | floor-socket.js:860-868 | an opening tick below 85 adds 2.5, or stops at 85 and clears `isOpening`, and asks for a rebuild |
| SocketAnimation.ClosingTick | floor-socket.js:870-878 | a closing tick above 0 subtracts 2.5, or stops at 0 and clears `isClosing`, and asks for a rebuild |
| SocketAnimation.FlagStaysAtLimit | floor-socket.js:860-870 | opening at 85 or closing at 0 does nothing, and leaves the flag set |
| SocketAnimation.IdleStays | floor-socket.js:856-878 | with no flag set the cover stays put |
| SocketAnimation.OpeningReachesMax | floor-socket.js:860-868 | opening ends at exactly 85 once 2.5 times the ticks covers the distance |
| SocketAnimation.ClosingReachesZero | floor-socket.js:870-878 | closing ends at exactly 0 once 2.5 times the ticks covers the distance |
| SocketAnimation.OpeningFromClosedInThirtyFourTicks | floor-socket.js:860-868 | a closed cover opens fully in 34 ticks |
| SocketAnimation.JsRem | floor-socket.js:889-889 | JavaScript's `%`: the remainder has the sign of the dividend and is smaller than the divisor; below the divisor it is the value itself |
| SocketAnimation.RotationStepWraps | floor-socket.js:889-889 | from [0, 360) a step adds 2 and wraps past 360, landing in [0, 360) again |
| SocketAnimation.RotationStepNegative | floor-socket.js:889-889 | a negative angle above −360 steps by +2 and is not folded into [0, 360) |
| FloorSocket.Socket.constructor | floor-socket.js:82-101 | starts closed, idle, grid shown, with the geometry and grid built; camera at pitch 30, yaw −45, distance 5 |
| FloorSocket.Socket.PushVertices | floor-socket.js:557-560 | the per-vertex push loop appends the block's vertices and colours |
| FloorSocket.Socket.PushIndices | floor-socket.js:573-575 | the index loop appends the local indices offset by the start vertex |
| FloorSocket.Socket.AddBox | floor-socket.js:540-576 | appends exactly `AppendBox` |
| FloorSocket.Socket.AddBaseFrame | floor-socket.js:188-247 | appends exactly `AppendBaseFrame` |
| FloorSocket.Socket.AddTriangle | floor-socket.js:484-498 | appends exactly `AppendTriangle` |
| FloorSocket.Socket.AddPopUpMechanism | floor-socket.js:254-474 | appends exactly `AppendPopUp`: the local pop-up turned about the hinge and offset, its indices shifted |
| FloorSocket.Socket.PushPivoted | floor-socket.js:446-468 | the transform loop appends every local vertex pivoted about the hinge line, with its colour |
| FloorSocket.Socket.CreateGrid | floor-socket.js:504-534 | appends the 84 grid vertices and colours and no indices |
| FloorSocket.Socket.CreateFloorSocket | floor-socket.js:136-182 | empties the arrays and builds exactly the socket for the current angle |
| FloorSocket.Socket.AddFixedParts | floor-socket.js:160-169 | frame, recess, button and indicator, in order |
| FloorSocket.Socket.UpdateBuffers | floor-socket.js:617-620 | rebuilds the socket, and the grid when shown |
| FloorSocket.Socket.OpenSocket | floor-socket.js:736-741 | sets `isOpening`, clears `isClosing`, keeps the angle and the invariant |
| FloorSocket.Socket.CloseSocket | floor-socket.js:746-751 | sets `isClosing`, clears `isOpening`, keeps the angle and the invariant |
| FloorSocket.Socket.ResetAnimation | floor-socket.js:756-765 | angle 0, both flags clear, geometry rebuilt |
| FloorSocket.Socket.SetCoverAngle | floor-socket.js:721-726 | the slider's value clamped into [0, 85], geometry rebuilt |
| FloorSocket.Socket.ToggleGrid | floor-socket.js:800-803 | flips the grid and rebuilds |
| FloorSocket.Socket.AnimateRotation | floor-socket.js:819-838 | starts the auto-rotation about the chosen axis |
| FloorSocket.Socket.StopRotation | floor-socket.js:843-846 | stops the auto-rotation, no axis |
| FloorSocket.Socket.UpdateAnimation | floor-socket.js:856-899 | the cover follows one tick, the buffers are rebuilt when it asks and untouched otherwise, and only the active axis's rotation steps |
| FloorSocket.Socket.UpdateCover | floor-socket.js:856-885 | the cover half of the frame update, keeping the invariant |
| FloorSocket.Socket.AdvanceCover | floor-socket.js:860-878 | the two phases change the cover as one tick does, and report whether to rebuild |
| FloorSocket.Socket.AutoRotate | floor-socket.js:888-898 | only the active axis's angle takes a rotation step |
| FloorSocket.Socket.MouseDown | floor-socket.js:645-652 | starts a drag with the pressed button at (x, y) |
| FloorSocket.Socket.MouseUp | floor-socket.js:654-656 | ends the drag |
| FloorSocket.Socket.MouseMove | floor-socket.js:659-680 | left button turns the camera (pitch kept in [−89, 89]), right button pans 0.01 per pixel, other buttons only move the anchor, and nothing happens without a drag |
| FloorSocket.Socket.Wheel | floor-socket.js:682-687 | the distance moves 0.01 per scroll unit, kept in [1, 20] |
| FloorSocket.PushColor | floor-socket.js:274-275 | a colour loop appends n copies of the colour |
| FloorSocket.BuildPopUpLocal | floor-socket.js:254-442 | the local arrays are exactly `PopUpLocal`, and the vertex counter equals their length |
| FloorSocket.BuildPanels | floor-socket.js:266-380 | wedge, back panel and socket panel, with the slope frame the holes are placed in |
| FloorSocket.CreateCircle | floor-socket.js:416-438 | one hole: the centre, 16 rim points and a 15-triangle fan, the counter advanced by 17 |
| FloorSocket.FanStep | floor-socket.js:434-436 | one more fan triangle appends (c, c + 1 + t, c + 2 + t) |
| FloorSocket.GridLinesAlongX | floor-socket.js:514-520 | the first grid loop gives the 21 lines along x |
| FloorSocket.GridLinesAlongZ | floor-socket.js:523-529 | the second grid loop gives the 21 lines along z, after the first |

## Left out

- MV.js is not part of this model. `mat4`, `translate`, `rotateX` and `rotateY` are given their standard matrix meaning. The matrix product, `normalize`, `mix`, `cross` and the cosine and sine of each angle are parameters, so results about them hold for any implementation. Lemmas that need the exact product say so with `MultIsProduct`.
- SocketGeometry.Pivot: the socket's `mult(rotMatrix, v)` is taken as the exact matrix-times-vector product, not the library parameter.
- Floating point: all numbers are reals, so rounding, `NaN` from `parseFloat` and `toFixed`/`Math.round` in labels are not modelled.
- WebGL and the DOM: buffer uploads, shaders, `render` (apart from where it draws the grid), the projection and view matrices, slider labels and button highlights. folding-doors/initShaders.js and folding-doors/webgl-utils.js are not part of this model.
- Textures (`loadDoorTexture`, `createWoodTexture`), the lighting controls and `resetLighting`, and the texture and wireframe toggles: they only change what rendering reads. `hexToRgb` itself is modelled.
- The door's unused `createFloor` and `createWall` (folding-doors/folding-doors.js:683-728): nothing calls them.
- The socket's scaling and rotation sliders, `resetTransform` and `toggleWireframe`: they store slider values used only by `render`.
- DoorScene.FoldingDoors.AppendTransformed: the texture coordinates of every builder above it are stated by count only, not by value.
- DoorScene.FoldingDoors.CreateDoorPanel: texture coordinates by count only.
- DoorScene.FoldingDoors.CreateHinge: texture coordinates by count only.
- DoorScene.FoldingDoors.CreateHinges: texture coordinates by count only.
- DoorScene.FoldingDoors.CreateLeg: texture coordinates by count only.
- DoorScene.FoldingDoors.CreateLegs: texture coordinates by count only.
- DoorScene.FoldingDoors.CreateFoldingDoors: texture coordinates by count only.
- DoorScene.FoldingDoors.CreateParts: texture coordinates by count only.
- DoorScene.FoldingDoors.CreatePanels: texture coordinates by count only.
- DoorScene.FoldingDoors.CreateHingeSets: texture coordinates by count only.
- DoorScene.FoldingDoors.CreateLegSets: texture coordinates by count only.
- DoorScene.FoldingDoors.AddPanel: texture coordinates by count only.
- DoorScene.FoldingDoors.AddHingePair: texture coordinates by count only.
- DoorScene.FoldingDoors.AddLegPair: texture coordinates by count only.
- FloorSocket.Socket.MouseMove: the pitch bound is stated for a pitch that starts within [−89, 89], as every handler leaves it.
