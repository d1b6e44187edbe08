# SwirlyPipe core in Dafny

A model of the three pieces of SwirlyPipe that make the endless tunnel work. Each piece has proofs about it.

- `pipe_mesh.dfy` (module `PipeMesh`) models `Pipe.cs`, the tube segment. `SetVertices`, `CreateFirstQuadRing`, `CreateQuadRing` and `SetTriangles` fill the vertex and triangle arrays with the same loops as the source.
  - The methods are proved against a closed form. Slot `RingStart(P, r) + 4j + k` (ring start `r * 4P`) holds corner `k` of quad `j` of ring `r`.
  - Corners 0 and 1 are the torus points `(r, j)` and `(r, j + 1)`. Corners 2 and 3 are `(r + 1, j)` and `(r + 1, j + 1)`.
  - `P` is `pipeSegmentCount`. The grid has rings `u` and radial steps `v`.
  - Lemmas prove the following consequences:
    - every slot is written exactly once;
    - the layout determines the buffer;
    - neighbouring rings and neighbouring quads share their edges;
    - every triangle index names a vertex.
- `pipe_chain.dfy` (module `PipeChain`) models `PipeSystem.cs`, the chain of pipes.
  - `ShiftPipes` turns the `pipes` array left by one in place. It is proved against `RotateLeft`. Lemmas prove that `RotateLeft` is a permutation and that turning `n` times restores the order.
  - The scene graph is reduced to two things. The first is each pipe's placement relative to the others: aligned after another pipe, or not aligned. The second is the anchor, the pipe that sits at the system's origin.
  - Construction aligns each pipe after the one before it. A recycling moves the whole chain rigidly with the new head, so the relative placements never change; only the anchor does.
  - The recycled pipe stays behind the new head and is never re-aligned at the front end. After `k` recyclings only `n - 1 - k` pipes lie ahead of the head (a finding, below).
- `traveler.dfy` (module `Traveler`) models `Player.cs`, the traveler's tick.
  - `Player.Update` is proved against the step function `Step`.
  - Lemmas relate the rotation to the distance covered in the current pipe. They also relate a pipe's curve angle to its arc length.
  - A second finding is documented below: the discarded overflow at a pipe boundary.

Floats are modelled as reals. `Time.deltaTime` is the parameter `dt` of `Update`. The random draws `curveRadius` and `curveSegmentCount` are parameters of `Pipe.Awake`. The surface point `GetPointOnTorus` is the pipe's function `pointOnTorus` of ring and radial step.

## Model

| member | source | states |
|---|---|---|
| `PipeMesh.Pipe.Awake` | Assets/Scripts/Pipe.cs:60-71 | A new pipe keeps its drawn radius and ring count, has the curve angle of its arc, and has fresh vertex and triangle buffers laid out by the closed form |
| `PipeMesh.Pipe.SetVertices` | Assets/Scripts/Pipe.cs:73-85 | The vertex buffer is fresh, has `P*C*4` entries, and every ring 0 to C-1 holds its closed-form corners; the curve angle is `ringDistance/curveRadius * C * 360/(2π)` |
| `PipeMesh.CurveAngleOf` | Assets/Scripts/Pipe.cs:76-77 | The curve angle is to 360 degrees as the arc length `ringDistance * curveSegmentCount` is to the circumference `2π * curveRadius` |
| `PipeMesh.Pipe.CreateFirstQuadRing` | Assets/Scripts/Pipe.cs:101-115 | Quad `j` of the first ring holds points (0,j), (0,j+1), (1,j), (1,j+1) in slots 4j to 4j+3, and no slot from `4P` up changes |
| `PipeMesh.Pipe.CreateQuadRing` | Assets/Scripts/Pipe.cs:117-130 | If the outer corners of the previous ring sit `4P` slots back, every quad of ring u-1 ends up holding its closed-form corners, and no slot outside the ring's `4P` slots changes |
| `PipeMesh.SetQuad` | Assets/Scripts/Pipe.cs:110-113 | The four stores of one loop step fill slots i to i+3 with the given corners and change no other slot |
| `PipeMesh.Pipe.SetTriangles` | Assets/Scripts/Pipe.cs:87-99 | The triangle buffer is fresh, has `P*C*6` entries, and quad q's six entries are 4q, 4q+1, 4q+2, 4q+2, 4q+1, 4q+3 |
| `PipeMesh.RingStartIsProduct` | Assets/Scripts/Pipe.cs:79-83 | The offset `i`, stepped by `iDelta = 4P` once per ring, is `r * 4P` at ring r |
| `PipeMesh.SlotsDistinct` | Assets/Scripts/Pipe.cs:79-83 | Two corners that share a slot are the same corner of the same quad of the same ring: no slot is written twice |
| `PipeMesh.SlotsCoverBuffer` | Assets/Scripts/Pipe.cs:75-83 | Every slot below `P*C*4` is some corner of some quad of rings 0 to C-1: every slot is written |
| `PipeMesh.SlotInBuffer` | Assets/Scripts/Pipe.cs:75 | Every corner slot of a ring below C lies inside the `P*C*4` buffer |
| `PipeMesh.LayoutDeterminesBuffer` | Assets/Scripts/Pipe.cs:73-85 | Two buffers laid out from the same surface points are equal |
| `PipeMesh.RingsShareEdges` | Assets/Scripts/Pipe.cs:120-126 | In a finished buffer, slot i of a later ring equals slot i - 4P + 2, and slot i+1 equals slot i - 4P + 3 |
| `PipeMesh.QuadsShareEdges` | Assets/Scripts/Pipe.cs:108-114 | In a finished buffer, corners 1 and 3 of quad j equal corners 0 and 2 of quad j+1 |
| `PipeMesh.TriangleIndicesInRange` | Assets/Scripts/Pipe.cs:89-97 | Every triangle index lies in [0, P*C*4), the vertex buffer's range |
| `PipeMesh.TrianglesCoverTheirQuad` | Assets/Scripts/Pipe.cs:91-97 | The six indices of quad q are exactly the set {4q, 4q+1, 4q+2, 4q+3} |
| `PipeChain.RotateLeft` | Assets/Scripts/PipeSystem.cs:42-52 | Turning left keeps the length, moves element i to i-1 and the head to the back, and leaves a one-element sequence as it is |
| `PipeChain.RotateLeftTimes` | Assets/Scripts/PipeSystem.cs:42-52 | Turning left k times keeps the length |
| `PipeChain.RotateLeftTimesSplits` | Assets/Scripts/PipeSystem.cs:42-52 | Turning left k times (k at most the length) gives `s[k..] + s[..k]` |
| `PipeChain.RotateLeftLengthTimesRestores` | Assets/Scripts/PipeSystem.cs:42-52 | Turning left n times a sequence of length n restores it |
| `PipeChain.RotateLeftPermutes` | Assets/Scripts/PipeSystem.cs:44-51 | Turning left keeps the multiset of elements |
| `PipeChain.RotateLeftKeepsDistinct` | Assets/Scripts/PipeSystem.cs:44-51 | Turning left keeps distinct pipes distinct |
| `PipeChain.RecyclingShortensAlignedChain` | Assets/Scripts/PipeSystem.cs:34-40 | A recycling keeps every relative placement, so a stretch of pipes each aligned after the one before it, ending at index `hi`, now ends at `hi - 1` |
| `PipeChain.RecycledPipeSitsBehindHead` | Assets/Scripts/PipeSystem.cs:42-70 | The former head becomes the last pipe, and the new head is still aligned after it: the recycled pipe sits behind the head |
| `PipeChain.AlignedAheadAfterRecyclings` | Assets/Scripts/PipeSystem.cs:34-70 | After `k < n` recyclings of a chain built in order, pipes 1 to `n - k - 1` each follow the one before; for `k > 0` the pipe at `n - k` is the first one built, which is aligned after no pipe |
| `PipeChain.RealignRecycled` | Assets/Scripts/PipeSystem.cs:34-40 | The corrected recycling gives the recycled pipe, now last, the placement "aligned after the pipe before it", makes the new head unaligned, and keeps every other placement |
| `PipeChain.RealignedRecyclingKeepsChain` | Assets/Scripts/PipeSystem.cs:34-40 | With the corrected recycling, a chain whose every pipe follows the one before it stays that way |
| `PipeChain.PipeSystem.Awake` | Assets/Scripts/PipeSystem.cs:12-26 | The array holds the instances in order. Pipe 0 is unaligned and is the anchor. Each pipe i > 0 is aligned after pipe i-1. The system's transform is the one the scene gave it |
| `PipeChain.PipeSystem.SetupFirstPipe` | Assets/Scripts/PipeSystem.cs:28-32 | Returns pipes[0] and sets the local position to (0, -pipes[0].curveRadius, 0) |
| `PipeChain.PipeSystem.SetupNextPipe` | Assets/Scripts/PipeSystem.cs:34-40 | The array is turned left by one, and the new head becomes the anchor. The result is the old pipes[1] (pipes[0] when there is one pipe). The local position is (0, -head.curveRadius, 0) and the rotation is kept |
| `PipeChain.PipeSystem.ShiftPipes` | Assets/Scripts/PipeSystem.cs:42-52 | The new pipes[i-1] is the old pipes[i] for 1 ≤ i < n, the new pipes[n-1] is the old pipes[0], and the pipes stay distinct |
| `PipeChain.PipeSystem.AlignNextPipeWithOrigin` | Assets/Scripts/PipeSystem.cs:54-70 | The head becomes the anchor at the origin; the relative placements are kept, since the chain moves with the head |
| `Traveler.RotationFactor` | Assets/Scripts/Player.cs:18 | The factor is positive and turns one circumference `2πR` into exactly 360 degrees |
| `Traveler.CurveAngleIsArcRotation` | Assets/Scripts/Pipe.cs:76-77 | A pipe's curve angle equals the rotation factor times its arc length `ringDistance * curveSegmentCount` |
| `Traveler.Step` | Assets/Scripts/Player.cs:23-31 | A tick crosses exactly when the new rotation reaches the curve angle; the factor stays positive, and changes only on a crossing |
| `Traveler.StepCarryingOverflow` | Assets/Scripts/Player.cs:27-31 | The corrected tick agrees with `Step` off a crossing. On a crossing it restarts the rotation at a non-negative value in the next pipe's factor. The factor stays positive |
| `Traveler.StepKeepsArcWithinPipe` | Assets/Scripts/Player.cs:23-27 | Without a crossing, the rotation keeps measuring the distance covered in the current pipe, and the as-written and overflow-carrying ticks agree |
| `Traveler.CrossesAtArcEnd` | Assets/Scripts/Player.cs:25-27 | While the rotation measures the distance in the pipe, a crossing happens if and only if that distance reaches the pipe's arc length |
| `Traveler.CrossesAtPipeEnd` | Assets/Scripts/Pipe.cs:76-77 | For a pipe whose curve angle matches its arc, travelled at that pipe's factor, a crossing happens exactly when the distance covered in it reaches `ringDistance * curveSegmentCount` |
| `Traveler.PlayerCrossesAtPipeEnd` | Assets/Scripts/Player.cs:25-27 | For a valid player whose rotation measures the distance since entering the current pipe, a tick crosses exactly when that distance reaches the current pipe's arc length |
| `Traveler.StepKeepsRotationPastEnd` | Assets/Scripts/Player.cs:25-31 | As written, after a crossing the rotation is still at least the old pipe's curve angle, and the distance grew by exactly the tick |
| `Traveler.StepRecyclesWithoutMoving` | Assets/Scripts/Player.cs:27-31 | As written, after a crossing into a pipe with no larger curve angle, a tick of zero distance crosses again |
| `Traveler.CarriedProgressBelowOneTick` | Assets/Scripts/Player.cs:29 | When the overflow is carried, the rotation after a crossing is non-negative and below one tick's worth in the new pipe |
| `Traveler.CarryingOverflowKeepsArc` | Assets/Scripts/Player.cs:29-31 | When the overflow is carried, a crossing enters the next pipe where the old arc ended, and the rotation keeps measuring the distance in the current pipe |
| `Traveler.Player.Start` | Assets/Scripts/Player.cs:14-19 | The current pipe is the head, progress is zero, the factor is that of the head's radius, and the system is lowered by the head's radius |
| `Traveler.Player.Update` | Assets/Scripts/Player.cs:21-35 | The new distance, rotation and factor are `Step` of the old ones. On a crossing the chain is turned exactly once and the new head becomes current and the anchor; otherwise the pipe, chain, anchor and position are unchanged. The system's z rotation is `systemRotation` |

## Left out

- `GetPointOnTorus` (Pipe.cs:35-45) uses float sine and cosine. It is the pipe's abstract function `pointOnTorus` of ring index and radial index. `pipeRadius` only feeds it, so it is left out too.
- The float parameters `u * uStep` and `v * vStep` passed to `GetPointOnTorus` are replaced by the integer grid indices they sample.
- The configured ranges of the random draws are not modelled. Those are the float draw in `[minCurveRadius, maxCurveRadius]` and the max-exclusive integer draw in `[minCurveSegmentCount, maxCurveSegmentCount)`.
- `pipeSegmentCount` and `curveSegmentCount` are `nat`. Negative values of the source's `int` fields are not modelled. With exactly one count negative and the other non-zero, the allocation of `P*C*4` slots (Pipe.cs:75) throws. With both negative, or one negative and the other 0, it allocates `P*C*4` slots (zero or more) that the loops at Pipe.cs:80 and Pipe.cs:108 leave unfilled, while Pipe.cs:91-97 still fill the triangles.
- `curveRadius` is a `PosReal`: the model assumes a positive drawn radius. A configured range reaching 0 or below, where Pipe.cs:76 and Player.cs:18 would divide by zero in float arithmetic without throwing, is not modelled.
- `PipeMesh.Pipe.Awake` requires `pipeSegmentCount == 0 || curveSegmentCount >= 1`. The source would index outside the vertex array otherwise. The default range `[4, 10)` (Pipe.cs:11) never draws 0; `minCurveSegmentCount` is public and may be configured lower.
- The Unity mesh plumbing is not modelled: `Mesh`, `MeshFilter`, `mesh.name`, the assignments to `mesh.vertices` and `mesh.triangles`, and `RecalculateNormals`.
- `AlignWith` (Pipe.cs:47-58) is reduced to the relation "aligned after the previous pipe". Its transform geometry and its random twist are not modelled. In the code the twist is a float draw in `[0, curveSegmentCount]` times `360 / pipeSegmentCount`, not an integer multiple of `360 / pipeSegmentCount`.
- The re-parenting loops of `AlignNextPipeWithOrigin` (PipeSystem.cs:58-69) move the chain rigidly. Only their net effect is modelled: the head becomes the anchor, and every relative placement is kept.
- `PipeChain.PipeSystem.Awake` assumes the prefab's own local pose is the identity, so pipe 0 starts at the system's origin.
- `Instantiate` and `SetParent` in `PipeSystem.Awake` are not modelled. The pipes come in as a sequence of distinct instances.
- `ShiftPipes`, `SetupFirstPipe` and `SetupNextPipe` require at least one pipe. With none, the source indexes out of range.
- `Quaternion.Euler(0, 0, systemRotation)` is modelled as the z angle `localRotationZ`.
- The `world` field of `Player` is only assigned and never used.
- The commented-out `OnDrawGizmos` (Pipe.cs:132-151) is not part of this model.
- Float rounding and overflow are not modelled: every float is a real. The `int` counts and slot indices are unbounded `nat`, so int32 overflow of `pipeSegmentCount * curveSegmentCount * 4` and `* 6` (Pipe.cs:75, Pipe.cs:89) and of `i += iDelta` (Pipe.cs:80) is not modelled.

## Findings

| source | as written | input that shows it | evidently intended | confidence | as-written member | corrected member |
|---|---|---|---|---|---|---|
| Assets/Scripts/PipeSystem.cs:34-40 | A recycling moves the former head to the back of the array but never aligns it after the pipe ahead of it; it stays behind the new head. | Three pipes A, B, C built in order. After two recyclings the array is C, A, B; A and B lie behind C, and nothing lies ahead of it. | Align the recycled pipe after the pipe now before it, so the tunnel always runs `n - 1` pipes ahead. | not executed; high: nothing in the code ever aligns a pipe after construction | `PipeChain.AlignedAheadAfterRecyclings` (with `PipeChain.RecyclingShortensAlignedChain`) | `PipeChain.RealignRecycled`, proved by `PipeChain.RealignedRecyclingKeepsChain` |
| Assets/Scripts/Player.cs:27-31 | At a crossing the head pipe is recycled, but `systemRotation` keeps its whole value. The overflow recomputed into `delta` is never used afterwards. | Two pipes with equal curve angles. A tick whose rotation reaches the first pipe's curve angle is followed by a tick with `dt = 0`. The second tick recycles another pipe without any movement. | Set `systemRotation` to the overflow distance times the new `deltaToRotation`. The rotation then measures the distance covered in the new pipe. | not executed; high: the overflow is computed and then dropped | `Traveler.StepRecyclesWithoutMoving` (about `Traveler.Step`, which `Traveler.Player.Update` follows) | `Traveler.StepCarryingOverflow`, proved by `Traveler.CarryingOverflowKeepsArc` and `Traveler.CarriedProgressBelowOneTick` |
