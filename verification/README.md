# GameFrog3d editor core, modelled in Dafny

GameFrog3d is a browser-based 3D world editor. This project models its core logic as pure Dafny functions over immutable state:

- **Terrain.** The terrain is a square grid of vertices plus a 512 × 512 splat map. The model covers how it is created, recreated and reset to flat, how fractal noise generates it, and how the sculpt brushes (raise, lower, flatten, smooth) and the texture paint brush change it.
- **History.** The undo/redo history holds add, delete and transform commands.
- **Gizmo.** The on-screen gizmo drags the selected object's scale, height and rotation.
- **App state.** The editor application object handles selection, pointer handlers, keyboard shortcuts, and adding, duplicating and deleting objects.
- **World editor.** The world-editor panel covers tabs and tools, brush buttons and sliders, the texture colour map, and the generation parameter sliders.
- **Vegetation.** Trees and grass are placed on the generated ground.
- **Input.** The input manager maps actions to raw inputs.
- **Asset list.** The asset-list generator scans a models folder and turns each `.glb` file into an asset record.

Outside influences are parameters:

- Noise is a `Noise2` function.
- `Math.random` is a `Random` stream of draws indexed by draw number.
- `Math.sqrt` is any `sqrt` function satisfying `Common.IsSqrt`.
- Vertex normals are a sequence given to the vegetation placement.
- A new object's identity is an `Id` parameter that is required to be fresh.

Three.js objects become records:

- A scene object is an `Id`. Its transform lives in the scene's transform map.
- "Rendered" (added to the three.js scene) is a set, kept separate from the app's `objects` list.

Each source file has its own module:

| module | models |
|---|---|
| `Common` | shared records (`Vec3`, `Transform`, `Option`), `Math.floor`/`ceil`, `Math.min`/`max`, and the square-root oracle |
| `Text` | the JavaScript string operations the source relies on: case mapping, `trim`, `replace`, `split`/`join` |
| `Terrain` | `GameFrog3d/Terrain.js` |
| `History` | `GameFrog3d/HistoryManager.js` |
| `Gizmo` | `GameFrog3d/GizmoManager.js` |
| `Placement` | `createVegetation` and `createGrass` from `GameFrog3d/main.js` |
| `Editor` | the rest of the app class in `GameFrog3d/main.js` |
| `WorldEditor` | `GameFrog3d/WorldEditor.js` |
| `Input` | `GameFrog3d/input.js` |
| `Assets` | `generate-assets.js` |

## Model

| member | source | states |
|---|---|---|
| Common.Floor | GameFrog3d/Terrain.js:235-236 | `Math.floor`: the greatest integer not above the argument |
| Common.Ceil | GameFrog3d/Terrain.js:237-238 | `Math.ceil`: the least integer not below the argument |
| Common.Min | GameFrog3d/Terrain.js:219 | `Math.min` of two reals is one of them and below both |
| Common.Max | GameFrog3d/Terrain.js:219 | `Math.max` of two reals is one of them and above both |
| Terrain.Clamp01 | GameFrog3d/Terrain.js:219 | the clamp into [0, 1] keeps values already inside and sends values outside to the nearer end |
| Terrain.Smoothstep | GameFrog3d/Terrain.js:218-221 | smoothstep lies in [0, 1]: it is 0 at or below the lower edge, 1 at or above the upper edge, and positive past the lower edge |
| Terrain.SmoothstepMonotone | GameFrog3d/Terrain.js:218-221 | smoothstep never decreases, and increases strictly between its edges |
| Terrain.SmoothstepMidpoint | GameFrog3d/Terrain.js:218-221 | the unit smoothstep maps 0.5 to 0.5 |
| Terrain.CubicBounds | GameFrog3d/Terrain.js:220 | the Hermite cubic maps [0, 1] into [0, 1] and is positive on (0, 1] |
| Terrain.CubicStrict | GameFrog3d/Terrain.js:220 | the Hermite cubic is strictly increasing on [0, 1] |
| Terrain.LerpBetween | GameFrog3d/Terrain.js:208-209 | `THREE.MathUtils.lerp` with t in [0, 1] lands between its ends, and its gap to the target shrinks by the factor 1 - t |
| Terrain.GridLineSpan | GameFrog3d/Terrain.js:103 | the plane's grid lines run from -size/2 to size/2, size/segments apart |
| Terrain.PlaneGrid | GameFrog3d/Terrain.js:102-104 | the rotated `PlaneGeometry` has (segments+1)² vertices, all at height 0, in row-major order (x varies fastest, then z) |
| Terrain.GridLineOnPlane | GameFrog3d/Terrain.js:103 | every grid line lies within [-size/2, size/2] |
| Terrain.PlaneGridWithinPlane | GameFrog3d/Terrain.js:102-104 | every vertex of the plane lies within the size × size square centred on the origin |
| Terrain.GrassRaster | GameFrog3d/Terrain.js:106-111 | the fresh splat canvas has the requested size and every pixel is pure green (0, 255, 0) |
| Terrain.ResetSplatMap | GameFrog3d/Terrain.js:138-142 | the fill keeps the canvas size and makes every pixel pure green |
| Terrain.CreateMesh | GameFrog3d/Terrain.js:102-130 | a new mesh is a flat grid of (segments+1)² vertices with a 512 × 512 all-green splat map |
| Terrain.Recreate | GameFrog3d/Terrain.js:84-100 | recreating stores the new size and segment count, and yields a flat grid of the new resolution and a green splat map |
| Terrain.RecreateForgetsEdits | GameFrog3d/Terrain.js:84-100 | the recreated terrain does not depend on the previous terrain at all |
| Terrain.Reset | GameFrog3d/Terrain.js:271-281 | reset flattens every vertex to height 0, keeps x and z and the grid size, and repaints the splat map green |
| Terrain.ResetAfterRecreate | GameFrog3d/Terrain.js:271-281 | resetting a just-recreated terrain changes nothing |
| Terrain.OctaveCount | GameFrog3d/Terrain.js:175 | the octave loop `j < mountainOctaves` runs ⌈octaves⌉ times (0 for a non-positive count) |
| Terrain.FractalNoise | GameFrog3d/Terrain.js:171-183 | the octave loop, with amplitude multiplied by persistence and frequency by lacunarity each round, sums the terms of the reference fractal sum |
| Terrain.Generate | GameFrog3d/Terrain.js:156-191 | generation keeps x and z. A vertex whose landmass value is below the water level sinks to -2. Any other vertex gets mountainHeight times the fractal sum |
| Terrain.GenerateForgetsHeights | GameFrog3d/Terrain.js:161-187 | the generated heights depend only on x and z, not on the heights before |
| Terrain.WaterIgnoresMountains | GameFrog3d/Terrain.js:164-169 | a water vertex is the same whatever the mountain parameters |
| Terrain.DefaultParamsLandVertex | GameFrog3d/Terrain.js:164-175 | with the editor's default parameters, a noise sample of 0.4 gives landmass 0.7, which is land, and six octaves |
| Terrain.Distance | GameFrog3d/Terrain.js:199 | `distanceTo` is non-negative |
| Terrain.Falloff | GameFrog3d/Terrain.js:202 | inside the brush, the falloff lies in (0, 1], and it is 1 at the centre |
| Terrain.BrushHeight | GameFrog3d/Terrain.js:205-210 | raise lifts by at most the strength (strictly for positive strength) and lower is its mirror. Flatten and smooth stay between the vertex and the brush point. An unknown brush type leaves the height alone |
| Terrain.RaisedHeight | GameFrog3d/Terrain.js:206 | raise adds at most the strength, and a positive strength adds something |
| Terrain.LoweredHeight | GameFrog3d/Terrain.js:207 | lower subtracts at most the strength, and a positive strength subtracts something |
| Terrain.PulledHeight | GameFrog3d/Terrain.js:208-209 | flatten and smooth, with strength in [0, 1], land between the old height and the brush point's height |
| Terrain.SculptVertex | GameFrog3d/Terrain.js:197-212 | sculpting never moves a vertex sideways and leaves vertices outside the brush unchanged. Each brush type obeys the bounds above, strict for raise and lower inside the brush |
| Terrain.Sculpt | GameFrog3d/Terrain.js:193-216 | sculpting keeps the vertex count and every x and z, and leaves every vertex at distance ≥ size unchanged |
| Terrain.RaiseHalfway | GameFrog3d/Terrain.js:201-206 | a raise brush of size 10 and strength 0.5 lifts a vertex 5 away by exactly 0.25 |
| Terrain.PaintBoxInside | GameFrog3d/Terrain.js:232-238 | for a uv in the unit square, the clipped paint box lies inside the canvas |
| Terrain.BoxCoversBrush | GameFrog3d/Terrain.js:235-247 | every pixel nearer to the centre than the brush size lies inside the paint box, so the box drops no pixel the brush reaches |
| Terrain.PixelDistance | GameFrog3d/Terrain.js:246 | the pixel distance to the brush centre is non-negative |
| Terrain.BlendChannelApproaches | GameFrog3d/Terrain.js:260-262 | a channel blended with weight in [0, 1] stays between its old value and the target, and a positive weight moves it strictly toward the target |
| Terrain.PaintWeight | GameFrog3d/Terrain.js:248-249 | the blend weight is in [0, 1] for strength in [0, 1], positive for positive strength, and the full strength at the brush centre |
| Terrain.Paint | GameFrog3d/Terrain.js:223-269 | painting keeps the canvas size. A hit without uv changes nothing. Every pixel at distance ≥ brush size keeps its colour |
| Terrain.PaintedAtIsDistanceFilter | GameFrog3d/Terrain.js:244-263 | one pixel is blended toward the brush colour with the falloff-weighted strength exactly when its distance is below the brush size |
| Terrain.PaintedPixelIsDistanceFilter | GameFrog3d/Terrain.js:244-263 | the same, for the pixel at a row-major index of the canvas |
| Terrain.PaintIsDistanceFilter | GameFrog3d/Terrain.js:223-269 | after painting, each pixel is blended if and only if it lies within the brush, and is otherwise unchanged |
| Terrain.BlendPixelBetween | GameFrog3d/Terrain.js:260-262 | each blended channel lies between the old colour's channel and the brush colour's channel |
| Terrain.PaintedAtBetween | GameFrog3d/Terrain.js:244-263 | a painted pixel stays channel-wise between its old colour and the brush colour |
| Terrain.PaintStaysBetween | GameFrog3d/Terrain.js:223-269 | painting keeps each pixel channel-wise between its old colour and the brush colour, so channels in [0, 255] stay in [0, 255] |
| Terrain.CentreWeight | GameFrog3d/Terrain.js:248-249 | at the brush centre the weight is the full strength |
| Terrain.PaintedAtCentre | GameFrog3d/Terrain.js:232-262 | the default brush (size 15, strength 0.1) painting rock at uv (0.5, 0.5) blends pixel (256, 256) by exactly 0.1 |
| Terrain.PaintCentrePixel | GameFrog3d/Terrain.js:223-269 | the same, for the centre pixel's red channel after painting the whole canvas |
| History.SetTransform | GameFrog3d/HistoryManager.js:73-75 | copying a transform onto an object changes that object's transform and nothing else |
| History.IndexOf | GameFrog3d/HistoryManager.js:50-53 | `indexOf` finds the first occurrence, or -1 exactly when the object is absent |
| History.RemoveAt | GameFrog3d/HistoryManager.js:52 | `splice(index, 1)` removes exactly the element at that index: the multiset loses that one element |
| History.SpliceStart | GameFrog3d/HistoryManager.js:59 | `splice`'s start argument: negative counts from the end, and out-of-range values clamp to the array |
| History.SpliceInsert | GameFrog3d/HistoryManager.js:59 | `splice(start, 0, x)` inserts x at the clamped start and keeps everything else in order |
| History.Attach | GameFrog3d/HistoryManager.js:22-27 | adding renders the object and appends it to `objects` unless it is already there |
| History.Detach | GameFrog3d/HistoryManager.js:29-35 | removing un-renders exactly that object and drops one occurrence of it from `objects` when it is there, keeping every other entry |
| History.Execute | GameFrog3d/HistoryManager.js:22-77 | a transform command touches only transforms, and add and delete touch only the object list and the rendered set |
| History.Undo | GameFrog3d/HistoryManager.js:29-84 | the same split of effects for undoing |
| History.AddNeverDuplicates | GameFrog3d/HistoryManager.js:22-27 | executing an add twice never lists the object twice |
| History.AddThenUndoRestores | GameFrog3d/HistoryManager.js:15-36 | undoing the add of a new object restores the scene exactly |
| History.DeleteThenUndoRestores | GameFrog3d/HistoryManager.js:39-61 | undoing the delete of a present object restores the scene exactly, with the object back at its old index |
| History.SpliceUndoesRemove | GameFrog3d/HistoryManager.js:52-59 | reinserting a removed element at its old index restores the array |
| History.DeleteAbsentUndoInsertsBeforeLast | GameFrog3d/HistoryManager.js:44-59 | a delete command built for an absent object stores index -1, so its undo inserts the object before the last element |
| History.TransformCommandIdempotent | GameFrog3d/HistoryManager.js:64-85 | execute sets the new transform and undo the old one, each touching only its object, and each is idempotent |
| History.UpdateUi | GameFrog3d/HistoryManager.js:124-126 | the history buttons show whether each stack is non-empty |
| History.NewLog | GameFrog3d/HistoryManager.js:89-94 | a new history has empty stacks and accurate buttons |
| History.Add | GameFrog3d/HistoryManager.js:96-100 | `add` pushes the command, keeps the older entries, and clears the redo stack |
| History.UndoStep | GameFrog3d/HistoryManager.js:102-111 | undo does nothing on an empty stack. Otherwise it pops the top command, undoes it, pushes it on the redo stack, and returns its object |
| History.RedoStep | GameFrog3d/HistoryManager.js:113-122 | the mirror image for redo |
| History.UndoThenRedoRestoresLog | GameFrog3d/HistoryManager.js:102-122 | undo followed by redo restores both stacks |
| History.RedoThenUndoRestoresLog | GameFrog3d/HistoryManager.js:102-122 | redo followed by undo restores both stacks |
| History.AddThenUndo | GameFrog3d/HistoryManager.js:96-111 | undoing right after an add restores the old undo stack and leaves only that command to redo |
| History.ButtonsStayAccurate | GameFrog3d/HistoryManager.js:96-126 | add, undo and redo each leave the buttons matching the stacks |
| History.RedoReappliesTransform | GameFrog3d/HistoryManager.js:72-84 | redoing an undone transform gives back the transformed scene |
| Gizmo.NewGizmo | GameFrog3d/GizmoManager.js:19-25 | a new gizmo has no target, no drag and no handle |
| Gizmo.Show | GameFrog3d/GizmoManager.js:48 | `show` targets the object and leaves the drag state alone |
| Gizmo.Hide | GameFrog3d/GizmoManager.js:49 | `hide` clears the target and leaves the drag state alone |
| Gizmo.DragStart | GameFrog3d/GizmoManager.js:59-71 | with no target nothing happens. The duplicate handle only asks for a duplicate. Any other handle starts a drag that records the handle, the start point and a snapshot of the current transform |
| Gizmo.DraggedScale | GameFrog3d/GizmoManager.js:85 | the dragged scale is the initial scale minus 0.01 per pixel of downward drag, floored at 0.1 |
| Gizmo.DragMove | GameFrog3d/GizmoManager.js:72-88 | without a drag nothing changes. Each handle changes only its own component: uniform scale ≥ 0.1, height, y rotation or z rotation |
| Gizmo.DragMoveRepeatable | GameFrog3d/GizmoManager.js:72-88 | a move depends only on the snapshot and the pointer, so repeating it changes nothing more |
| Gizmo.DragBackToStartRestores | GameFrog3d/GizmoManager.js:76-85 | moving the pointer back to the start point restores the dragged component |
| Gizmo.DragEnd | GameFrog3d/GizmoManager.js:89-104 | a drag end stops the drag and records a transform command whose old state is the gizmo's own reused snapshot object |
| Gizmo.DragEndCopying | GameFrog3d/GizmoManager.js:89-104 | the same drag end with the snapshot copied into the command |
| Gizmo.SharedInitialBreaksSecondUndo | GameFrog3d/GizmoManager.js:68-99 | with the shared snapshot, after two rotate drags of 100 pixels, undoing both leaves the object rotated 1 radian from where it started |
| Gizmo.CopiedInitialUndoesBothDrags | GameFrog3d/GizmoManager.js:68-99 | with copied snapshots, undoing two drags restores the original transform |
| Gizmo.UpdatePosition | GameFrog3d/GizmoManager.js:50-58 | with no target nothing happens, and a point behind the camera hides the gizmo. Otherwise the gizmo is shown, and a projected point inside the view lands inside the canvas |
| Placement.Take | GameFrog3d/main.js:167 | the instance cap keeps the first n sites |
| Placement.TreeSitesBelow | GameFrog3d/main.js:118-125 | every tree site is a vertex on ground between heights 1 and 25, with normal ≥ 0.8 and noise mask ≥ 0.6 |
| Placement.TreeSitesComplete | GameFrog3d/main.js:118-125 | every vertex passing the tests is a tree site |
| Placement.TreeSitesPrefix | GameFrog3d/main.js:118-132 | scanning further only appends sites |
| Placement.CreateVegetation | GameFrog3d/main.js:104-135 | trees go at the first 20000 qualifying vertices in order, each with the scale and rotation drawn for it |
| Placement.VegetationScanComplete | GameFrog3d/main.js:118-119 | stopping at the cap or at the end yields the capped full site list |
| Placement.LowGroundHasNoTreeSites | GameFrog3d/main.js:122 | ground entirely below height 1 has no tree sites |
| Placement.TreeScaleBounds | GameFrog3d/main.js:127 | tree scales lie in [1, 1.5) × [1, 2) × [1, 1.5) |
| Placement.GrassScanBelow | GameFrog3d/main.js:166-172 | grass sites are increasing vertex indices on ground between heights 1 and 25 with normal ≥ 0.9, and each blade's two draws lie within the draws taken |
| Placement.GrassDrawAccounting | GameFrog3d/main.js:166-172 | the draws taken are one thinning draw per ground vertex plus two per blade, and each blade's draws precede the next blade's |
| Placement.GrassScanPrefix | GameFrog3d/main.js:166-179 | scanning further only appends sites and draw positions |
| Placement.GrassGroundBelow | GameFrog3d/main.js:170 | every such vertex is on plantable ground |
| Placement.NoThinningKeepsAllGround | GameFrog3d/main.js:170 | when every draw is ≤ 0.1, grass goes on every plantable vertex |
| Placement.FullThinningKeepsNothing | GameFrog3d/main.js:170 | when every draw is > 0.1, no grass is placed |
| Placement.CreateGrass | GameFrog3d/main.js:137-182 | blades go at the first 75000 grass sites in order, each scaled and rotated by the two draws following its thinning draw |
| Placement.GrassScanComplete | GameFrog3d/main.js:166-167 | stopping at the cap or at the end yields the capped full scan |
| Placement.BladeScaleBounds | GameFrog3d/main.js:174 | blade scales lie in [0.5, 1) |
| Editor.NewApp | GameFrog3d/main.js:18-29 | the app starts valid, with nothing selected, no objects, no tool, a raise brush (10, 0.5) and a grass paint brush (15, 0.1) |
| Editor.SelectObject | GameFrog3d/main.js:401-409 | selecting sets the selection and the gizmo target together and changes nothing else |
| Editor.EditOrPaintTerrain | GameFrog3d/main.js:288-291 | with no tool nothing changes. Sculpt changes only vertex heights within the brush. Paint changes only the splat map, as `Terrain.Paint` |
| Editor.PointerDown | GameFrog3d/main.js:240-267 | a press on a panel does nothing. A terrain hit with a tool starts terrain editing. A press on the selected object starts a drag with a snapshot. A press on another object, or on nothing, selects it |
| Editor.PointerMove | GameFrog3d/main.js:269-286 | terrain editing edits at the hit. An object drag moves only the selected object to the plane hit's x and z, keeping its height, rotation and scale |
| Editor.IntersectPlane | GameFrog3d/main.js:279-281 | the ray-plane hit, when there is one, lies on the plane |
| Editor.IntersectPlaneAhead | GameFrog3d/main.js:279-281 | the hit lies on the ray, at or ahead of its origin |
| Editor.IntersectPlaneComplete | GameFrog3d/main.js:279-281 | whenever the ray meets the plane at or ahead of its origin, there is a hit |
| Editor.DragPlaneHitMirrored | GameFrog3d/main.js:279-281 | the plane as written is met at the negated snapshot height |
| Editor.LevelDragPlaneHitLevel | GameFrog3d/main.js:279-281 | the level plane is met at the snapshot height |
| Editor.DragPlaneOvershoots | GameFrog3d/main.js:279-281 | for an object at height 1 seen from 10 above at 45 degrees, the plane as written is met 2 units beyond the level plane |
| Editor.DragHit | GameFrog3d/main.js:276-281 | the drag's hit as written exists only with a snapshot and lies at the negated snapshot height |
| Editor.LevelDragHit | GameFrog3d/main.js:276-281 | the drag's hit with the level plane lies at the snapshot height |
| Editor.LevelDragFollowsPointer | GameFrog3d/main.js:276-284 | with the level plane, the dragged object moves onto the pointer ray |
| Editor.DragMissesPointer | GameFrog3d/main.js:276-284 | as written, an object dragged off the ground never lands on the hit, which lies at the negated height |
| Editor.PointerUp | GameFrog3d/main.js:293-308 | a drag that moved the object records one transform command. A drag that did not move it records nothing. Editing and dragging end and the camera controls come back |
| Editor.UpdatePointer | GameFrog3d/main.js:310-314 | a pointer inside the canvas maps into [-1, 1]² device coordinates |
| Editor.PointerAndGizmoMappingsInverse | GameFrog3d/main.js:310-314 | placing the gizmo at the device coordinates of a pointer puts it back at the pointer's canvas pixel |
| Editor.DeleteSelectedObject | GameFrog3d/main.js:377-383 | with nothing selected nothing happens. Otherwise one delete command is recorded, the object is un-rendered, one occurrence of it leaves `objects` with every other entry kept, and nothing stays selected |
| Editor.AddNew | GameFrog3d/main.js:395-398 | a new object is appended, rendered with its transform and metadata, recorded as an add, and selected, while other objects keep their transforms |
| Editor.AddPrimitive | GameFrog3d/main.js:316-334 | a primitive is named by the shape with its first letter upper-cased, sits at height 1 (half its size), is recorded and is selected |
| Editor.DuplicateObject | GameFrog3d/main.js:385-399 | with no object nothing happens, and a model only requests the asset again. A primitive gets a `_copy` clone 1.5 along x with the same rotation and scale, which is recorded and selected |
| Editor.AppUndo | GameFrog3d/main.js:228-232 | undo as written undoes the scene and log but never changes the selection |
| Editor.AppRedo | GameFrog3d/main.js:234-238 | redo as written never changes the selection |
| Editor.UndoNeverSelects | GameFrog3d/main.js:228-238 | after a transform of an unselected object, undo and redo leave nothing selected |
| Editor.AppUndoSelecting | GameFrog3d/main.js:228-232 | undo selects the undone command's object and undoes it |
| Editor.AppRedoSelecting | GameFrog3d/main.js:234-238 | redo selects the redone command's object and re-executes it |
| Editor.KeyDown | GameFrog3d/main.js:222-225 | Ctrl+Z (either case) runs undo as written and Ctrl+Y runs redo as written. Every other key does nothing |
| Editor.KeyDownSelecting | GameFrog3d/main.js:222-225 | the same shortcuts with the undo and redo that select the command's object |
| Editor.GizmoDragStart | GameFrog3d/main.js:71-75 | the duplicate handle duplicates the gizmo's target. The other handles leave the scene as it is |
| Editor.GizmoDragMove | GameFrog3d/main.js:71-75 | a gizmo drag rewrites only the target's transform |
| Editor.GizmoDragEnd | GameFrog3d/main.js:71-75 | ending a gizmo drag records the drag with the gizmo's shared drag-start snapshot as the old state, or records nothing without a drag. The snapshot itself is kept |
| Editor.GizmoDragEndCopying | GameFrog3d/main.js:71-75 | ending a gizmo drag records the drag with a copy of the drag-start snapshot |
| Editor.GizmoDragEndThenUndoRestores | GameFrog3d/main.js:71-75 | undoing right after a gizmo drag restores the target to the drag-start snapshot, with or without the copy |
| Editor.PointerDownKeepsValid | GameFrog3d/main.js:240-267 | the press handler keeps the app's invariant |
| Editor.PointerMoveKeepsValid | GameFrog3d/main.js:269-286 | the move handler keeps the app's invariant |
| Editor.PointerUpKeepsValid | GameFrog3d/main.js:293-308 | the release handler keeps the app's invariant |
| Editor.DeleteKeepsValid | GameFrog3d/main.js:377-383 | deleting keeps the app's invariant |
| Editor.AddPrimitiveKeepsValid | GameFrog3d/main.js:316-334 | adding a primitive keeps the app's invariant |
| Editor.DuplicateKeepsValid | GameFrog3d/main.js:385-399 | duplicating keeps the app's invariant |
| Editor.KeyDownKeepsValid | GameFrog3d/main.js:222-238 | the shortcuts keep the app's invariant, both as written and with the selecting undo and redo |
| Editor.PressReleaseRecordsNothing | GameFrog3d/main.js:256-308 | pressing and releasing the selected object without moving records nothing and ends the drag |
| Editor.DragThenUndoRestores | GameFrog3d/main.js:228-308 | dragging the selected object to a new spot records one command. Undo as written puts the object back, and the object stays selected |
| Editor.DeleteThenUndoRestoresScene | GameFrog3d/main.js:228-383 | deleting the selection and undoing as written restores the scene but leaves nothing selected |
| Editor.DeleteThenUndoReselects | GameFrog3d/main.js:228-383 | with the selecting undo, undoing a delete restores the scene and the selection |
| Editor.DuplicateThenUndoRemovesCopy | GameFrog3d/main.js:228-399 | duplicating a primitive and undoing as written restores the object list and the rendered set, while the removed copy stays selected |
| WorldEditor.NewWorldEditor | GameFrog3d/WorldEditor.js:6-26 | the editor starts with the default generation parameters (all scales non-zero), no active tab, and the panels as the page markup shows them |
| WorldEditor.ShowTools | GameFrog3d/WorldEditor.js:48-54 | the tools panel alone is shown and no tool is active |
| WorldEditor.HideAll | GameFrog3d/WorldEditor.js:56-59 | the container is hidden, the panels keep their flags, and no tool is active |
| WorldEditor.OpenStylePanel | GameFrog3d/WorldEditor.js:32-37 | only panel visibility changes, so an active terrain tool stays active |
| WorldEditor.SetActiveToolAndTab | GameFrog3d/WorldEditor.js:201-215 | the tab and tool are set. The sculpt tab resets the sculpt type to raise and the paint tab resets the paint type to grass. Nothing else changes |
| WorldEditor.OpenTerrainPanel | GameFrog3d/WorldEditor.js:39-45 | the terrain panel alone opens on the generate tab, with no tool |
| WorldEditor.TabTool | GameFrog3d/WorldEditor.js:227 | the tool map arms sculpt exactly on the sculpt tab and paint exactly on the paint tab |
| WorldEditor.TabButton | GameFrog3d/WorldEditor.js:225-229 | a tab button sets that tab with its mapped tool |
| WorldEditor.TabToolTable | GameFrog3d/WorldEditor.js:227 | the four tabs map to none, sculpt, paint and none |
| WorldEditor.TabButtonArmsTool | GameFrog3d/WorldEditor.js:201-229 | a tab button arms sculpt (with raise) or paint (with grass, colour kept) exactly on the matching tab |
| WorldEditor.SculptBrushButton | GameFrog3d/WorldEditor.js:239-243 | a sculpt brush button sets the brush type alone |
| WorldEditor.ColorMap | GameFrog3d/WorldEditor.js:248-253 | the colour map knows exactly rock, grass, sand and erase |
| WorldEditor.ColorMapChannels | GameFrog3d/WorldEditor.js:248-253 | each colour is one full channel: rock red, grass green, sand blue, and erase the same green as grass |
| WorldEditor.SelectTexture | GameFrog3d/WorldEditor.js:244-257 | a texture button sets the paint type and its one-channel colour, and keeps size and strength. Erase paints grass green |
| WorldEditor.GetParam | GameFrog3d/WorldEditor.js:19-23 | exactly the seven generation parameters are readable |
| WorldEditor.SetParam | GameFrog3d/WorldEditor.js:275 | storing a known key changes that parameter alone |
| WorldEditor.SetParamGetParam | GameFrog3d/WorldEditor.js:275 | a stored value reads back, and storing the current value changes nothing |
| WorldEditor.StripGenPrefix | GameFrog3d/WorldEditor.js:273 | `replace('gen-', '')` strips the slider id's prefix |
| WorldEditor.DashBetweenWords | GameFrog3d/WorldEditor.js:273 | replacing dashes turns `a-b` into `a_b` |
| WorldEditor.SplitTwoWords | GameFrog3d/WorldEditor.js:274 | `split('_')` of `a_b` gives the two words |
| WorldEditor.SliderKeyTwoWords | GameFrog3d/WorldEditor.js:273-274 | a `gen-a-b` slider id becomes the camel-case key aB |
| WorldEditor.RenderedKeysKnown | GameFrog3d/WorldEditor.js:102-119 | the five rendered sliders' keys are generation parameters, and none is persistence or lacunarity |
| WorldEditor.RenderedSlidersNameParams | GameFrog3d/WorldEditor.js:272-275 | every rendered generation slider updates one of the seven parameters |
| WorldEditor.WaterLevelSlider | GameFrog3d/WorldEditor.js:273-274 | the `gen-water-level` slider sets `waterLevel` |
| WorldEditor.BrushProp | GameFrog3d/WorldEditor.js:281 | a brush slider sets size exactly when its id contains "size", and strength otherwise |
| WorldEditor.SliderInput | GameFrog3d/WorldEditor.js:265-298 | a generation slider stores its parameter and regenerates the terrain. A sculpt or paint brush slider sets that brush's size or strength. Nothing else changes |
| WorldEditor.GenSliderStage | GameFrog3d/WorldEditor.js:272-278 | a generation slider stores its parameter and regenerates the heights, leaving the brushes and the splat map alone |
| WorldEditor.SculptSliderStage | GameFrog3d/WorldEditor.js:280-284 | a sculpt brush slider sets the sculpt brush's size or strength alone |
| WorldEditor.PaintSliderStage | GameFrog3d/WorldEditor.js:286-290 | a paint brush slider sets the paint brush's size or strength alone |
| WorldEditor.BrushSliderRouting | GameFrog3d/WorldEditor.js:280-290 | the four rendered brush sliders each set the intended property |
| WorldEditor.GenerateButton | GameFrog3d/WorldEditor.js:230-233 | "Apply & Add Foliage" leaves the terrain alone. Its trees are the vegetation placement's trees, one per qualifying vertex up to 20000. Its blades are the grass placement's blades, up to 75000. All lie between heights 1 and 25 |
| WorldEditor.ResetButton | GameFrog3d/WorldEditor.js:234-238 | "Reset to Flat" resets the terrain, after which neither trees nor grass find anywhere to grow |
| WorldEditor.NoPlantableGroundWhenLow | GameFrog3d/main.js:170 | no grass site exists on ground lying entirely below height 1 |
| WorldEditor.RecreateButton | GameFrog3d/WorldEditor.js:258-262 | the recreate button rebuilds a flat terrain of the entered size and resolution, leaving the rest of the app alone |
| Input.DefaultActionMap | GameFrog3d/input.js:5-10 | the constructor binds three distinct actions |
| Input.ActionIndex | GameFrog3d/input.js:25 | an action's entry is found, or -1 exactly when the action is absent |
| Input.BindAction | GameFrog3d/input.js:24-28 | binding appends the input to an existing action's list, duplicates included, and ignores an unknown action |
| Input.BindKeepsDistinct | GameFrog3d/input.js:24-28 | binding keeps the action names distinct |
| Input.HandleIndex | GameFrog3d/input.js:33-38 | the search finds the first action listing the input, or -1 exactly when none does |
| Input.HandleInput | GameFrog3d/input.js:31-39 | an input triggers the first action, in map order, that lists it, or nothing exactly when no action lists it |
| Input.BoundInputTriggers | GameFrog3d/input.js:24-39 | after binding, the input triggers that action or an earlier action that already had it |
| Input.FreshBindingTriggersAction | GameFrog3d/input.js:24-39 | binding an input no action had makes it trigger exactly that action |
| Input.DefaultBindings | GameFrog3d/input.js:5-39 | Space jumps, KeyW moves forward, and KeyQ triggers nothing |
| Text.Lower | generate-assets.js:41 | `toLowerCase` maps each character and leaves no capital |
| Text.Trim | generate-assets.js:36 | the trimmed string is a slice of the original with only whitespace before and after it, and it neither starts nor ends with whitespace |
| Text.ReplaceChar | generate-assets.js:41 | a global one-character replace rewrites exactly the matching characters |
| Text.SpaceBeforeCapitals | generate-assets.js:34 | `replace(/([A-Z])/g, ' $1')` only adds spaces |
| Text.SpaceBeforeCapitalsNone | generate-assets.js:34 | a string without capitals is unchanged |
| Text.ReplaceFirst | GameFrog3d/WorldEditor.js:273 | replacing a string's own prefix drops the prefix |
| Text.SplitOn | GameFrog3d/WorldEditor.js:274 | `split` on one character gives at least one piece, none holding the separator |
| Text.JoinSplit | GameFrog3d/WorldEditor.js:274 | joining the pieces with the separator gives back the string |
| Text.Capitalise | GameFrog3d/WorldEditor.js:274 | `charAt(0).toUpperCase() + slice(1)` upper-cases the first character and keeps the rest |
| Assets.LastDot | generate-assets.js:30 | the last dot's position, with no dot after it |
| Assets.Extname | generate-assets.js:30 | `path.extname` is empty or a dotted suffix with no further dot, taken from the last dot unless the name starts with its only dot |
| Assets.Basename | generate-assets.js:31 | `path.basename(file, '.glb')` strips a trailing ".glb" and nothing else |
| Assets.ModelName | generate-assets.js:33-36 | the display name has no underscore and no surrounding whitespace |
| Assets.AssetId | generate-assets.js:41 | each id character is the base name's character lower-cased, with a space turned into an underscore. So the id has no capital and no space |
| Assets.AssetIdIdempotent | generate-assets.js:41 | an id is its own id |
| Assets.MakeAsset | generate-assets.js:40-46 | the id is the file name without ".glb", lower-cased and with spaces turned into underscores. The name is the display name of that stem. The path is the base URL followed by the file name, and the category is "Uncategorized" |
| Assets.ModelFiles | generate-assets.js:29-30 | the model files are exactly the listed files with a ".glb" extension in any case |
| Assets.AssetsFollowModelFiles | generate-assets.js:29-50 | the asset list has one asset per model file, in directory order |
| Assets.AssetsOfConcat | generate-assets.js:29-50 | the asset list of concatenated listings is the concatenation of their lists |
| Assets.GenerateAssetList | generate-assets.js:26-50 | the loop builds exactly the asset list of the listing |
| Assets.ExtnameOf | generate-assets.js:30 | a non-dot stem with a dotted suffix has that suffix as its extension |
| Assets.LowerCaseModelFile | generate-assets.js:29-46 | `stem.glb` is a model file whose asset is built from the stem |
| Assets.UpperCaseExtensionKept | generate-assets.js:30-41 | `stem.GLB` passes the filter, but its extension is not stripped, so its id ends in ".glb" |
| Assets.CamelCaseName | generate-assets.js:33-36 | a two-word camel-case stem is shown as the two words separated by a space |
| Assets.LettersId | generate-assets.js:41 | a base name of letters only has its lower-case form as its id |
| Assets.TreeOakExample | generate-assets.js:29-46 | `TreeOak.glb` becomes an asset named "Tree Oak" with id "treeoak" |
| Assets.DotFileSkipped | generate-assets.js:30 | a file named just ".glb" has no extension and is skipped |

## Left out

- I/O and rendering are not modelled: the file system, the DOM, the three.js scene graph, WebGL shaders, `console` output, the asset thumbnail URL (generate-assets.js:44), value-label text and CSS classes. Panel visibility is kept as four booleans.
- Noise (`createNoise2D`), `Math.random` and `Math.sqrt` are oracles passed in as parameters. The noise that `generate` creates afresh on each call is likewise a parameter.
- `computeVertexNormals` is not modelled. The normals used by the vegetation placement are an input.
- The raycasts against meshes in the pointer handlers are inputs: the terrain hit and the object hit. The pointer ray itself, from the camera through the pointer, is an input to `DragHit`. Walking up from a hit mesh to its top-level object is not part of this model.
- `addAssetToScene` (main.js:336-375) loads a model asynchronously through AssetManager. `DuplicateObject` returns the asset id it would request instead. AssetManager, SceneManager and UIManager are not part of this model.
- Texture loading, `setTextures` and `setBrightness` are not modelled. They only change the rendering.
- Numbers: JavaScript doubles and three.js Float32 vertex attributes are modelled as exact reals, with no rounding, NaN or Infinity.
- Terrain.RaisedHeight: the strict increase for positive strength holds for reals only. The height is stored as a float32, so a tiny increment near the brush edge (size 10, strength 0.05, distance 9.999 at height 20) rounds back to the old height.
- Terrain.LoweredHeight: the strict decrease holds for reals only, for the same float32 rounding.
- Terrain.BrushHeight: the strict raise and lower clauses hold for reals only, for the same float32 rounding.
- Terrain.SculptVertex: the strict raise and lower clauses inside the brush hold for reals only, for the same float32 rounding.
- Terrain paint channels are reals. The canvas stores each channel as a clamped and rounded byte; the model has neither the rounding nor the clamping, and `PaintStaysBetween` shows the clamping is never needed.
- Terrain.Generate requires `ScalesNonZero`, which excludes a zero `landmassScale` or `mountainScale`. JavaScript would divide by zero and produce Infinity or NaN heights, which reals cannot represent.
- WorldEditor.SliderInput requires `ScalesNonZero` of the updated parameters on a generation slider, for the same reason.
- WorldEditor.GenSliderStage requires `ScalesNonZero` of the updated parameters, for the same reason.
- Terrain.PlaneGrid requires at least one segment. The requirement excludes `parseInt` results of NaN, 0 or negatives, which three.js turns into degenerate geometry.
- Terrain.CreateMesh requires at least one segment, as PlaneGrid does.
- Terrain.Recreate requires at least one segment, as PlaneGrid does.
- WorldEditor.RecreateButton requires at least one segment, as PlaneGrid does. The size and segment fields are taken as already-parsed integers.
- WorldEditor.SelectTexture requires a known texture. An unknown texture would set the brush colour to `undefined`, and only the four palette buttons exist.
- WorldEditor.SetParam ignores an unknown key; JavaScript would store it as an extra property, which the generator never reads.
- Editor.UpdatePointer requires a canvas of positive width and height.
- Editor.AddNew requires a fresh identity for the new object, which three.js generates. The identity is a parameter.
- Editor.AddPrimitive requires a fresh identity, as AddNew does.
- Editor.DuplicateObject requires a fresh identity, as AddNew does.
- Editor.GizmoDragStart requires a fresh identity for a possible duplicate, as AddNew does.
- Editor.PointerUp: when a drag is in progress but no start snapshot exists, JavaScript throws; the model leaves the app unchanged in that case.
- The tool map's `undefined` tool for an unknown tab is folded into no tool.
- Assets: file names are assumed not to contain '/'. Case mapping is ASCII only, whereas JavaScript maps all of Unicode.
- Terrain.BlendChannelApproaches: the strict move toward the target holds for reals only. The canvas rounds each blended channel to a byte, so a small strength can leave a channel where it was.
- WorldEditor.GenerateButton: `createGrass` is asynchronous. It removes the old grass, then waits for the blade texture before adding the new blades, so for a while no grass is shown. The model places the blades at once.
- WorldEditor.ResetButton: the grass is replaced asynchronously, as for GenerateButton.
- WorldEditor.OpenTerrainPanel: each opening of the terrain panel renders the tabs again and registers the terrain listeners again (WorldEditor.js:92). Earlier listeners on the container stay, so after n openings one click runs generate, createVegetation and createGrass n times. The model runs each button once.
- WorldEditor.SliderInput: listeners stack in the same way, so a generation slider moved after n openings regenerates the terrain n times, and the last run decides the terrain. The model applies the input once, with one noise.
- WorldEditor.NewWorldEditor: the panels' visibility comes from the page markup, which is an input here. The model does not promise that the editor starts hidden.
- Input.BindAction: the action map is a plain object, so a name inherited from `Object.prototype` passes the lookup in input.js:25. For a name such as "toString", `push` is not a function and JavaScript throws a TypeError; for others such as "constructor" it may do something else. The model treats every name outside the map as unknown and ignores it.
- Input: the trigger's `console.log` is replaced by returning the triggered action. The context and control-layout fields are unused by the core and not modelled.

## Findings

| source | as written | input that shows it | evidently intended | confidence | as-written member | corrected member |
|---|---|---|---|---|---|---|
| GameFrog3d/GizmoManager.js:68-99 | `onDragEnd` hands its one reused `initialTransform` object (declared at GizmoManager.js:22-25) to the transform command as the old state; the next drag start overwrites that object in place, so every recorded command shares it | rotate the same object by two gizmo drags of 100 pixels each, then undo twice: the object ends 1 radian from where it started | each command keeps its own copy of the transform at drag start, so undoing both drags restores the original rotation | not executed | Gizmo.DragEnd, Gizmo.SharedInitialBreaksSecondUndo, Editor.GizmoDragEnd | Gizmo.DragEndCopying, Gizmo.CopiedInitialUndoesBothDrags, Editor.GizmoDragEndCopying |
| GameFrog3d/main.js:228-238 | `undo`/`redo` read `command.object`, but `HistoryManager.undo`/`redo` already return the command's object (HistoryManager.js:109, 120), so the property is undefined and the selection never changes | with nothing selected, transform an object through the history and press Ctrl+Z: nothing gets selected | undo and redo select the object the command acted on | not executed | Editor.AppUndo, Editor.AppRedo, Editor.KeyDown, Editor.UndoNeverSelects, Editor.DeleteThenUndoRestoresScene | Editor.AppUndoSelecting, Editor.AppRedoSelecting, Editor.KeyDownSelecting, Editor.DeleteThenUndoReselects |
| GameFrog3d/main.js:276-284 | the drag plane is `Plane(normal (0, 1, 0), constant h)`, with `h` the object's height at drag start. Three.js reads that as the plane at height `-h`, not the plane through the object | an object at height 1, the camera 10 above the origin, the pointer ray going down at 45 degrees along +x: the hit is at x == 11 instead of x == 9, so the object runs 2 units ahead of the pointer | the constant is `-h`, so the drag plane passes through the object and the object stays under the pointer | not executed | Editor.DragHit, Editor.DragPlaneHitMirrored, Editor.DragPlaneOvershoots, Editor.DragMissesPointer | Editor.LevelDragHit, Editor.LevelDragPlaneHitLevel, Editor.LevelDragFollowsPointer |
