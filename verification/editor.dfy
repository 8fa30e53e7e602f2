/** The editor application: selection, the pointer state machine that
    switches between terrain editing, object dragging and picking, the
    sculpt/paint dispatch, deleting and duplicating objects, the undo/redo
    shortcuts, and the wiring of the gizmo's callbacks into the history.
    Ray casts against meshes are inputs: a terrain hit and the picked
    top-level object; the drag's ray-plane hit is computed. */
module Editor {
  import opened Common
  import opened Text
  import opened History
  import opened Terrain
  import opened Gizmo
  import opened Placement

  /** `activeTool`: 'none', 'sculpt' or 'paint'. */
  datatype Tool = NoTool | SculptTool | PaintTool

  /** `userData.type` ('primitive' or 'model', with the model's asset id). */
  datatype Kind = Primitive | Model(assetId: string)

  /** An object's name and user data. */
  datatype Meta = Meta(name: string, kind: Kind)

  /** The first intersection with the terrain mesh. */
  datatype Hit = Hit(point: Vec3, uv: Option<Uv>)

  datatype App = App(
    scene: Scene, meta: map<Id, Meta>, selected: Option<Id>,
    isDraggingObject: bool, dragStartState: Option<Transform>,
    isEditingTerrain: bool, controlsEnabled: bool,
    activeTool: Tool, terrainBrush: SculptBrush, paintBrush: PaintBrush,
    terrain: TerrainState, log: Log, gizmo: GizmoState,
    trees: seq<Tree>, blades: seq<Blade>)

  /** The state every handler keeps: a well-formed splat raster, a drag
      snapshot whenever an object drag is under way, the gizmo attached to
      the selection, and history buttons that match the stacks. */
  ghost predicate Valid(app: App)
  {
    && RasterShaped(app.terrain.splat)
    && (app.isDraggingObject ==> app.dragStartState.Some?)
    && app.gizmo.target == app.selected
    && ButtonsAccurate(app.log)
  }

  /** The constructor's state, with the terrain as `init` builds it. */
  function NewApp(): (app: App)
    ensures Valid(app)
    ensures app.selected == None && app.scene.objects == [] && app.activeTool == NoTool
    ensures app.terrainBrush == SculptBrush("raise", 10.0, 0.5)
    ensures app.paintBrush == PaintBrush("grass", GrassColor, 15.0, 0.1)
  {
    App(Scene([], {}, map[]), map[], None, false, None, false, true, NoTool,
        SculptBrush("raise", 10.0, 0.5), PaintBrush("grass", Rgb(0.0, 255.0, 0.0), 15.0, 0.1),
        InitialTerrain(), NewLog(), NewGizmo(), [], [])
  }

  /** A three.js object's name and user data, with the defaults (empty name,
      no type) for an object the editor never labelled. */
  function MetaOf(app: App, o: Id): Meta
  {
    if o in app.meta then app.meta[o] else Meta("", Primitive)
  }

  /** `selectObject(object)`: the gizmo follows the selection. */
  function SelectObject(app: App, o: Option<Id>): (r: App)
    ensures r.selected == o && r.gizmo.target == o
    ensures r.gizmo.isDragging == app.gizmo.isDragging && r.gizmo.initial == app.gizmo.initial
    ensures r.(selected := app.selected, gizmo := app.gizmo) == app
  {
    app.(selected := o, gizmo := if o.Some? then Show(app.gizmo, o.value) else Hide(app.gizmo))
  }

  // ---------------------------------------------------------------------------
  // Terrain editing

  /** `editOrPaintTerrain(intersection)`: sculpt with the sculpt tool, paint
      with the paint tool, nothing otherwise. */
  function EditOrPaintTerrain(app: App, hit: Hit, sqrt: real -> real): (r: App)
    requires IsSqrt(sqrt) && RasterShaped(app.terrain.splat)
    ensures r.(terrain := app.terrain) == app
    ensures RasterShaped(r.terrain.splat)
    ensures app.activeTool == NoTool ==> r == app
    ensures app.activeTool == SculptTool ==>
      && r.terrain.splat == app.terrain.splat
      && |r.terrain.grid| == |app.terrain.grid|
      && (forall i :: 0 <= i < |r.terrain.grid| ==>
            r.terrain.grid[i].x == app.terrain.grid[i].x && r.terrain.grid[i].z == app.terrain.grid[i].z)
      && (forall i :: 0 <= i < |r.terrain.grid| && Distance(app.terrain.grid[i], hit.point, sqrt) >= app.terrainBrush.size ==>
            r.terrain.grid[i] == app.terrain.grid[i])
    ensures app.activeTool == PaintTool ==>
      && r.terrain.grid == app.terrain.grid
      && (hit.uv.None? ==> r == app)
      && r.terrain.splat == Paint(app.terrain.splat, hit.uv, app.paintBrush, sqrt)
  {
    match app.activeTool
    case SculptTool => app.(terrain := app.terrain.(grid := Sculpt(app.terrain.grid, hit.point, app.terrainBrush, sqrt)))
    case PaintTool => app.(terrain := app.terrain.(splat := Paint(app.terrain.splat, hit.uv, app.paintBrush, sqrt)))
    case NoTool => app
  }

  // ---------------------------------------------------------------------------
  // The pointer state machine

  /** `onPointerDown`. `onPanel` is a press on the editor's own UI; the
      hits are those of the pointer ray. */
  function PointerDown(app: App, onPanel: bool, terrainHit: Option<Hit>, objectHit: Option<Id>, sqrt: real -> real): (r: App)
    requires IsSqrt(sqrt) && RasterShaped(app.terrain.splat)
    ensures RasterShaped(r.terrain.splat)
    ensures onPanel ==> r == app
    ensures !onPanel && terrainHit.Some? && app.activeTool != NoTool ==>
      && r.isEditingTerrain && !r.controlsEnabled
      && r.selected == app.selected && r.isDraggingObject == app.isDraggingObject
      && r == EditOrPaintTerrain(app, terrainHit.value, sqrt).(isEditingTerrain := true, controlsEnabled := false)
    ensures !onPanel && (terrainHit.None? || app.activeTool == NoTool) ==>
      && r.terrain == app.terrain && r.isEditingTerrain == app.isEditingTerrain
      && (objectHit.Some? && objectHit == app.selected ==>
            r.isDraggingObject && !r.controlsEnabled && r.selected == app.selected &&
            r.dragStartState == Some(TransformOf(app.scene, objectHit.value)))
      && (objectHit != app.selected ==>
            r.selected == objectHit && r.isDraggingObject == app.isDraggingObject)
      && (objectHit.None? ==> r.selected == None)
  {
    if onPanel then app
    else if terrainHit.Some? && app.activeTool != NoTool then
      EditOrPaintTerrain(app, terrainHit.value, sqrt).(isEditingTerrain := true, controlsEnabled := false)
    else match objectHit
      case Some(o) =>
        if app.selected == Some(o) then
          app.(isDraggingObject := true, controlsEnabled := false, dragStartState := Some(TransformOf(app.scene, o)))
        else SelectObject(app, Some(o))
      case None => SelectObject(app, None)
  }

  // ---------------------------------------------------------------------------
  // The drag plane

  /** A three.js `Plane(normal, constant)`: the points `p` with
      `normal . p + constant == 0`. */
  datatype Plane = Plane(normal: Vec3, constant: real)

  function Dot(a: Vec3, b: Vec3): real
  {
    a.x * b.x + a.y * b.y + a.z * b.z
  }

  predicate OnPlane(pl: Plane, p: Vec3)
  {
    Dot(pl.normal, p) + pl.constant == 0.0
  }

  /** The point `t` direction-lengths along the ray. */
  function At(origin: Vec3, dir: Vec3, t: real): Vec3
  {
    Vec3(origin.x + dir.x * t, origin.y + dir.y * t, origin.z + dir.z * t)
  }

  lemma DotAt(n: Vec3, origin: Vec3, dir: Vec3, t: real)
    ensures Dot(n, At(origin, dir, t)) == Dot(n, origin) + t * Dot(n, dir)
  {
  }

  /** The ray parameter three.js solves for: `t` with
      `k + t * d == 0`, for `d != 0`. */
  function Crossing(k: real, d: real): (t: real)
    requires d != 0.0
    ensures k + t * d == 0.0
  {
    -k / d
  }

  /** `Ray.intersectPlane`: a ray parallel to the plane meets it only when
      it starts on it (at its origin); otherwise the crossing point counts
      only when it lies ahead of the origin. */
  function IntersectPlane(origin: Vec3, dir: Vec3, pl: Plane): (r: Option<Vec3>)
    ensures r.Some? ==> OnPlane(pl, r.value)
  {
    var d := Dot(pl.normal, dir);
    var k := Dot(pl.normal, origin) + pl.constant;
    if d == 0.0 then
      if k == 0.0 then Some(origin) else None
    else
      var t := Crossing(k, d);
      DotAt(pl.normal, origin, dir, t);
      if t >= 0.0 then Some(At(origin, dir, t)) else None
  }

  /** The hit lies on the ray, ahead of its origin. */
  lemma IntersectPlaneAhead(origin: Vec3, dir: Vec3, pl: Plane)
    ensures var r := IntersectPlane(origin, dir, pl);
      r.Some? ==> exists t: real :: t >= 0.0 && r.value == At(origin, dir, t)
  {
    var r := IntersectPlane(origin, dir, pl);
    if r.Some? {
      if Dot(pl.normal, dir) == 0.0 {
        assert r.value == At(origin, dir, 0.0);
      } else {
        var t := Crossing(Dot(pl.normal, origin) + pl.constant, Dot(pl.normal, dir));
        assert t >= 0.0 && r.value == At(origin, dir, t);
      }
    }
  }

  /** No hit means the ray never meets the plane ahead of its origin. */
  lemma IntersectPlaneComplete(origin: Vec3, dir: Vec3, pl: Plane, u: real)
    requires u >= 0.0 && OnPlane(pl, At(origin, dir, u))
    ensures IntersectPlane(origin, dir, pl).Some?
  {
    var d := Dot(pl.normal, dir);
    var k := Dot(pl.normal, origin) + pl.constant;
    DotAt(pl.normal, origin, dir, u);
    assert k + u * d == 0.0;
    if d != 0.0 {
      var t := Crossing(k, d);
      MulCancelUnique(u, t, d, -k);
    }
  }

  /** `u * d == t * d` with `d != 0` forces `u == t`. */
  lemma MulCancelUnique(u: real, t: real, d: real, m: real)
    requires d != 0.0 && t * d == m && u * d == m
    ensures u == t
  {
    assert (u - t) * d == 0.0;
  }

  /** The plane `onPointerMove` builds: normal +y and, as constant, the
      snapshot's height. Three.js reads that as the plane `y == -height`. */
  function DragPlane(start: Transform): Plane
  {
    Plane(Vec3(0.0, 1.0, 0.0), start.position.y)
  }

  /** The horizontal plane through the snapshot's height. */
  function LevelDragPlane(start: Transform): Plane
  {
    Plane(Vec3(0.0, 1.0, 0.0), -start.position.y)
  }

  /** The drag hit as written lies at the mirrored height. */
  lemma DragPlaneHitMirrored(start: Transform, origin: Vec3, dir: Vec3)
    ensures var h := IntersectPlane(origin, dir, DragPlane(start));
      h.Some? ==> h.value.y == -start.position.y
  {
  }

  /** The hit with the level plane lies at the object's height. */
  lemma LevelDragPlaneHitLevel(start: Transform, origin: Vec3, dir: Vec3)
    ensures var h := IntersectPlane(origin, dir, LevelDragPlane(start));
      h.Some? ==> h.value.y == start.position.y
  {
  }

  /** A camera 10 above the origin looking down at 45 degrees along +x, with
      an object at height 1: the level plane is met at x == 9, right under
      the pointer's view of the object's height, but the plane as written
      (y == -1) is met at x == 11, so the dragged object slides 2 units past
      the pointer. */
  lemma DragPlaneOvershoots(start: Transform, origin: Vec3, dir: Vec3)
    requires start.position.y == 1.0
    requires origin == Vec3(0.0, 10.0, 0.0) && dir == Vec3(1.0, -1.0, 0.0)
    ensures IntersectPlane(origin, dir, DragPlane(start)) == Some(Vec3(11.0, -1.0, 0.0))
    ensures IntersectPlane(origin, dir, LevelDragPlane(start)) == Some(Vec3(9.0, 1.0, 0.0))
  {
    assert Dot(Vec3(0.0, 1.0, 0.0), dir) == -1.0;
    assert Dot(Vec3(0.0, 1.0, 0.0), origin) == 10.0;
    assert Crossing(11.0, -1.0) == 11.0;
    assert Crossing(9.0, -1.0) == 9.0;
    assert At(origin, dir, 11.0) == Vec3(11.0, -1.0, 0.0);
    assert At(origin, dir, 9.0) == Vec3(9.0, 1.0, 0.0);
  }

  /** What `onPointerMove` feeds the drag as written: the pointer ray's hit
      with `DragPlane` of the drag snapshot. */
  function DragHit(app: App, origin: Vec3, dir: Vec3): (r: Option<Vec3>)
    ensures r.Some? ==> app.dragStartState.Some? && r.value.y == -app.dragStartState.value.position.y
  {
    match app.dragStartState
    case None => None
    case Some(start) =>
      DragPlaneHitMirrored(start, origin, dir);
      IntersectPlane(origin, dir, DragPlane(start))
  }

  /** The drag hit with the level plane. */
  function LevelDragHit(app: App, origin: Vec3, dir: Vec3): (r: Option<Vec3>)
    ensures r.Some? ==> app.dragStartState.Some? && r.value.y == app.dragStartState.value.position.y
  {
    match app.dragStartState
    case None => None
    case Some(start) =>
      LevelDragPlaneHitLevel(start, origin, dir);
      IntersectPlane(origin, dir, LevelDragPlane(start))
  }

  /** `onPointerMove`. `planeHit` is where the pointer ray meets the plane
      the handler builds for the drag (`DragHit`), if it does. */
  function PointerMove(app: App, terrainHit: Option<Hit>, planeHit: Option<Vec3>, sqrt: real -> real): (r: App)
    requires IsSqrt(sqrt) && RasterShaped(app.terrain.splat)
    ensures RasterShaped(r.terrain.splat)
    ensures app.isEditingTerrain ==> r.scene == app.scene
    ensures app.isEditingTerrain && terrainHit.Some? ==> r == EditOrPaintTerrain(app, terrainHit.value, sqrt)
    ensures !app.isEditingTerrain ==> r.(scene := app.scene) == app
    ensures !app.isEditingTerrain && app.isDraggingObject && app.selected.Some? && planeHit.Some? ==>
      var o := app.selected.value;
      var before := TransformOf(app.scene, o);
      var after := TransformOf(r.scene, o);
      && after.position == Vec3(planeHit.value.x, before.position.y, planeHit.value.z)
      && after.rotation == before.rotation && after.scale == before.scale
    ensures forall p: Id :: (app.selected != Some(p) || app.isEditingTerrain) ==> TransformOf(r.scene, p) == TransformOf(app.scene, p)
    ensures r.scene.objects == app.scene.objects && r.scene.rendered == app.scene.rendered
  {
    if app.isEditingTerrain then
      if terrainHit.Some? then EditOrPaintTerrain(app, terrainHit.value, sqrt) else app
    else if app.isDraggingObject && app.selected.Some? && planeHit.Some? then
      var o := app.selected.value;
      var t := TransformOf(app.scene, o);
      app.(scene := SetTransform(app.scene, o, t.(position := t.position.(x := planeHit.value.x, z := planeHit.value.z))))
    else app
  }

  /** With the level plane, a drag puts the object on the pointer ray: its
      new position is the hit itself. */
  lemma LevelDragFollowsPointer(app: App, origin: Vec3, dir: Vec3, sqrt: real -> real)
    requires IsSqrt(sqrt) && RasterShaped(app.terrain.splat)
    requires !app.isEditingTerrain && app.isDraggingObject && app.selected.Some? && app.dragStartState.Some?
    requires TransformOf(app.scene, app.selected.value).position.y == app.dragStartState.value.position.y
    ensures var h := LevelDragHit(app, origin, dir);
      h.Some? ==> TransformOf(PointerMove(app, None, h, sqrt).scene, app.selected.value).position == h.value
  {
  }

  /** As written, a drag of an object off the ground never puts it at the
      hit: the hit is at the mirrored height. */
  lemma DragMissesPointer(app: App, origin: Vec3, dir: Vec3, sqrt: real -> real)
    requires IsSqrt(sqrt) && RasterShaped(app.terrain.splat)
    requires !app.isEditingTerrain && app.isDraggingObject && app.selected.Some? && app.dragStartState.Some?
    requires TransformOf(app.scene, app.selected.value).position.y == app.dragStartState.value.position.y != 0.0
    ensures var h := DragHit(app, origin, dir);
      h.Some? ==> TransformOf(PointerMove(app, None, h, sqrt).scene, app.selected.value).position != h.value
  {
  }

  /** `onPointerUp`: a drag that moved the object is recorded as a transform
      command holding copies of both states. A drag flag without a snapshot
      cannot occur in a valid state (reading the snapshot would throw); the
      model then leaves the state alone. */
  function PointerUp(app: App): (r: App)
    ensures r.scene == app.scene && r.selected == app.selected && r.terrain == app.terrain
    ensures app.isDraggingObject && app.selected.Some? && app.dragStartState.None? ==> r == app
    ensures !(app.isDraggingObject && app.selected.Some? && app.dragStartState.None?) ==>
      && !r.isEditingTerrain && r.controlsEnabled
      && (app.isDraggingObject && app.selected.Some? ==> !r.isDraggingObject)
      && (!(app.isDraggingObject && app.selected.Some?) ==> r.log == app.log && r.isDraggingObject == app.isDraggingObject)
    ensures app.isDraggingObject && app.selected.Some? && app.dragStartState.Some? ==>
      var o := app.selected.value;
      var now := TransformOf(app.scene, o);
      var start := app.dragStartState.value;
      && (now.position == start.position ==> r.log == app.log)
      && (now.position != start.position ==> r.log == Add(app.log, TransformObject(o, Copied(start), now)))
  {
    if app.isDraggingObject && app.selected.Some? then
      match app.dragStartState
      case None => app
      case Some(start) =>
        var o := app.selected.value;
        var now := TransformOf(app.scene, o);
        var log := if now.position != start.position then Add(app.log, TransformObject(o, Copied(start), now)) else app.log;
        app.(log := log, isDraggingObject := false, isEditingTerrain := false, controlsEnabled := true)
    else app.(isEditingTerrain := false, controlsEnabled := true)
  }

  /** `updatePointer`: canvas coordinates to normalised device coordinates. */
  function UpdatePointer(clientX: real, clientY: real, left: real, top: real, width: real, height: real): (ndc: Vec3)
    requires width > 0.0 && height > 0.0
    ensures left <= clientX <= left + width ==> -1.0 <= ndc.x <= 1.0
    ensures top <= clientY <= top + height ==> -1.0 <= ndc.y <= 1.0
  {
    var u := (clientX - left) / width;
    var v := (clientY - top) / height;
    UnitDivision(clientX - left, width);
    UnitDivision(clientY - top, height);
    Vec3(u * 2.0 - 1.0, -v * 2.0 + 1.0, 0.0)
  }

  lemma UnitDivision(a: real, w: real)
    requires w > 0.0
    ensures 0.0 <= a <= w ==> 0.0 <= a / w <= 1.0
  {
  }

  /** The gizmo's placement inverts the pointer mapping: the pixel position
      `updatePosition` computes for the NDC `updatePointer` produced is the
      pointer's offset inside the canvas. */
  lemma PointerAndGizmoMappingsInverse(g: GizmoState, clientX: real, clientY: real, left: real, top: real, width: real, height: real)
    requires width > 0.0 && height > 0.0 && g.target.Some?
    ensures UpdatePosition(g, UpdatePointer(clientX, clientY, left, top, width, height), width, height)
      == ShownAt(clientX - left, clientY - top)
  {
    var ndc := UpdatePointer(clientX, clientY, left, top, width, height);
    var u := (clientX - left) / width;
    var v := (clientY - top) / height;
    assert ndc.x * 0.5 + 0.5 == u;
    assert ndc.y * -0.5 + 0.5 == v;
    assert u * width == clientX - left;
    assert v * height == clientY - top;
  }

  // ---------------------------------------------------------------------------
  // Deleting, adding and duplicating objects

  /** `deleteSelectedObject`: execute and record a delete of the selection,
      then select nothing. */
  function DeleteSelectedObject(app: App): (r: App)
    ensures app.selected.None? ==> r == app
    ensures app.selected.Some? ==>
      var o := app.selected.value;
      var c := DeleteObject(o, IndexOf(app.scene.objects, o));
      && r.selected == None && r.gizmo.target == None
      && r.log == Add(app.log, c)
      && r.scene.rendered == app.scene.rendered - {o}
      && (o in app.scene.objects ==> |r.scene.objects| == |app.scene.objects| - 1)
      && (o in app.scene.objects ==> multiset(r.scene.objects) == multiset(app.scene.objects) - multiset{o})
      && (o !in app.scene.objects ==> r.scene.objects == app.scene.objects)
      && r.scene.transforms == app.scene.transforms
  {
    match app.selected
    case None => app
    case Some(o) =>
      var c := DeleteObject(o, IndexOf(app.scene.objects, o));
      SelectObject(app.(scene := Execute(c, app.scene), log := Add(app.log, c)), None)
  }

  /** Executing, recording and selecting a new object, as `addPrimitive`
      and `duplicateObject` both do. `newId` is the new object's identity. */
  function AddNew(app: App, newId: Id, m: Meta, t: Transform): (r: App)
    requires newId !in app.scene.objects && newId !in app.scene.rendered
    ensures r.scene.objects == app.scene.objects + [newId] && newId in r.scene.rendered
    ensures TransformOf(r.scene, newId) == t && MetaOf(r, newId) == m
    ensures forall p :: p != newId ==> TransformOf(r.scene, p) == TransformOf(app.scene, p)
    ensures r.log == Add(app.log, AddObject(newId))
    ensures r.selected == Some(newId) && r.gizmo.target == Some(newId)
  {
    var s := SetTransform(app.scene, newId, t);
    SelectObject(app.(scene := Execute(AddObject(newId), s), meta := app.meta[newId := m],
                      log := Add(app.log, AddObject(newId))), Some(newId))
  }

  /** `addPrimitive(shapeType)`: a 2-unit shape resting on the ground, named
      after its shape with the first letter capitalised. */
  function AddPrimitive(app: App, shape: string, newId: Id): (r: App)
    requires newId !in app.scene.objects && newId !in app.scene.rendered
    ensures r.scene.objects == app.scene.objects + [newId] && r.selected == Some(newId)
    ensures MetaOf(r, newId).kind == Primitive && |MetaOf(r, newId).name| == |shape|
    ensures MetaOf(r, newId).name == Capitalise(shape)
    ensures |shape| > 0 ==> MetaOf(r, newId).name[0] == AsciiUpper(shape[0]) && MetaOf(r, newId).name[1..] == shape[1..]
    ensures TransformOf(r.scene, newId).position == Vec3(0.0, 1.0, 0.0)
    ensures r.log == Add(app.log, AddObject(newId))
  {
    AddNew(app, newId, Meta(Capitalise(shape), Primitive),
           IdentityTransform.(position := Vec3(0.0, 1.0, 0.0)))
  }

  /** What `duplicateObject` does besides updating the app: a model is
      re-added from its asset (asynchronously), by asset id. */
  datatype Duplicate = Duplicate(app: App, assetRequest: Option<string>)

  /** `duplicateObject(objectToClone)`: a primitive gets a clone shifted 1.5
      along x and named with a "_copy" suffix; a model is loaded again. */
  function DuplicateObject(app: App, o: Option<Id>, newId: Id): (r: Duplicate)
    requires newId !in app.scene.objects && newId !in app.scene.rendered
    ensures o.None? ==> r == Duplicate(app, None)
    ensures o.Some? && MetaOf(app, o.value).kind.Model? ==>
      r == Duplicate(app, Some(MetaOf(app, o.value).kind.assetId))
    ensures o.Some? && MetaOf(app, o.value).kind == Primitive ==>
      var src := TransformOf(app.scene, o.value);
      var t := TransformOf(r.app.scene, newId);
      && r.assetRequest == None
      && r.app.scene.objects == app.scene.objects + [newId]
      && t.position == src.position.(x := src.position.x + 1.5)
      && t.rotation == src.rotation && t.scale == src.scale
      && MetaOf(r.app, newId) == Meta(MetaOf(app, o.value).name + "_copy", Primitive)
      && r.app.selected == Some(newId)
      && r.app.log == Add(app.log, AddObject(newId))
  {
    match o
    case None => Duplicate(app, None)
    case Some(src) =>
      var m := MetaOf(app, src);
      if m.kind.Model? then Duplicate(app, Some(m.kind.assetId))
      else
        var t := TransformOf(app.scene, src);
        Duplicate(AddNew(app, newId, Meta(m.name + "_copy", Primitive),
                         t.(position := t.position.(x := t.position.x + 1.5))), None)
  }

  // ---------------------------------------------------------------------------
  // Undo and redo

  /** `undo()` as written: the history hands back the object, and reading
      `.object` off it yields nothing, so the selection never moves. */
  function AppUndo(app: App): (r: App)
    ensures r.selected == app.selected && r.gizmo == app.gizmo
    ensures var u := UndoStep(app.log, app.scene, app.gizmo.initial); r.log == u.log && r.scene == u.scene
  {
    var u := UndoStep(app.log, app.scene, app.gizmo.initial);
    app.(log := u.log, scene := u.scene)
  }

  function AppRedo(app: App): (r: App)
    ensures r.selected == app.selected && r.gizmo == app.gizmo
    ensures var u := RedoStep(app.log, app.scene); r.log == u.log && r.scene == u.scene
  {
    var u := RedoStep(app.log, app.scene);
    app.(log := u.log, scene := u.scene)
  }

  /** Undoing a transform of an object that is not selected leaves the
      selection where it was: the `.object` test can never pass. */
  lemma UndoNeverSelects(app: App, o: Id, prior: OldState, t: Transform)
    requires app.selected == None
    ensures var a := app.(log := Add(app.log, TransformObject(o, prior, t)));
      AppUndo(a).selected == None && AppRedo(AppUndo(a)).selected == None
  {
  }

  /** `undo()` selecting the object of the undone command, as the `.object`
      test intends. */
  function AppUndoSelecting(app: App): (r: App)
    ensures |app.log.undoStack| == 0 ==> r == app
    ensures |app.log.undoStack| > 0 ==>
      var c := app.log.undoStack[|app.log.undoStack| - 1];
      && r.selected == Some(c.obj) && r.gizmo.target == Some(c.obj)
      && r.scene == Undo(c, app.scene, app.gizmo.initial)
      && r.log.redoStack == app.log.redoStack + [c]
  {
    var u := UndoStep(app.log, app.scene, app.gizmo.initial);
    var a := app.(log := u.log, scene := u.scene);
    if u.returned.Some? then SelectObject(a, u.returned) else a
  }

  function AppRedoSelecting(app: App): (r: App)
    ensures |app.log.redoStack| == 0 ==> r == app
    ensures |app.log.redoStack| > 0 ==>
      var c := app.log.redoStack[|app.log.redoStack| - 1];
      && r.selected == Some(c.obj) && r.gizmo.target == Some(c.obj)
      && r.scene == Execute(c, app.scene)
      && r.log.undoStack == app.log.undoStack + [c]
  {
    var u := RedoStep(app.log, app.scene);
    var a := app.(log := u.log, scene := u.scene);
    if u.returned.Some? then SelectObject(a, u.returned) else a
  }

  /** The keyboard shortcuts: Ctrl+Z undoes, Ctrl+Y redoes (either case),
      through `undo()` and `redo()` as written. */
  function KeyDown(app: App, ctrl: bool, key: string): (r: App)
    ensures !ctrl || key !in {"z", "Z", "y", "Y"} ==> r == app
    ensures ctrl && key in {"z", "Z"} ==> r == AppUndo(app)
    ensures ctrl && key in {"y", "Y"} ==> r == AppRedo(app)
  {
    if ctrl && (key == "z" || key == "Z") then AppUndo(app)
    else if ctrl && (key == "y" || key == "Y") then AppRedo(app)
    else app
  }

  /** The keyboard shortcuts with `undo()` and `redo()` selecting the object
      of the command they replay. */
  function KeyDownSelecting(app: App, ctrl: bool, key: string): (r: App)
    ensures !ctrl || key !in {"z", "Z", "y", "Y"} ==> r == app
    ensures ctrl && key in {"z", "Z"} ==> r == AppUndoSelecting(app)
    ensures ctrl && key in {"y", "Y"} ==> r == AppRedoSelecting(app)
  {
    if ctrl && (key == "z" || key == "Z") then AppUndoSelecting(app)
    else if ctrl && (key == "y" || key == "Y") then AppRedoSelecting(app)
    else app
  }

  // ---------------------------------------------------------------------------
  // Gizmo callbacks

  /** A press on a gizmo handle; the duplicate handle duplicates the target. */
  function GizmoDragStart(app: App, h: Handle, x: real, y: real, newId: Id): (r: Duplicate)
    requires newId !in app.scene.objects && newId !in app.scene.rendered
    ensures app.gizmo.target.Some? && h == DuplicateHandle ==> r == DuplicateObject(app, app.gizmo.target, newId)
    ensures h != DuplicateHandle ==> r.assetRequest == None && r.app.scene == app.scene
  {
    var s := DragStart(app.gizmo, h, x, y, if app.gizmo.target.Some? then TransformOf(app.scene, app.gizmo.target.value) else IdentityTransform);
    if s.duplicateOf.Some? then DuplicateObject(app, s.duplicateOf, newId)
    else Duplicate(app.(gizmo := s.gizmo), None)
  }

  /** A pointer move during a gizmo drag rewrites the target's transform. */
  function GizmoDragMove(app: App, x: real, y: real): (r: App)
    ensures r.(scene := app.scene) == app
    ensures forall p: Id :: app.gizmo.target != Some(p) ==> TransformOf(r.scene, p) == TransformOf(app.scene, p)
    ensures app.gizmo.target.Some? ==>
      TransformOf(r.scene, app.gizmo.target.value) == DragMove(app.gizmo, x, y, TransformOf(app.scene, app.gizmo.target.value))
  {
    match app.gizmo.target
    case None => app
    case Some(o) => app.(scene := SetTransform(app.scene, o, DragMove(app.gizmo, x, y, TransformOf(app.scene, o))))
  }

  /** The end of a gizmo drag records the drag through `onDragEnd` as
      written: the command's old transform is the gizmo's own drag-start
      snapshot, which the next drag overwrites. */
  function GizmoDragEnd(app: App): (r: App)
    ensures !r.gizmo.isDragging && r.scene == app.scene && r.selected == app.selected
    ensures r.gizmo.initial == app.gizmo.initial
    ensures app.gizmo.isDragging && app.gizmo.target.Some? ==>
      var o := app.gizmo.target.value;
      r.log == Add(app.log, TransformObject(o, SharedGizmoState, TransformOf(app.scene, o)))
    ensures !(app.gizmo.isDragging && app.gizmo.target.Some?) ==> r.log == app.log
  {
    var e := DragEnd(app.gizmo, if app.gizmo.target.Some? then TransformOf(app.scene, app.gizmo.target.value) else IdentityTransform);
    app.(gizmo := e.gizmo, log := if e.recorded.Some? then Add(app.log, e.recorded.value) else app.log)
  }

  /** The end of a gizmo drag with the drag-start snapshot copied into the
      recorded command. */
  function GizmoDragEndCopying(app: App): (r: App)
    ensures !r.gizmo.isDragging && r.scene == app.scene && r.selected == app.selected
    ensures app.gizmo.isDragging && app.gizmo.target.Some? ==>
      var o := app.gizmo.target.value;
      r.log == Add(app.log, TransformObject(o, Copied(app.gizmo.initial), TransformOf(app.scene, o)))
    ensures !(app.gizmo.isDragging && app.gizmo.target.Some?) ==> r.log == app.log
  {
    var e := DragEndCopying(app.gizmo, if app.gizmo.target.Some? then TransformOf(app.scene, app.gizmo.target.value) else IdentityTransform);
    app.(gizmo := e.gizmo, log := if e.recorded.Some? then Add(app.log, e.recorded.value) else app.log)
  }

  /** Undoing straight after a gizmo drag puts the target back to where the
      drag started, whether or not the snapshot was copied: the shared
      snapshot is still the one this drag took. */
  lemma GizmoDragEndThenUndoRestores(app: App)
    requires app.gizmo.isDragging && app.gizmo.target.Some?
    ensures var o := app.gizmo.target.value;
      && TransformOf(AppUndo(GizmoDragEnd(app)).scene, o) == app.gizmo.initial
      && TransformOf(AppUndo(GizmoDragEndCopying(app)).scene, o) == app.gizmo.initial
  {
  }

  // ---------------------------------------------------------------------------
  // Properties of the pointer state machine

  /** Every pointer handler keeps the app valid. */
  lemma PointerDownKeepsValid(app: App, onPanel: bool, terrainHit: Option<Hit>, objectHit: Option<Id>, sqrt: real -> real)
    requires IsSqrt(sqrt) && Valid(app)
    ensures Valid(PointerDown(app, onPanel, terrainHit, objectHit, sqrt))
  {
  }

  lemma PointerMoveKeepsValid(app: App, terrainHit: Option<Hit>, planeHit: Option<Vec3>, sqrt: real -> real)
    requires IsSqrt(sqrt) && Valid(app)
    ensures Valid(PointerMove(app, terrainHit, planeHit, sqrt))
  {
  }

  lemma PointerUpKeepsValid(app: App)
    requires Valid(app)
    ensures Valid(PointerUp(app))
  {
  }

  /** The remaining handlers keep the app valid too. */
  lemma DeleteKeepsValid(app: App)
    requires Valid(app)
    ensures Valid(DeleteSelectedObject(app))
  {
  }

  lemma AddPrimitiveKeepsValid(app: App, shape: string, newId: Id)
    requires Valid(app) && newId !in app.scene.objects && newId !in app.scene.rendered
    ensures Valid(AddPrimitive(app, shape, newId))
  {
  }

  lemma DuplicateKeepsValid(app: App, newId: Id)
    requires Valid(app) && newId !in app.scene.objects && newId !in app.scene.rendered
    ensures Valid(DuplicateObject(app, app.selected, newId).app)
  {
  }

  lemma KeyDownKeepsValid(app: App, ctrl: bool, key: string)
    requires Valid(app)
    ensures Valid(KeyDown(app, ctrl, key)) && Valid(KeyDownSelecting(app, ctrl, key))
  {
  }

  /** A press on the selected object and a release without moving starts
      and ends a drag and records nothing. */
  lemma PressReleaseRecordsNothing(app: App, o: Id, sqrt: real -> real)
    requires IsSqrt(sqrt) && RasterShaped(app.terrain.splat)
    requires app.selected == Some(o)
    ensures var r := PointerUp(PointerDown(app, false, None, Some(o), sqrt));
      r.log == app.log && r.scene == app.scene && !r.isDraggingObject && r.controlsEnabled
  {
  }

  /** Dragging the selected object to a new spot on the ground records one
      command, and undoing it puts the object back where it was. */
  lemma DragThenUndoRestores(app: App, o: Id, p: Vec3, sqrt: real -> real)
    requires IsSqrt(sqrt) && RasterShaped(app.terrain.splat)
    requires app.selected == Some(o) && !app.isEditingTerrain
    requires p.x != TransformOf(app.scene, o).position.x
    ensures var a := PointerDown(app, false, None, Some(o), sqrt);
      var b := PointerMove(a, None, Some(p), sqrt);
      var c := PointerUp(b);
      && |c.log.undoStack| == |app.log.undoStack| + 1
      && TransformOf(c.scene, o).position == Vec3(p.x, TransformOf(app.scene, o).position.y, p.z)
      && TransformOf(AppUndo(c).scene, o) == TransformOf(app.scene, o)
      && AppUndo(c).selected == Some(o)
  {
    var a := PointerDown(app, false, None, Some(o), sqrt);
    var b := PointerMove(a, None, Some(p), sqrt);
    var c := PointerUp(b);
    var t0 := TransformOf(app.scene, o);
    var t1 := TransformOf(b.scene, o);
    assert t1.position != t0.position;
    assert c.log == Add(app.log, TransformObject(o, Copied(t0), t1));
  }

  /** Deleting the selected object and undoing puts the object list and the
      scene graph back; as written, the restored object stays unselected. */
  lemma DeleteThenUndoRestoresScene(app: App)
    requires app.selected.Some? && app.selected.value in app.scene.objects && app.selected.value in app.scene.rendered
    ensures var r := AppUndo(DeleteSelectedObject(app));
      r.scene == app.scene && r.selected == None
  {
    var o := app.selected.value;
    DeleteThenUndoRestores(app.scene, o, app.gizmo.initial);
  }

  /** With the selecting `undo()`, undoing a delete also selects the object
      again. */
  lemma DeleteThenUndoReselects(app: App)
    requires app.selected.Some? && app.selected.value in app.scene.objects && app.selected.value in app.scene.rendered
    ensures var r := AppUndoSelecting(DeleteSelectedObject(app));
      r.scene == app.scene && r.selected == app.selected
  {
    var o := app.selected.value;
    DeleteThenUndoRestores(app.scene, o, app.gizmo.initial);
  }

  /** Duplicating a primitive and undoing removes the copy again; as
      written, the removed copy is still the selection. */
  lemma DuplicateThenUndoRemovesCopy(app: App, o: Id, newId: Id)
    requires newId !in app.scene.objects && newId !in app.scene.rendered
    requires MetaOf(app, o).kind == Primitive
    ensures var r := AppUndo(DuplicateObject(app, Some(o), newId).app);
      && r.scene.objects == app.scene.objects && r.scene.rendered == app.scene.rendered
      && r.selected == Some(newId) && newId !in r.scene.objects
  {
    var d := DuplicateObject(app, Some(o), newId).app;
    var s := SetTransform(app.scene, newId, TransformOf(d.scene, newId));
    AddThenUndoRestores(s, newId, d.gizmo.initial);
  }
}
