/** The on-screen transform gizmo: a drag state machine over four handles
    (scale, rotate about Y, rotate about Z, move along Y) plus a duplicate
    button, and the projection of the target's position to pixel coordinates.
    The gizmo keeps one `initialTransform` record for its whole life and
    overwrites it at every drag start; the record is also what it hands to
    the history when a drag ends. */
module Gizmo {
  import opened Common
  import opened History

  datatype Handle = ScaleHandle | RotateYHandle | RotateZHandle | MoveYHandle | DuplicateHandle

  /** `targetObject`, `isDragging` and `dragState`. */
  datatype GizmoState = GizmoState(
    target: Option<Id>, isDragging: bool, handle: Option<Handle>,
    startX: real, startY: real, initial: Transform)

  /** The constructor: no target, idle, and an all-zero initial record
      (a fresh Vector3 is (0, 0, 0), scale included). */
  function NewGizmo(): (g: GizmoState)
    ensures g.target == None && !g.isDragging && g.handle == None
  {
    var zero := Vec3(0.0, 0.0, 0.0);
    GizmoState(None, false, None, 0.0, 0.0, Transform(zero, zero, zero))
  }

  function Show(g: GizmoState, o: Id): (r: GizmoState)
    ensures r.target == Some(o) && r.isDragging == g.isDragging && r.initial == g.initial
  {
    g.(target := Some(o))
  }

  function Hide(g: GizmoState): (r: GizmoState)
    ensures r.target == None && r.isDragging == g.isDragging && r.initial == g.initial
  {
    g.(target := None)
  }

  // ---------------------------------------------------------------------------
  // Dragging

  /** What a pointer-down on a handle does: the new gizmo state, and the
      object the duplicate callback was fired for, if any. */
  datatype StartResult = StartResult(gizmo: GizmoState, duplicateOf: Option<Id>)

  /** `onDragStart(e, type)` with the pointer at (x, y); `current` is the
      target's transform at that moment. */
  function DragStart(g: GizmoState, h: Handle, x: real, y: real, current: Transform): (r: StartResult)
    ensures g.target == None ==> r == StartResult(g, None)
    ensures g.target.Some? && h == DuplicateHandle ==> r == StartResult(g, g.target)
    ensures g.target.Some? && h != DuplicateHandle ==>
      && r.duplicateOf == None
      && r.gizmo.isDragging && r.gizmo.handle == Some(h)
      && r.gizmo.startX == x && r.gizmo.startY == y
      && r.gizmo.initial == current
      && r.gizmo.target == g.target
  {
    if g.target == None then StartResult(g, None)
    else if h == DuplicateHandle then StartResult(g, g.target)
    else StartResult(g.(isDragging := true, handle := Some(h), startX := x, startY := y, initial := current), None)
  }

  /** The new uniform scale `max(0.1, initial.scale.x - deltaY * 0.01)`. */
  function DraggedScale(initialScaleX: real, deltaY: real): (s: real)
    ensures s >= 0.1
    ensures initialScaleX - deltaY * 0.01 >= 0.1 ==> s == initialScaleX - deltaY * 0.01
  {
    Max(0.1, initialScaleX + (-deltaY * 0.01))
  }

  /** `onDragMove` with the pointer at (x, y): the target's new transform.
      Each handle rewrites one quantity from the drag-start snapshot and the
      pointer's offset from the drag-start point. */
  function DragMove(g: GizmoState, x: real, y: real, current: Transform): (t: Transform)
    ensures !g.isDragging || g.target == None ==> t == current
    ensures g.handle == Some(ScaleHandle) && g.isDragging && g.target.Some? ==>
      t.scale.x == t.scale.y == t.scale.z >= 0.1 && t.position == current.position && t.rotation == current.rotation
    ensures g.handle == Some(MoveYHandle) && g.isDragging && g.target.Some? ==>
      t.position.x == current.position.x && t.position.z == current.position.z &&
      t.rotation == current.rotation && t.scale == current.scale
    ensures g.handle == Some(RotateYHandle) && g.isDragging && g.target.Some? ==>
      t.rotation.x == current.rotation.x && t.rotation.z == current.rotation.z &&
      t.position == current.position && t.scale == current.scale
    ensures g.handle == Some(RotateZHandle) && g.isDragging && g.target.Some? ==>
      t.rotation.x == current.rotation.x && t.rotation.y == current.rotation.y &&
      t.position == current.position && t.scale == current.scale
  {
    if !g.isDragging || g.target == None then current
    else
      var dx := x - g.startX;
      var dy := y - g.startY;
      var i := g.initial;
      match g.handle
      case Some(RotateYHandle) => current.(rotation := current.rotation.(y := i.rotation.y + dx * 0.01))
      case Some(RotateZHandle) => current.(rotation := current.rotation.(z := i.rotation.z + dx * 0.01))
      case Some(MoveYHandle) => current.(position := current.position.(y := i.position.y - dy * 0.05))
      case Some(ScaleHandle) =>
        var s := DraggedScale(i.scale.x, dy);
        current.(scale := Vec3(s, s, s))
      case _ => current
  }

  /** A drag move depends on the snapshot and the pointer, not on earlier
      moves: repeating a pointer position gives the same transform. */
  lemma DragMoveRepeatable(g: GizmoState, x: real, y: real, current: Transform)
    ensures DragMove(g, x, y, DragMove(g, x, y, current)) == DragMove(g, x, y, current)
  {
  }

  /** Moving the pointer back to where the drag started restores the
      quantity the handle edits (for scale: a uniform snapshot of at least 0.1). */
  lemma DragBackToStartRestores(g: GizmoState, current: Transform)
    requires g.isDragging && g.target.Some?
    requires g.handle == Some(ScaleHandle) ==>
      g.initial.scale.x >= 0.1 && g.initial.scale.x == g.initial.scale.y == g.initial.scale.z
    ensures var t := DragMove(g, g.startX, g.startY, current);
      && (g.handle == Some(RotateYHandle) ==> t.rotation.y == g.initial.rotation.y)
      && (g.handle == Some(RotateZHandle) ==> t.rotation.z == g.initial.rotation.z)
      && (g.handle == Some(MoveYHandle) ==> t.position.y == g.initial.position.y)
      && (g.handle == Some(ScaleHandle) ==> t.scale == g.initial.scale)
  {
  }

  /** What a pointer-up does: the new gizmo state and the command handed to
      the transform-end callback, if it fired. */
  datatype EndResult = EndResult(gizmo: GizmoState, recorded: Option<Command>)

  /** `onDragEnd` as written: the command's old state is the gizmo's shared
      `initialTransform` record itself, not a copy of it. */
  function DragEnd(g: GizmoState, current: Transform): (r: EndResult)
    ensures !r.gizmo.isDragging && r.gizmo.handle == None
    ensures r.gizmo.target == g.target && r.gizmo.initial == g.initial
    ensures r.recorded.Some? <==> g.isDragging && g.target.Some?
    ensures r.recorded.Some? ==> r.recorded.value == TransformObject(g.target.value, SharedGizmoState, current)
  {
    var done := g.(isDragging := false, handle := None);
    if g.isDragging && g.target.Some? then EndResult(done, Some(TransformObject(g.target.value, SharedGizmoState, current)))
    else EndResult(done, None)
  }

  /** `onDragEnd` with the drag-start snapshot copied into the command, as
      the history needs. */
  function DragEndCopying(g: GizmoState, current: Transform): (r: EndResult)
    ensures !r.gizmo.isDragging && r.gizmo.handle == None
    ensures r.gizmo.target == g.target && r.gizmo.initial == g.initial
    ensures r.recorded.Some? <==> g.isDragging && g.target.Some?
    ensures r.recorded.Some? ==> r.recorded.value == TransformObject(g.target.value, Copied(g.initial), current)
  {
    var done := g.(isDragging := false, handle := None);
    if g.isDragging && g.target.Some? then EndResult(done, Some(TransformObject(g.target.value, Copied(g.initial), current)))
    else EndResult(done, None)
  }

  /** One complete rotate-about-Y drag of the gizmo's target by `dx` pixels,
      with the transform-end callback adding the command to the log. */
  datatype Session = Session(gizmo: GizmoState, scene: Scene, log: Log)

  function RotateDrag(s: Session, x: real, y: real, dx: real, copying: bool): (r: Session)
    requires s.gizmo.target.Some?
  {
    var o := s.gizmo.target.value;
    var st := DragStart(s.gizmo, RotateYHandle, x, y, TransformOf(s.scene, o));
    var moved := DragMove(st.gizmo, x + dx, y, TransformOf(s.scene, o));
    var scene := SetTransform(s.scene, o, moved);
    var e := if copying then DragEndCopying(st.gizmo, moved) else DragEnd(st.gizmo, moved);
    Session(e.gizmo, scene, if e.recorded.Some? then Add(s.log, e.recorded.value) else s.log)
  }

  /** As written, two gizmo drags followed by two undos do not return the
      object to where it started: the first command's "old" state is the
      shared record, which the second drag start overwrote. */
  lemma SharedInitialBreaksSecondUndo(s: Session, x: real, y: real)
    requires s.gizmo.target.Some? && !s.gizmo.isDragging
    ensures var o := s.gizmo.target.value;
      var t0 := TransformOf(s.scene, o);
      var s2 := RotateDrag(RotateDrag(s, x, y, 100.0, false), x, y, 100.0, false);
      var u1 := UndoStep(s2.log, s2.scene, s2.gizmo.initial);
      var u2 := UndoStep(u1.log, u1.scene, s2.gizmo.initial);
      TransformOf(u2.scene, o).rotation.y == t0.rotation.y + 1.0
  {
    var o := s.gizmo.target.value;
    var t0 := TransformOf(s.scene, o);
    var s1 := RotateDrag(s, x, y, 100.0, false);
    var t1 := TransformOf(s1.scene, o);
    assert t1.rotation.y == t0.rotation.y + 1.0;
    assert s1.log.undoStack[|s1.log.undoStack| - 1] == TransformObject(o, SharedGizmoState, t1);
    var s2 := RotateDrag(s1, x, y, 100.0, false);
    assert s2.gizmo.initial == t1;
    var n := |s2.log.undoStack|;
    assert s2.log.undoStack[n - 2] == TransformObject(o, SharedGizmoState, t1);
    var u1 := UndoStep(s2.log, s2.scene, s2.gizmo.initial);
    assert u1.log.undoStack[|u1.log.undoStack| - 1] == TransformObject(o, SharedGizmoState, t1);
  }

  /** With the snapshot copied, two drags followed by two undos put the
      object back exactly where it started. */
  lemma CopiedInitialUndoesBothDrags(s: Session, x: real, y: real, dx1: real, dx2: real)
    requires s.gizmo.target.Some? && !s.gizmo.isDragging
    ensures var o := s.gizmo.target.value;
      var s2 := RotateDrag(RotateDrag(s, x, y, dx1, true), x, y, dx2, true);
      var u1 := UndoStep(s2.log, s2.scene, s2.gizmo.initial);
      var u2 := UndoStep(u1.log, u1.scene, s2.gizmo.initial);
      TransformOf(u2.scene, o) == TransformOf(s.scene, o)
  {
    var o := s.gizmo.target.value;
    var t0 := TransformOf(s.scene, o);
    var s1 := RotateDrag(s, x, y, dx1, true);
    var t1 := TransformOf(s1.scene, o);
    assert s1.log.undoStack[|s1.log.undoStack| - 1] == TransformObject(o, Copied(t0), t1);
    var s2 := RotateDrag(s1, x, y, dx2, true);
    var n := |s2.log.undoStack|;
    assert s2.log.undoStack[n - 2] == TransformObject(o, Copied(t0), t1);
    var u1 := UndoStep(s2.log, s2.scene, s2.gizmo.initial);
    assert u1.log.undoStack[|u1.log.undoStack| - 1] == TransformObject(o, Copied(t0), t1);
  }

  // ---------------------------------------------------------------------------
  // Screen placement

  /** Where `updatePosition` leaves the gizmo. */
  datatype Placement = Untouched | HiddenBehind | ShownAt(left: real, top: real)

  /** `updatePosition` for a target whose projected position is `ndc`, on a
      canvas of the given client size. */
  function UpdatePosition(g: GizmoState, ndc: Vec3, width: real, height: real): (p: Placement)
    ensures g.target == None ==> p == Untouched
    ensures g.target.Some? && ndc.z > 1.0 ==> p == HiddenBehind
    ensures g.target.Some? && ndc.z <= 1.0 ==> p.ShownAt?
    ensures p.ShownAt? && 0.0 <= width && -1.0 <= ndc.x <= 1.0 ==> 0.0 <= p.left <= width
    ensures p.ShownAt? && 0.0 <= height && -1.0 <= ndc.y <= 1.0 ==> 0.0 <= p.top <= height
  {
    if g.target == None then Untouched
    else if ndc.z > 1.0 then HiddenBehind
    else
      var u := ndc.x * 0.5 + 0.5;
      var v := ndc.y * -0.5 + 0.5;
      ScreenBounds(u, width);
      ScreenBounds(v, height);
      ShownAt(u * width, v * height)
  }

  lemma ScreenBounds(u: real, size: real)
    ensures 0.0 <= size && 0.0 <= u <= 1.0 ==> 0.0 <= u * size <= size
  {
    if 0.0 <= size && 0.0 <= u <= 1.0 {
      assert u * size <= 1.0 * size by {
        assert (1.0 - u) * size >= 0.0;
      }
    }
  }
}
