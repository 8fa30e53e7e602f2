/** The undo/redo log: three command kinds acting on the editor's ordered
    object list, the scene graph's membership and the objects' transforms,
    and a manager holding an undo stack and a redo stack (top = last element)
    plus the two history-button states it last reported to the UI. */
module History {
  import opened Common

  /** Scene objects are compared by identity; an `Id` stands for one object. */
  type Id = nat

  /** The transform a freshly created three.js object has. */
  const IdentityTransform: Transform :=
    Transform(Vec3(0.0, 0.0, 0.0), Vec3(0.0, 0.0, 0.0), Vec3(1.0, 1.0, 1.0))

  /** `app.objects` (ordered), the objects attached to the three.js scene,
      and every object's current transform. */
  datatype Scene = Scene(objects: seq<Id>, rendered: set<Id>, transforms: map<Id, Transform>)

  function TransformOf(s: Scene, o: Id): Transform
  {
    if o in s.transforms then s.transforms[o] else IdentityTransform
  }

  /** Moving, rotating or scaling an object in place. */
  function SetTransform(s: Scene, o: Id, t: Transform): (r: Scene)
    ensures TransformOf(r, o) == t
    ensures forall p :: p != o ==> TransformOf(r, p) == TransformOf(s, p)
    ensures r.objects == s.objects && r.rendered == s.rendered
  {
    s.(transforms := s.transforms[o := t])
  }

  /** Where a transform command's "old" state lives: a private snapshot, or
      the gizmo's single reusable `initialTransform` object, read when the
      command is undone. */
  datatype OldState = Copied(snapshot: Transform) | SharedGizmoState

  datatype Command =
    | AddObject(obj: Id)
    | DeleteObject(obj: Id, index: int)
    | TransformObject(obj: Id, oldTransform: OldState, newTransform: Transform)

  // ---------------------------------------------------------------------------
  // Array helpers with JavaScript semantics

  /** `a.indexOf(x)`: the first position of `x`, or -1. */
  function IndexOf(a: seq<Id>, x: Id): (k: int)
    ensures -1 <= k < |a|
    ensures k == -1 <==> x !in a
    ensures k >= 0 ==> a[k] == x && x !in a[..k]
  {
    if |a| == 0 then -1
    else if a[0] == x then 0
    else
      var k := IndexOf(a[1..], x);
      assert a[1..][..if k < 0 then 0 else k] == a[1..if k < 0 then 1 else k + 1];
      if k == -1 then -1 else k + 1
  }

  /** `a.splice(k, 1)` for a valid position. */
  function RemoveAt(a: seq<Id>, k: nat): (r: seq<Id>)
    requires k < |a|
    ensures |r| == |a| - 1
    ensures multiset(r) == multiset(a) - multiset{a[k]}
  {
    assert a == a[..k] + [a[k]] + a[k + 1..];
    a[..k] + a[k + 1..]
  }

  /** The position `a.splice(start, 0, x)` inserts at: a negative start counts
      from the end and is clamped at 0, a start past the end means the end. */
  function SpliceStart(len: nat, start: int): (k: nat)
    ensures k <= len
    ensures 0 <= start <= len ==> k == start
    ensures start < 0 && len + start >= 0 ==> k == len + start
    ensures len + start < 0 ==> k == 0
    ensures start > len ==> k == len
  {
    if start < 0 then (if len + start < 0 then 0 else len + start)
    else if start > len then len
    else start
  }

  /** `a.splice(start, 0, x)`. */
  function SpliceInsert(a: seq<Id>, start: int, x: Id): (r: seq<Id>)
    ensures |r| == |a| + 1
    ensures var k := SpliceStart(|a|, start); r[k] == x && r[..k] == a[..k] && r[k + 1..] == a[k..]
  {
    var k := SpliceStart(|a|, start);
    a[..k] + [x] + a[k..]
  }

  // ---------------------------------------------------------------------------
  // Commands

  /** `scene.add(o)` plus the push guarded by `includes`. */
  function Attach(s: Scene, o: Id): (r: Scene)
    ensures o in r.objects && o in r.rendered
    ensures o in s.objects ==> r.objects == s.objects
    ensures o !in s.objects ==> r.objects == s.objects + [o]
    ensures r.transforms == s.transforms
  {
    s.(objects := if o in s.objects then s.objects else s.objects + [o],
       rendered := s.rendered + {o})
  }

  /** `scene.remove(o)` plus the splice of the first occurrence, if any. */
  function Detach(s: Scene, o: Id): (r: Scene)
    ensures r.rendered == s.rendered - {o}
    ensures o !in s.objects ==> r.objects == s.objects
    ensures o in s.objects ==> |r.objects| == |s.objects| - 1
    ensures o in s.objects ==> multiset(r.objects) == multiset(s.objects) - multiset{o}
    ensures r.transforms == s.transforms
  {
    var k := IndexOf(s.objects, o);
    s.(objects := if k > -1 then RemoveAt(s.objects, k) else s.objects,
       rendered := s.rendered - {o})
  }

  /** The transform an undo restores: the snapshot, or whatever the gizmo's
      shared object holds at the time of the undo. */
  function OldValue(oldState: OldState, gizmoInitial: Transform): Transform
  {
    match oldState
    case Copied(t) => t
    case SharedGizmoState => gizmoInitial
  }

  /** `command.execute()`. */
  function Execute(c: Command, s: Scene): (r: Scene)
    ensures c.TransformObject? ==> r.objects == s.objects && r.rendered == s.rendered
    ensures !c.TransformObject? ==> r.transforms == s.transforms
  {
    match c
    case AddObject(o) => Attach(s, o)
    case DeleteObject(o, _) => Detach(s, o)
    case TransformObject(o, _, t) => s.(transforms := s.transforms[o := t])
  }

  /** `command.undo()`; `gizmoInitial` is the gizmo's shared transform at this moment. */
  function Undo(c: Command, s: Scene, gizmoInitial: Transform): (r: Scene)
    ensures c.TransformObject? ==> r.objects == s.objects && r.rendered == s.rendered
    ensures !c.TransformObject? ==> r.transforms == s.transforms
  {
    match c
    case AddObject(o) => Detach(s, o)
    case DeleteObject(o, index) =>
      s.(objects := SpliceInsert(s.objects, index, o), rendered := s.rendered + {o})
    case TransformObject(o, prior, _) => s.(transforms := s.transforms[o := OldValue(prior, gizmoInitial)])
  }

  /** Executing an add never duplicates the object in the list. */
  lemma AddNeverDuplicates(s: Scene, o: Id)
    ensures var r := Execute(AddObject(o), s);
      o in r.objects && multiset(r.objects)[o] == (if o in s.objects then multiset(s.objects)[o] else 1)
  {
    if o !in s.objects {
      assert multiset(s.objects)[o] == 0;
      assert multiset(s.objects + [o]) == multiset(s.objects) + multiset{o};
    }
  }

  /** Adding an object that was neither listed nor attached, then undoing, gives back the scene. */
  lemma AddThenUndoRestores(s: Scene, o: Id, g: Transform)
    requires o !in s.objects && o !in s.rendered
    ensures Undo(AddObject(o), Execute(AddObject(o), s), g) == s
  {
    var a := Execute(AddObject(o), s);
    assert a.objects == s.objects + [o];
    assert IndexOf(a.objects, o) == |s.objects|;
    assert RemoveAt(a.objects, |s.objects|) == s.objects;
    assert a.rendered - {o} == s.rendered;
  }

  /** Deleting an attached object from the index captured at construction,
      then undoing, gives back the scene. */
  lemma DeleteThenUndoRestores(s: Scene, o: Id, g: Transform)
    requires o in s.objects && o in s.rendered
    ensures Undo(DeleteObject(o, IndexOf(s.objects, o)), Execute(DeleteObject(o, IndexOf(s.objects, o)), s), g) == s
  {
    var k := IndexOf(s.objects, o);
    var d := Detach(s, o);
    var u := Undo(DeleteObject(o, k), d, g);
    assert u.objects == s.objects by {
      assert d.objects == RemoveAt(s.objects, k);
      assert u.objects == SpliceInsert(d.objects, k, o);
      SpliceUndoesRemove(s.objects, k);
    }
    assert u.rendered == s.rendered by {
      RenderedBack(s.rendered, o);
    }
  }

  lemma RenderedBack(r: set<Id>, o: Id)
    requires o in r
    ensures (r - {o}) + {o} == r
  {
  }

  /** Inserting an element back where it was removed gives back the list. */
  lemma SpliceUndoesRemove(a: seq<Id>, k: nat)
    requires k < |a|
    ensures SpliceInsert(RemoveAt(a, k), k, a[k]) == a
  {
    var r := RemoveAt(a, k);
    assert SpliceStart(|r|, k) == k;
    assert r[..k] == a[..k] && r[k..] == a[k + 1..];
    assert a == a[..k] + [a[k]] + a[k + 1..];
  }

  /** A delete command captured while its object was absent holds index -1;
      undoing it inserts the object before the last element of the list. */
  lemma DeleteAbsentUndoInsertsBeforeLast(s: Scene, o: Id, g: Transform)
    requires |s.objects| > 0
    ensures var n := |s.objects|;
      Undo(DeleteObject(o, -1), s, g).objects == s.objects[..n - 1] + [o] + [s.objects[n - 1]]
  {
    var n := |s.objects|;
    assert SpliceStart(n, -1) == n - 1;
    assert s.objects[n - 1..] == [s.objects[n - 1]];
  }

  /** A transform command sets exactly its object's transform, and executing
      or undoing it twice is the same as once. */
  lemma TransformCommandIdempotent(s: Scene, o: Id, prior: OldState, t: Transform, g: Transform)
    ensures var c := TransformObject(o, prior, t);
      && TransformOf(Execute(c, s), o) == t
      && TransformOf(Undo(c, s, g), o) == OldValue(prior, g)
      && (forall p :: p != o ==> TransformOf(Execute(c, s), p) == TransformOf(s, p))
      && Execute(c, Execute(c, s)) == Execute(c, s)
      && Undo(c, Undo(c, s, g), g) == Undo(c, s, g)
  {
  }

  // ---------------------------------------------------------------------------
  // The manager

  /** The two stacks and the (canUndo, canRedo) pair last sent to the UI. */
  datatype Log = Log(undoStack: seq<Command>, redoStack: seq<Command>, shownCanUndo: bool, shownCanRedo: bool)

  /** What the history buttons show agrees with the stacks. */
  predicate ButtonsAccurate(h: Log)
  {
    h.shownCanUndo == (|h.undoStack| > 0) && h.shownCanRedo == (|h.redoStack| > 0)
  }

  /** `updateUI()`. */
  function UpdateUi(h: Log): (r: Log)
    ensures ButtonsAccurate(r)
    ensures r.undoStack == h.undoStack && r.redoStack == h.redoStack
  {
    h.(shownCanUndo := |h.undoStack| > 0, shownCanRedo := |h.redoStack| > 0)
  }

  /** The constructor. */
  function NewLog(): (h: Log)
    ensures ButtonsAccurate(h) && h.undoStack == [] && h.redoStack == []
  {
    UpdateUi(Log([], [], false, false))
  }

  /** `add(command)`: the command is recorded, not executed. */
  function Add(h: Log, c: Command): (r: Log)
    ensures ButtonsAccurate(r)
    ensures |r.undoStack| == |h.undoStack| + 1 && r.undoStack[|h.undoStack|] == c
    ensures r.undoStack[..|h.undoStack|] == h.undoStack
    ensures r.redoStack == []
  {
    UpdateUi(h.(undoStack := h.undoStack + [c], redoStack := []))
  }

  /** The result of `undo()`/`redo()`: the log, the scene, and the returned
      `command.object` (None for the `undefined` of an empty stack). */
  datatype Step = Step(log: Log, scene: Scene, returned: Option<Id>)

  function UndoStep(h: Log, s: Scene, gizmoInitial: Transform): (r: Step)
    ensures |h.undoStack| == 0 ==> r == Step(h, s, None)
    ensures |h.undoStack| > 0 ==>
      var n := |h.undoStack|;
      var c := h.undoStack[n - 1];
      && r.log.undoStack == h.undoStack[..n - 1]
      && r.log.redoStack == h.redoStack + [c]
      && r.scene == Undo(c, s, gizmoInitial)
      && r.returned == Some(c.obj)
      && ButtonsAccurate(r.log)
  {
    if |h.undoStack| == 0 then Step(h, s, None)
    else
      var n := |h.undoStack|;
      var c := h.undoStack[n - 1];
      Step(UpdateUi(h.(undoStack := h.undoStack[..n - 1], redoStack := h.redoStack + [c])),
           Undo(c, s, gizmoInitial), Some(c.obj))
  }

  function RedoStep(h: Log, s: Scene): (r: Step)
    ensures |h.redoStack| == 0 ==> r == Step(h, s, None)
    ensures |h.redoStack| > 0 ==>
      var n := |h.redoStack|;
      var c := h.redoStack[n - 1];
      && r.log.redoStack == h.redoStack[..n - 1]
      && r.log.undoStack == h.undoStack + [c]
      && r.scene == Execute(c, s)
      && r.returned == Some(c.obj)
      && ButtonsAccurate(r.log)
  {
    if |h.redoStack| == 0 then Step(h, s, None)
    else
      var n := |h.redoStack|;
      var c := h.redoStack[n - 1];
      Step(UpdateUi(h.(redoStack := h.redoStack[..n - 1], undoStack := h.undoStack + [c])),
           Execute(c, s), Some(c.obj))
  }

  /** Undo followed by redo puts both stacks and the buttons back. */
  lemma UndoThenRedoRestoresLog(h: Log, s: Scene, g: Transform)
    requires |h.undoStack| > 0 && ButtonsAccurate(h)
    ensures var u := UndoStep(h, s, g);
      RedoStep(u.log, u.scene).log == h
  {
    var n := |h.undoStack|;
    assert h.undoStack[..n - 1] + [h.undoStack[n - 1]] == h.undoStack;
    var u := UndoStep(h, s, g);
    assert u.log.redoStack[..|u.log.redoStack| - 1] == h.redoStack;
  }

  /** Redo followed by undo puts both stacks and the buttons back. */
  lemma RedoThenUndoRestoresLog(h: Log, s: Scene, g: Transform)
    requires |h.redoStack| > 0 && ButtonsAccurate(h)
    ensures var r := RedoStep(h, s);
      UndoStep(r.log, r.scene, g).log == h
  {
    var n := |h.redoStack|;
    assert h.redoStack[..n - 1] + [h.redoStack[n - 1]] == h.redoStack;
    var r := RedoStep(h, s);
    assert r.log.undoStack[..|r.log.undoStack| - 1] == h.undoStack;
  }

  /** Undoing right after an add hands back the added command's object and
      leaves the command alone on the redo stack. */
  lemma AddThenUndo(h: Log, c: Command, s: Scene, g: Transform)
    ensures var u := UndoStep(Add(h, c), s, g);
      u.log.undoStack == h.undoStack && u.log.redoStack == [c] &&
      u.scene == Undo(c, s, g) && u.returned == Some(c.obj)
  {
  }

  /** The buttons stay accurate through every step, effective or not. */
  lemma ButtonsStayAccurate(h: Log, c: Command, s: Scene, g: Transform)
    requires ButtonsAccurate(h)
    ensures ButtonsAccurate(Add(h, c))
    ensures ButtonsAccurate(UndoStep(h, s, g).log)
    ensures ButtonsAccurate(RedoStep(h, s).log)
  {
  }

  /** Undo then redo of one command leaves the scene as executing it did,
      for a command whose execution the scene already reflects. */
  lemma RedoReappliesTransform(s: Scene, o: Id, prior: OldState, t: Transform, g: Transform)
    ensures var c := TransformObject(o, prior, t);
      Execute(c, Undo(c, Execute(c, s), g)) == Execute(c, s)
  {
  }
}
