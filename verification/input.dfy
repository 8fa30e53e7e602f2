/** The input manager: an ordered map from action names to the raw inputs
    bound to them, extended by `bindAction` and searched in order by
    `handleInput`. */
module Input {
  import opened Common

  /** One entry of the action map, in the map's (insertion) order. */
  datatype Binding = Binding(action: string, inputs: seq<string>)

  type ActionMap = seq<Binding>

  /** Object keys are unique. */
  predicate DistinctActions(m: ActionMap)
  {
    forall j, k :: 0 <= j < k < |m| ==> m[j].action != m[k].action
  }

  /** The constructor's map. */
  function DefaultActionMap(): (m: ActionMap)
    ensures DistinctActions(m) && |m| == 3
  {
    [ Binding("JUMP", ["Space", "GamepadButton0", "TouchSwipeUp"]),
      Binding("SHOOT", ["MouseLeftClick", "GamepadRT", "TouchTapRight"]),
      Binding("MOVE_FORWARD", ["KeyW", "GamepadLeftStickUp"]) ]
  }

  /** The position of an action's entry, or -1. */
  function ActionIndex(m: ActionMap, action: string): (k: int)
    ensures -1 <= k < |m|
    ensures k == -1 <==> forall j :: 0 <= j < |m| ==> m[j].action != action
    ensures k >= 0 ==> m[k].action == action && forall j :: 0 <= j < k ==> m[j].action != action
  {
    if |m| == 0 then -1
    else if m[0].action == action then 0
    else
      var k := ActionIndex(m[1..], action);
      if k == -1 then -1 else k + 1
  }

  /** `bindAction(action, input)`: the input is pushed onto an existing
      action's list, duplicates included; an unknown action is ignored. */
  function BindAction(m: ActionMap, action: string, input: string): (r: ActionMap)
    ensures |r| == |m|
    ensures forall j :: 0 <= j < |m| ==> r[j].action == m[j].action
    ensures ActionIndex(m, action) == -1 ==> r == m
    ensures ActionIndex(m, action) >= 0 ==>
      var k := ActionIndex(m, action);
      && r[k].inputs == m[k].inputs + [input]
      && forall j :: 0 <= j < |m| && j != k ==> r[j] == m[j]
  {
    var k := ActionIndex(m, action);
    if k == -1 then m
    else m[k := m[k].(inputs := m[k].inputs + [input])]
  }

  /** Binding keeps the keys unique. */
  lemma BindKeepsDistinct(m: ActionMap, action: string, input: string)
    requires DistinctActions(m)
    ensures DistinctActions(BindAction(m, action, input))
  {
  }

  /** The position of the first entry whose list holds the input, or -1. */
  function HandleIndex(m: ActionMap, input: string): (k: int)
    ensures -1 <= k < |m|
    ensures k == -1 <==> forall j :: 0 <= j < |m| ==> input !in m[j].inputs
    ensures k >= 0 ==> input in m[k].inputs && forall j :: 0 <= j < k ==> input !in m[j].inputs
  {
    if |m| == 0 then -1
    else if input in m[0].inputs then 0
    else
      var k := HandleIndex(m[1..], input);
      if k == -1 then -1 else k + 1
  }

  /** `handleInput(rawInput)`: the one action triggered, if any. */
  function HandleInput(m: ActionMap, input: string): (r: Option<string>)
    ensures r.None? <==> forall j :: 0 <= j < |m| ==> input !in m[j].inputs
    ensures r.Some? ==> r.value == m[HandleIndex(m, input)].action
  {
    var k := HandleIndex(m, input);
    if k == -1 then None else Some(m[k].action)
  }

  /** Once an input is bound to an existing action, handling it triggers
      that action or an action earlier in the map that already had it. */
  lemma BoundInputTriggers(m: ActionMap, action: string, input: string)
    requires ActionIndex(m, action) >= 0
    ensures var a := ActionIndex(m, action);
      var r := BindAction(m, action, input);
      var k := HandleIndex(r, input);
      && 0 <= k <= a
      && HandleInput(r, input) == Some(r[k].action)
      && (k < a ==> input in m[k].inputs && r[k].action != action)
      && (k == a ==> r[k].action == action)
  {
    var a := ActionIndex(m, action);
    var r := BindAction(m, action, input);
    assert input in r[a].inputs;
  }

  /** Binding an input nobody had makes it trigger exactly that action. */
  lemma FreshBindingTriggersAction(m: ActionMap, action: string, input: string)
    requires ActionIndex(m, action) >= 0
    requires HandleInput(m, input) == None
    ensures HandleInput(BindAction(m, action, input), input) == Some(action)
  {
    BoundInputTriggers(m, action, input);
  }

  /** With the default map, Space jumps, W moves forward, and an input
      bound to nothing triggers nothing. */
  lemma DefaultBindings()
    ensures HandleInput(DefaultActionMap(), "Space") == Some("JUMP")
    ensures HandleInput(DefaultActionMap(), "KeyW") == Some("MOVE_FORWARD")
    ensures HandleInput(DefaultActionMap(), "KeyQ") == None
  {
    var m := DefaultActionMap();
    assert "Space" in m[0].inputs;
    assert "KeyW" !in m[0].inputs && "KeyW" !in m[1].inputs && "KeyW" in m[2].inputs;
    assert HandleIndex(m, "KeyW") == 2;
    assert "KeyQ" !in m[0].inputs && "KeyQ" !in m[1].inputs && "KeyQ" !in m[2].inputs;
  }
}
