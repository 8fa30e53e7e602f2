/** The world-editor panel: the terrain generation parameters and their
    sliders, the tab buttons that pick the active tool, the sculpt and paint
    brush buttons and sliders, the texture colour map, and the generate,
    reset and recreate buttons. */
module WorldEditor {
  import opened Common
  import opened Text
  import opened Terrain
  import opened Placement
  import opened Editor

  /** Visibility of the editor container and its three panels. */
  datatype Panels = Panels(container: bool, tools: bool, style: bool, terrain: bool)

  datatype WorldEditor = WorldEditor(app: App, params: GenerationParams, panels: Panels, activeTab: Option<string>)

  /** `generationParams` as the constructor sets them. */
  const DefaultParams: GenerationParams := GenerationParams(100.0, 35.0, 6.0, 400.0, 0.25, 0.5, 2.0)

  /** The constructor sets the default parameters and leaves the panels'
      visibility to the page markup, given here as `markup`. */
  function NewWorldEditor(app: App, markup: Panels): (ed: WorldEditor)
    ensures ed.app == app && ed.params == DefaultParams && ScalesNonZero(ed.params)
    ensures ed.panels == markup && ed.activeTab == None
  {
    WorldEditor(app, DefaultParams, markup, None)
  }

  // ---------------------------------------------------------------------------
  // Panels and tabs

  /** `showTools()`: the tools panel alone, and no terrain tool. */
  function ShowTools(ed: WorldEditor): (r: WorldEditor)
    ensures r.panels == Panels(true, true, false, false) && r.app.activeTool == NoTool
    ensures r.params == ed.params && r.app.terrain == ed.app.terrain && r.app.scene == ed.app.scene
  {
    ed.(panels := Panels(true, true, false, false), app := ed.app.(activeTool := NoTool))
  }

  /** `hideAll()`: the container hidden, and no terrain tool. */
  function HideAll(ed: WorldEditor): (r: WorldEditor)
    ensures !r.panels.container && r.app.activeTool == NoTool
    ensures r.panels.(container := ed.panels.container) == ed.panels
    ensures r.params == ed.params && r.app.terrain == ed.app.terrain && r.app.scene == ed.app.scene
  {
    ed.(panels := ed.panels.(container := false), app := ed.app.(activeTool := NoTool))
  }

  /** The style panel button: only panel visibility changes, so a terrain
      tool chosen earlier stays active. */
  function OpenStylePanel(ed: WorldEditor): (r: WorldEditor)
    ensures r.panels == ed.panels.(tools := false, style := true, terrain := false)
    ensures r.app == ed.app && r.params == ed.params
  {
    ed.(panels := ed.panels.(tools := false, style := true, terrain := false))
  }

  /** `setActiveToolAndTab(tabId, toolName)`: entering the sculpt tab resets
      the sculpt mode to raise, entering the paint tab resets the paint mode
      to grass (its colour is kept). */
  function SetActiveToolAndTab(ed: WorldEditor, tabId: string, tool: Tool): (r: WorldEditor)
    ensures r.activeTab == Some(tabId) && r.app.activeTool == tool
    ensures tabId == "sculpt-tab" ==> r.app.terrainBrush == ed.app.terrainBrush.(kind := "raise")
    ensures tabId != "sculpt-tab" ==> r.app.terrainBrush == ed.app.terrainBrush
    ensures tabId == "paint-tab" ==> r.app.paintBrush == ed.app.paintBrush.(kind := "grass")
    ensures tabId != "paint-tab" ==> r.app.paintBrush == ed.app.paintBrush
    ensures r.app.(activeTool := ed.app.activeTool, terrainBrush := ed.app.terrainBrush, paintBrush := ed.app.paintBrush) == ed.app
    ensures r.params == ed.params && r.panels == ed.panels
  {
    var app := ed.app.(activeTool := tool);
    var app := if tabId == "sculpt-tab" then app.(terrainBrush := app.terrainBrush.(kind := "raise")) else app;
    var app := if tabId == "paint-tab" then app.(paintBrush := app.paintBrush.(kind := "grass")) else app;
    ed.(app := app, activeTab := Some(tabId))
  }

  /** The terrain panel button: the terrain panel alone, on the generate tab
      with no tool. */
  function OpenTerrainPanel(ed: WorldEditor): (r: WorldEditor)
    ensures r.panels == ed.panels.(tools := false, style := false, terrain := true)
    ensures r.app.activeTool == NoTool && r.activeTab == Some("generate-tab")
    ensures r.app.terrainBrush == ed.app.terrainBrush && r.app.paintBrush == ed.app.paintBrush
  {
    SetActiveToolAndTab(ed.(panels := ed.panels.(tools := false, style := false, terrain := true)), "generate-tab", NoTool)
  }

  /** `toolMap[tabId]`; a tab outside the map yields `undefined`, which every
      tool test treats like 'none'. */
  function TabTool(tabId: string): (t: Tool)
    ensures t == SculptTool <==> tabId == "sculpt-tab"
    ensures t == PaintTool <==> tabId == "paint-tab"
  {
    if tabId == "sculpt-tab" then SculptTool
    else if tabId == "paint-tab" then PaintTool
    else NoTool
  }

  /** A click on a tab button. */
  function TabButton(ed: WorldEditor, tabId: string): (r: WorldEditor)
    ensures r == SetActiveToolAndTab(ed, tabId, TabTool(tabId))
  {
    SetActiveToolAndTab(ed, tabId, TabTool(tabId))
  }

  /** The four tabs map to the documented tools. */
  lemma TabToolTable()
    ensures TabTool("generate-tab") == NoTool && TabTool("properties-tab") == NoTool
    ensures TabTool("sculpt-tab") == SculptTool && TabTool("paint-tab") == PaintTool
  {
  }

  /** A tab click hands the app to sculpting or painting exactly for those
      two tabs, and the brush mode it then uses is the tab's default. */
  lemma TabButtonArmsTool(ed: WorldEditor, tabId: string)
    ensures var r := TabButton(ed, tabId);
      && (r.app.activeTool == SculptTool <==> tabId == "sculpt-tab")
      && (r.app.activeTool == PaintTool <==> tabId == "paint-tab")
      && (r.app.activeTool == SculptTool ==> r.app.terrainBrush.kind == "raise")
      && (r.app.activeTool == PaintTool ==> r.app.paintBrush.kind == "grass" && r.app.paintBrush.color == ed.app.paintBrush.color)
  {
  }

  /** A click on one of the sculpt brush buttons (raise, lower, flatten, smooth). */
  function SculptBrushButton(ed: WorldEditor, kind: string): (r: WorldEditor)
    ensures r.app.terrainBrush == ed.app.terrainBrush.(kind := kind)
    ensures r.app.(terrainBrush := ed.app.terrainBrush) == ed.app && r.params == ed.params
  {
    ed.(app := ed.app.(terrainBrush := ed.app.terrainBrush.(kind := kind)))
  }

  /** The texture buttons' `colorMap`; no other texture name is rendered. */
  function ColorMap(texture: string): (c: Option<Rgb>)
    ensures c.Some? <==> texture in {"rock", "grass", "sand", "erase"}
  {
    if texture == "rock" then Some(Rgb(255.0, 0.0, 0.0))
    else if texture == "grass" then Some(Rgb(0.0, 255.0, 0.0))
    else if texture == "sand" then Some(Rgb(0.0, 0.0, 255.0))
    else if texture == "erase" then Some(Rgb(0.0, 255.0, 0.0))
    else None
  }

  /** Exactly one channel is saturated for each paintable texture. */
  predicate OneChannel(c: Rgb)
  {
    || (c.r == 255.0 && c.g == 0.0 && c.b == 0.0)
    || (c.r == 0.0 && c.g == 255.0 && c.b == 0.0)
    || (c.r == 0.0 && c.g == 0.0 && c.b == 255.0)
  }

  /** Every texture saturates exactly one channel, the three paintable
      textures use three different channels, and erasing paints grass. */
  lemma ColorMapChannels()
    ensures forall t :: t in {"rock", "grass", "sand", "erase"} ==> OneChannel(ColorMap(t).value)
    ensures ColorMap("rock").value.r == 255.0 && ColorMap("grass").value.g == 255.0 && ColorMap("sand").value.b == 255.0
    ensures ColorMap("erase") == ColorMap("grass") == Some(GrassColor)
  {
  }

  /** A click on a texture button: the paint mode and its colour. */
  function SelectTexture(ed: WorldEditor, texture: string): (r: WorldEditor)
    requires ColorMap(texture).Some?
    ensures r.app.paintBrush.kind == texture && OneChannel(r.app.paintBrush.color)
    ensures r.app.paintBrush.size == ed.app.paintBrush.size && r.app.paintBrush.strength == ed.app.paintBrush.strength
    ensures texture == "erase" ==> r.app.paintBrush.color == GrassColor
    ensures r.app.(paintBrush := ed.app.paintBrush) == ed.app && r.params == ed.params
  {
    ed.(app := ed.app.(paintBrush := ed.app.paintBrush.(kind := texture, color := ColorMap(texture).value)))
  }

  // ---------------------------------------------------------------------------
  // Generation sliders

  /** `id.replace('gen-', '').replace(/-/g, '_')`, split on '_' and joined
      in camel case. */
  function SliderKey(id: string): string
  {
    CamelJoin(SplitOn(ReplaceChar(ReplaceFirst(id, "gen-", ""), '-', '_'), '_'))
  }

  /** The parameter keys `generationParams` starts with. */
  predicate KnownParam(key: string)
  {
    key in {"mountainScale", "mountainHeight", "mountainOctaves", "landmassScale", "waterLevel", "persistence", "lacunarity"}
  }

  /** `generationParams[key]`. */
  function GetParam(p: GenerationParams, key: string): (v: Option<real>)
    ensures v.Some? <==> KnownParam(key)
  {
    if key == "mountainScale" then Some(p.mountainScale)
    else if key == "mountainHeight" then Some(p.mountainHeight)
    else if key == "mountainOctaves" then Some(p.mountainOctaves)
    else if key == "landmassScale" then Some(p.landmassScale)
    else if key == "waterLevel" then Some(p.waterLevel)
    else if key == "persistence" then Some(p.persistence)
    else if key == "lacunarity" then Some(p.lacunarity)
    else None
  }

  /** `generationParams[key] = value`. A key outside the seven adds a
      property that generation never reads, so the seven stay as they are. */
  function SetParam(p: GenerationParams, key: string, v: real): (r: GenerationParams)
    ensures KnownParam(key) ==> GetParam(r, key) == Some(v)
    ensures forall k :: k != key ==> GetParam(r, k) == GetParam(p, k)
    ensures !KnownParam(key) ==> r == p
  {
    if key == "mountainScale" then p.(mountainScale := v)
    else if key == "mountainHeight" then p.(mountainHeight := v)
    else if key == "mountainOctaves" then p.(mountainOctaves := v)
    else if key == "landmassScale" then p.(landmassScale := v)
    else if key == "waterLevel" then p.(waterLevel := v)
    else if key == "persistence" then p.(persistence := v)
    else if key == "lacunarity" then p.(lacunarity := v)
    else p
  }

  /** Reading a parameter back after setting it gives the stored value, and
      setting it to what it already holds changes nothing. */
  lemma SetParamGetParam(p: GenerationParams, key: string, v: real)
    requires KnownParam(key)
    ensures GetParam(SetParam(p, key, v), key) == Some(v)
    ensures SetParam(p, key, GetParam(p, key).value) == p
  {
  }

  /** The first replace drops the leading "gen-". */
  lemma StripGenPrefix(rest: string)
    ensures ReplaceFirst("gen-" + rest, "gen-", "") == rest
  {
    var id := "gen-" + rest;
    assert id[..4] == "gen-";
    assert id[4..] == rest;
  }

  /** The second replace turns the one dash between two dash-free words
      into an underscore. */
  lemma DashBetweenWords(a: string, b: string)
    requires Free(a, '-') && Free(b, '-')
    ensures ReplaceChar(a + "-" + b, '-', '_') == a + "_" + b
  {
    ReplaceCharConcat(a + "-", b, '-', '_');
    ReplaceCharConcat(a, "-", '-', '_');
    ReplaceCharAbsent(a, '-', '_');
    ReplaceCharAbsent(b, '-', '_');
  }

  /** Splitting two underscore-free words joined by '_' gives the two words. */
  lemma SplitTwoWords(a: string, b: string)
    requires Free(a, '_') && Free(b, '_')
    ensures SplitOn(a + "_" + b, '_') == [a, b]
  {
    SplitAtFirst(a, '_', b);
    SplitFree(b, '_');
    assert a + "_" + b == a + ['_'] + b;
  }

  /** A two-word slider id `gen-a-b` gives the key `a` followed by `b` with
      its first letter capitalised. */
  lemma SliderKeyTwoWords(a: string, b: string)
    requires Free(a, '-') && Free(a, '_') && Free(b, '-') && Free(b, '_')
    ensures SliderKey("gen-" + a + "-" + b) == a + Capitalise(b)
  {
    assert "gen-" + a + "-" + b == "gen-" + (a + "-" + b);
    StripGenPrefix(a + "-" + b);
    DashBetweenWords(a, b);
    SplitTwoWords(a, b);
    assert CapitaliseAll([b]) == Capitalise(b) + CapitaliseAll([]);
    assert CamelJoin([a, b]) == a + CapitaliseAll([b]);
  }

  /** The ids of the five rendered generation sliders, as `gen-` and two words. */
  predicate RenderedGenSlider(a: string, b: string)
  {
    (a, b) in {("landmass", "scale"), ("water", "level"), ("mountain", "scale"), ("mountain", "height"), ("mountain", "octaves")}
  }

  /** The key a two-word slider id yields. */
  function CamelKey(a: string, b: string): string { a + Capitalise(b) }

  /** The five rendered sliders' keys are five of the seven parameters, and
      not persistence or lacunarity. */
  lemma RenderedKeysKnown(a: string, b: string)
    requires RenderedGenSlider(a, b)
    ensures KnownParam(CamelKey(a, b)) && CamelKey(a, b) !in {"persistence", "lacunarity"}
  {
    if b == "scale" {
      assert Capitalise(b) == "Scale";
      if a == "landmass" {
        assert CamelKey(a, b) == "landmassScale";
      } else {
        assert CamelKey(a, b) == "mountainScale";
      }
    } else if b == "level" {
      assert Capitalise(b) == "Level";
      assert CamelKey(a, b) == "waterLevel";
    } else if b == "height" {
      assert Capitalise(b) == "Height";
      assert CamelKey(a, b) == "mountainHeight";
    } else {
      assert Capitalise(b) == "Octaves";
      assert CamelKey(a, b) == "mountainOctaves";
    }
  }

  /** Each rendered generation slider names one of the parameters, and none
      of them names persistence or lacunarity, which keep their defaults. */
  lemma RenderedSlidersNameParams(a: string, b: string)
    requires RenderedGenSlider(a, b)
    ensures KnownParam(SliderKey("gen-" + a + "-" + b))
    ensures SliderKey("gen-" + a + "-" + b) !in {"persistence", "lacunarity"}
  {
    assert Free(a, '-') && Free(a, '_') && Free(b, '-') && Free(b, '_');
    SliderKeyTwoWords(a, b);
    RenderedKeysKnown(a, b);
  }

  /** The water-level slider `gen-water-level` sets `waterLevel`. */
  lemma WaterLevelSlider(id: string, a: string, b: string)
    requires a == "water" && b == "level" && id == "gen-" + a + "-" + b
    ensures SliderKey(id) == "waterLevel"
  {
    SliderKeyTwoWords(a, b);
    assert Capitalise(b) == "Level";
  }

  /** The brush property a brush slider drives: `size` if its id mentions it. */
  function BrushProp(id: string): (isSize: bool)
    ensures isSize <==> Contains(id, "size")
  {
    Contains(id, "size")
  }

  /** The input handler for a range slider carrying `value`. `genSlider` is
      membership of the `gen-slider` class; `noise` is the instance a
      generation run creates. */
  function SliderInput(ed: WorldEditor, id: string, genSlider: bool, value: real, noise: Noise2): (r: WorldEditor)
    requires genSlider ==> ScalesNonZero(SetParam(ed.params, SliderKey(id), value))
    ensures genSlider ==>
      && r.params == SetParam(ed.params, SliderKey(id), value)
      && r.app.terrain.grid == Generate(ed.app.terrain.grid, r.params, noise)
    ensures !genSlider ==> r.params == ed.params && r.app.terrain == ed.app.terrain
    ensures r.app.terrain.splat == ed.app.terrain.splat && r.app.scene == ed.app.scene
    ensures StartsWith(id, "sculpt-brush") && Contains(id, "size") ==> r.app.terrainBrush == ed.app.terrainBrush.(size := value)
    ensures StartsWith(id, "sculpt-brush") && !Contains(id, "size") ==> r.app.terrainBrush == ed.app.terrainBrush.(strength := value)
    ensures !StartsWith(id, "sculpt-brush") ==> r.app.terrainBrush == ed.app.terrainBrush
    ensures StartsWith(id, "paint-brush") && Contains(id, "size") ==> r.app.paintBrush == ed.app.paintBrush.(size := value)
    ensures StartsWith(id, "paint-brush") && !Contains(id, "size") ==> r.app.paintBrush == ed.app.paintBrush.(strength := value)
    ensures !StartsWith(id, "paint-brush") ==> r.app.paintBrush == ed.app.paintBrush
  {
    var ed1 := if genSlider then GenSliderStage(ed, id, value, noise) else ed;
    PaintSliderStage(SculptSliderStage(ed1, id, value), id, value)
  }

  /** A generation slider stores its parameter and regenerates the terrain. */
  function GenSliderStage(ed: WorldEditor, id: string, value: real, noise: Noise2): (r: WorldEditor)
    requires ScalesNonZero(SetParam(ed.params, SliderKey(id), value))
    ensures r.params == SetParam(ed.params, SliderKey(id), value)
    ensures r.app.terrain.grid == Generate(ed.app.terrain.grid, r.params, noise)
    ensures r.app.terrain.splat == ed.app.terrain.splat && r.app.scene == ed.app.scene
    ensures r.app.terrainBrush == ed.app.terrainBrush && r.app.paintBrush == ed.app.paintBrush
  {
    var p := SetParam(ed.params, SliderKey(id), value);
    ed.(params := p, app := ed.app.(terrain := ed.app.terrain.(grid := Generate(ed.app.terrain.grid, p, noise))))
  }

  /** A slider under the sculpt-brush prefix sets the sculpt brush's size or strength. */
  function SculptSliderStage(ed: WorldEditor, id: string, value: real): (r: WorldEditor)
    ensures r.params == ed.params && r.app.terrain == ed.app.terrain && r.app.scene == ed.app.scene
    ensures r.app.paintBrush == ed.app.paintBrush
    ensures StartsWith(id, "sculpt-brush") && Contains(id, "size") ==> r.app.terrainBrush == ed.app.terrainBrush.(size := value)
    ensures StartsWith(id, "sculpt-brush") && !Contains(id, "size") ==> r.app.terrainBrush == ed.app.terrainBrush.(strength := value)
    ensures !StartsWith(id, "sculpt-brush") ==> r.app.terrainBrush == ed.app.terrainBrush
  {
    if StartsWith(id, "sculpt-brush") then
      ed.(app := ed.app.(terrainBrush := if BrushProp(id) then ed.app.terrainBrush.(size := value) else ed.app.terrainBrush.(strength := value)))
    else ed
  }

  /** A slider under the paint-brush prefix sets the paint brush's size or strength. */
  function PaintSliderStage(ed: WorldEditor, id: string, value: real): (r: WorldEditor)
    ensures r.params == ed.params && r.app.terrain == ed.app.terrain && r.app.scene == ed.app.scene
    ensures r.app.terrainBrush == ed.app.terrainBrush
    ensures StartsWith(id, "paint-brush") && Contains(id, "size") ==> r.app.paintBrush == ed.app.paintBrush.(size := value)
    ensures StartsWith(id, "paint-brush") && !Contains(id, "size") ==> r.app.paintBrush == ed.app.paintBrush.(strength := value)
    ensures !StartsWith(id, "paint-brush") ==> r.app.paintBrush == ed.app.paintBrush
  {
    if StartsWith(id, "paint-brush") then
      ed.(app := ed.app.(paintBrush := if BrushProp(id) then ed.app.paintBrush.(size := value) else ed.app.paintBrush.(strength := value)))
    else ed
  }

  /** The four brush sliders reach the intended property of the intended brush. */
  lemma BrushSliderRouting(ed: WorldEditor, v: real, noise: Noise2)
    ensures SliderInput(ed, "sculpt-brush" + "-size", false, v, noise).app.terrainBrush == ed.app.terrainBrush.(size := v)
    ensures SliderInput(ed, "sculpt-brush" + "-strength", false, v, noise).app.terrainBrush == ed.app.terrainBrush.(strength := v)
    ensures SliderInput(ed, "paint-brush" + "-size", false, v, noise).app.paintBrush == ed.app.paintBrush.(size := v)
    ensures SliderInput(ed, "paint-brush" + "-strength", false, v, noise).app.paintBrush == ed.app.paintBrush.(strength := v)
  {
    PrefixedId("sculpt-brush", "-size", "paint-brush");
    PrefixedId("sculpt-brush", "-strength", "paint-brush");
    PrefixedId("paint-brush", "-size", "sculpt-brush");
    PrefixedId("paint-brush", "-strength", "sculpt-brush");
    EndsInSize("sculpt-brush");
    EndsInSize("paint-brush");
    NoSize("sculpt-brush" + "-strength");
    NoSize("paint-brush" + "-strength");
  }

  /** An id built on a prefix starts with it, and not with a prefix that
      differs from it in the first character. */
  lemma PrefixedId(p: string, q: string, other: string)
    requires |p| > 0 && |other| > 0 && p[0] != other[0]
    ensures StartsWith(p + q, p) && !StartsWith(p + q, other)
  {
    assert (p + q)[..|p|] == p;
    assert (p + q)[0] == p[0];
  }

  lemma EndsInSize(p: string)
    ensures Contains(p + "-size", "size")
  {
    var id := p + "-size";
    assert id[|p| + 1..] == "size";
    assert StartsWith(id[|p| + 1..], "size");
  }

  /** A string without a 'z' cannot contain "size". */
  lemma NoSize(id: string)
    requires 'z' !in id
    ensures !Contains(id, "size")
  {
    forall k | 0 <= k <= |id|
      ensures !StartsWith(id[k..], "size")
    {
      if 4 <= |id[k..]| {
        assert id[k..][2] == id[k + 2];
      }
    }
  }

  // ---------------------------------------------------------------------------
  // Buttons

  /** "Apply & Add Foliage": place trees and grass on the current terrain.
      Normals and the app's vegetation noise are inputs, as are the two
      streams of random draws. */
  method GenerateButton(ed: WorldEditor, normals: seq<real>, vegetationNoise: Noise2, treeDraws: Random, grassDraws: Random)
    returns (r: WorldEditor)
    requires |normals| == |ed.app.terrain.grid|
    ensures r.app.terrain == ed.app.terrain && r.params == ed.params && r.app.scene == ed.app.scene
    ensures |r.app.trees| <= TreeBudget && |r.app.blades| <= GrassBudget
    ensures var grid := ed.app.terrain.grid;
      var sites := Take(TreeSitesBelow(grid, normals, vegetationNoise, |grid|), TreeBudget);
      && |r.app.trees| == |sites|
      && forall k :: 0 <= k < |sites| ==> r.app.trees[k] == PlacedTree(grid[sites[k]], treeDraws, k)
    ensures var grid := ed.app.terrain.grid;
      var full := GrassScanBelow(grid, normals, grassDraws, |grid|);
      var sites := Take(full.sites, GrassBudget);
      && |r.app.blades| == |sites|
      && forall k :: 0 <= k < |sites| ==> r.app.blades[k] == PlacedBlade(grid[sites[k]], grassDraws, full.starts[k])
    ensures forall k :: 0 <= k < |r.app.trees| ==> 1.0 <= r.app.trees[k].position.y <= 25.0
    ensures forall k :: 0 <= k < |r.app.blades| ==> 1.0 <= r.app.blades[k].position.y <= 25.0
  {
    var grid := ed.app.terrain.grid;
    var trees, treeSites := CreateVegetation(grid, normals, vegetationNoise, treeDraws);
    var all := TreeSitesBelow(grid, normals, vegetationNoise, |grid|);
    forall k | 0 <= k < |trees|
      ensures 1.0 <= trees[k].position.y <= 25.0
    {
      assert treeSites[k] == all[k];
      assert TreeSite(grid[treeSites[k]], normals[treeSites[k]], vegetationNoise);
    }
    var blades, grassSites := CreateGrass(grid, normals, grassDraws);
    r := ed.(app := ed.app.(trees := trees, blades := blades));
  }

  /** "Reset to Flat": flatten and repaint the terrain, then place vegetation
      again, which on flat ground finds nowhere to grow. */
  method ResetButton(ed: WorldEditor, normals: seq<real>, vegetationNoise: Noise2, treeDraws: Random, grassDraws: Random)
    returns (r: WorldEditor)
    requires |normals| == |ed.app.terrain.grid|
    ensures r.app.terrain == Reset(ed.app.terrain) && r.params == ed.params
    ensures r.app.trees == [] && r.app.blades == []
  {
    var t := Reset(ed.app.terrain);
    var grid := t.grid;
    var trees, treeSites := CreateVegetation(grid, normals, vegetationNoise, treeDraws);
    LowGroundHasNoTreeSites(grid, normals, vegetationNoise, |grid|);
    var blades, grassSites := CreateGrass(grid, normals, grassDraws);
    NoPlantableGroundWhenLow(grid, normals, grassSites);
    r := ed.(app := ed.app.(terrain := t, trees := trees, blades := blades));
  }

  /** Sites that are all plantable ground cannot exist on ground lying
      entirely below height 1. */
  lemma NoPlantableGroundWhenLow(grid: seq<Vec3>, normals: seq<real>, sites: seq<nat>)
    requires |grid| == |normals|
    requires forall k :: 0 <= k < |sites| ==> sites[k] < |grid| && OnPlantableGround(grid[sites[k]], normals[sites[k]], 0.9)
    ensures (forall i :: 0 <= i < |grid| ==> grid[i].y < 1.0) ==> sites == []
  {
    if |sites| > 0 {
      assert grid[sites[0]].y >= 1.0;
    }
  }

  /** The recreate button, with the two fields already parsed as integers. */
  function RecreateButton(ed: WorldEditor, size: int, segments: int): (r: WorldEditor)
    requires segments >= 1
    ensures |r.app.terrain.grid| == (segments + 1) * (segments + 1)
    ensures r.app.terrain.size == size as real && RasterShaped(r.app.terrain.splat)
    ensures forall i :: 0 <= i < |r.app.terrain.grid| ==> r.app.terrain.grid[i].y == 0.0
    ensures r.app.(terrain := ed.app.terrain) == ed.app && r.params == ed.params
  {
    ed.(app := ed.app.(terrain := Recreate(ed.app.terrain, size as real, segments)))
  }
}
