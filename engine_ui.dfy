/** The engine's UI manager (src/Classes/UI/UIManager.cpp): the registry of
    scenes and of UI panels, both keyed by name, and the code that fills the
    five engine panels. The handlers it binds are closures; here each one is a
    `Handler` naming what it does and the pointers it captured, and the
    methods at the end of the module state what running it does to the
    engine. The ImGui context, frame set-up and logging are not modelled. */
module EngineUI {
  import opened Optional
  import opened Linear
  import opened Ordering
  import opened Handlers
  import opened UIElements
  import opened UIPanels
  import opened Uniforms
  import opened Shaders
  import opened Resources
  import opened GameObjects
  import opened Scenes

  // ---------------------------------------------------------------------------
  // Panel names, titles and the contents the populate functions produce

  const ShadersPanel := "Shaders"
  const GameObjectsPanel := "GameObjects"
  const ShaderInfoPanel := "ShaderInfo"
  const GameObjectInfoPanel := "GameObjectInfo"
  const FeaturesPanel := "Features"

  const EnginePanels := {ShadersPanel, GameObjectsPanel, ShaderInfoPanel, GameObjectInfoPanel, FeaturesPanel}

  /** The five panel names are different strings. */
  lemma PanelNamesDistinct()
    ensures |EnginePanels| == 5
  {
    assert |ShadersPanel| == 7 && |GameObjectsPanel| == 11 && |ShaderInfoPanel| == 10;
    assert |GameObjectInfoPanel| == 14 && |FeaturesPanel| == 8;
  }

  const RecompileButton := "RecompileShaderButton"

  /** Bounds of the object info sliders. */
  const PositionMin: real := -10.0
  const ScaleMin: real := 0.1
  const TransformMax: real := 10.0

  /** The slider for one component of an object's position or scale, bound to
      a handler that captured the object. */
  function TransformSlider(caption: string, value: real, min: real, target: GameObject,
                           part: Transform, axis: Axis): ElementState
  {
    ElementState(SliderFloat(caption, value, min, TransformMax),
                 Some(Handler(SetObjectComponent(part, axis), [Pointer(target)])))
  }

  const NoObjectContents: map<string, ElementState> :=
    map["NoObjectSelectedLabel" := ElementState(Label("No Game Object Selected."), None)]

  /** The object info panel for `obj`: an empty name label and six sliders
      starting at the object's position and scale. */
  ghost function ObjectInfoContents(obj: GameObject): map<string, ElementState>
    reads obj
  {
    map["ObjectNameLabel" := ElementState(Label(""), None),
        "PositionX" := TransformSlider("Position X", obj.position.x, PositionMin, obj, Position, X),
        "PositionY" := TransformSlider("Position Y", obj.position.y, PositionMin, obj, Position, Y),
        "PositionZ" := TransformSlider("Position Z", obj.position.z, PositionMin, obj, Position, Z),
        "ScaleX" := TransformSlider("Scale X", obj.scale.x, ScaleMin, obj, Scale, X),
        "ScaleY" := TransformSlider("Scale Y", obj.scale.y, ScaleMin, obj, Scale, Y),
        "ScaleZ" := TransformSlider("Scale Z", obj.scale.z, ScaleMin, obj, Scale, Z)]
  }

  /** The element a generated control becomes: a slider starting at zero with
      bounds [-10, 10] and no handler. */
  function ControlState(c: Control): (s: ElementState)
    ensures s.handler == None
    ensures c.FloatSlider? ==> s.widget == SliderFloat(c.name, 0.0, SliderMin, SliderMax)
    ensures c.Vec3Slider? ==> s.widget == SliderVec3(c.name, Zero, SliderMin, SliderMax)
  {
    match c
    case FloatSlider(name) => ElementState(SliderFloat(name, 0.0, SliderMin, SliderMax), None)
    case Vec3Slider(name) => ElementState(SliderVec3(name, Zero, SliderMin, SliderMax), None)
  }

  /** `base` with every generated control stored over it by name. */
  function WithControls(base: map<string, ElementState>, controls: map<string, Control>): map<string, ElementState>
  {
    map n | n in base.Keys + controls.Keys :: if n in controls then ControlState(controls[n]) else base[n]
  }

  /** The recompile button's handler: it captured the shader and its name. */
  function RecompileHandler(shader: Shader, shaderName: string): Handler
  {
    Handler(RecompileShader, [Pointer(shader), Text(shaderName)])
  }

  /** The shader info panel for a shader with a program: the recompile
      button, then one control per accepted uniform, added in order. */
  function ShaderInfoContents(shader: Shader, shaderName: string, uniforms: seq<Uniform>): map<string, ElementState>
  {
    WithControls(map[RecompileButton := ElementState(Button("Recompile Current Shader"), Some(RecompileHandler(shader, shaderName)))],
                 Generated(uniforms))
  }

  /** What the shader info panel holds for a shader with a program: exactly
      the recompile button and the names some uniform yields; a control
      replaces the button when a uniform carries the button's name; only the
      button has a handler. */
  lemma ShaderInfoContentsShape(shader: Shader, shaderName: string, uniforms: seq<Uniform>)
    ensures var contents := ShaderInfoContents(shader, shaderName, uniforms);
      (forall n :: n in contents <==> n == RecompileButton || exists i :: 0 <= i < |uniforms| && Yields(uniforms[i], n))
      && (forall n :: n in contents && n in Generated(uniforms) ==> contents[n] == ControlState(Generated(uniforms)[n]))
      && (forall n :: n in contents && n !in Generated(uniforms) ==>
            n == RecompileButton && contents[n].handler == Some(RecompileHandler(shader, shaderName)))
      && (forall n :: n in contents && contents[n].handler.Some? ==> n == RecompileButton)
  {
    var contents := ShaderInfoContents(shader, shaderName, uniforms);
    GeneratedCovers(uniforms);
    forall n | n in Generated(uniforms)
      ensures exists i :: 0 <= i < |uniforms| && Yields(uniforms[i], n)
    {
      GeneratedLastWins(uniforms, n);
    }
  }

  // ---------------------------------------------------------------------------
  // Adding elements

  /** addUIElement followed by setHandler on the element it returns. */
  method AddWithHandler(panel: UIPanel, name: string, element: UIElement, h: Handler)
    requires panel.Valid() && element.Valid() && element !in panel.elements.Values
    modifies panel, element
    ensures panel.Valid() && panel.elements == old(panel.elements)[name := element]
    ensures element.widget == old(element.widget) && element.handler == Some(h)
    ensures panel.Model() == old(panel.Model())[name := ElementState(old(element.widget), Some(h))]
  {
    var stored := panel.AddUIElement(name, element);
    ghost var added := panel.Model();
    stored.SetHandler(h);
    forall n | n in panel.elements
      ensures panel.Model()[n] == added[name := stored.State()][n]
    {
      if n != name {
        assert panel.elements[n] != stored;
      }
    }
    assert panel.Model().Keys == added.Keys;
  }

  /** One object info slider: a float slider starting at `value` with
      bounds [min, 10] whose handler captured `obj`. */
  method AddTransformSlider(panel: UIPanel, name: string, caption: string, value: real, min: real,
                            obj: GameObject, part: Transform, axis: Axis)
    requires panel.Valid()
    modifies panel
    ensures panel.Valid()
    ensures panel.Model() == old(panel.Model())[name := TransformSlider(caption, value, min, obj, part, axis)]
  {
    var slider := new UIElement.SliderFloatElement(caption, value, min, TransformMax);
    AddWithHandler(panel, name, slider, Handler(SetObjectComponent(part, axis), [Pointer(obj)]));
  }

  /** Adds a handler-less element, returning nothing. */
  method AddPlain(panel: UIPanel, name: string, element: UIElement)
    requires panel.Valid() && element.Valid() && element !in panel.elements.Values
    modifies panel
    ensures panel.Valid()
    ensures panel.Model() == old(panel.Model())[name := element.State()]
  {
    var stored := panel.AddUIElement(name, element);
  }

  /** Storing one more control by name over the panel's contents. */
  lemma WithControlsUpdate(base: map<string, ElementState>, controls: map<string, Control>, c: Control)
    ensures WithControls(base, controls[c.name := c]) == WithControls(base, controls)[c.name := ControlState(c)]
  {
  }

  /** The body of the uniform loop for one uniform: skipped names and types
      without a control add nothing; a float gets a float slider and a vec3 a
      vector slider, stored under its name. */
  method AddUniformControl(panel: UIPanel, u: Uniform)
    requires panel.Valid()
    modifies panel
    ensures panel.Valid()
    ensures panel.Model() == match ControlFor(u)
                             case None => old(panel.Model())
                             case Some(c) => old(panel.Model())[c.name := ControlState(c)]
  {
    var name := ReportedName(u.name);
    if IsSkipped(name) {
      return;
    }
    if u.kind == Float {
      var slider := new UIElement.SliderFloatElement(name, 0.0, SliderMin, SliderMax);
      AddPlain(panel, name, slider);
    } else if u.kind == FloatVec3 {
      var slider := new UIElement.SliderVec3Element(name, Zero, SliderMin, SliderMax);
      AddPlain(panel, name, slider);
    }
  }

  /** The uniform loop: each reported uniform in turn, later names
      overwriting earlier ones. */
  method AddUniformControls(panel: UIPanel, uniforms: seq<Uniform>)
    requires panel.Valid()
    modifies panel
    ensures panel.Valid()
    ensures panel.Model() == WithControls(old(panel.Model()), Generated(uniforms))
  {
    ghost var base := panel.Model();
    assert WithControls(base, Generated(uniforms[..0])) == base;
    for i := 0 to |uniforms|
      invariant panel.Valid()
      invariant panel.Model() == WithControls(base, Generated(uniforms[..i]))
    {
      GeneratedStep(uniforms, i);
      if ControlFor(uniforms[i]).Some? {
        WithControlsUpdate(base, Generated(uniforms[..i]), ControlFor(uniforms[i]).value);
      }
      AddUniformControl(panel, uniforms[i]);
    }
    assert uniforms[..|uniforms|] == uniforms;
  }

  /** A list select's handler captured the select itself. */
  function SelectHandler(callable: Callable, select: UIElement): Handler
  {
    Handler(callable, [Pointer(select)])
  }

  /** Adds a select under `name` whose handler captured it, and returns it. */
  method AddSelect(panel: UIPanel, name: string, caption: string, options: seq<string>, callable: Callable)
    returns (select: UIElement)
    requires panel.Valid()
    modifies panel
    ensures panel.Valid() && panel.elements == old(panel.elements)[name := select]
    ensures select.widget == Select(caption, options, 0) && select.handler == Some(SelectHandler(callable, select))
    ensures panel.Model() == old(panel.Model())[name := ElementState(Select(caption, options, 0), Some(SelectHandler(callable, select)))]
  {
    select := new UIElement.SelectElement(caption, options);
    AddWithHandler(panel, name, select, SelectHandler(callable, select));
  }

  /** One entry of the scene pass: an active scene drawn with its draw calls,
      or an inactive one reported as not rendered. */
  datatype SceneOutcome = Rendered(name: string, calls: seq<GameObjects.DrawCall>) | NotRendered(name: string)

  /** `outcome` reports the scene `scene` stored under `name`: rendered, with
      every object drawn once in name order, exactly when the scene is
      active. */
  ghost predicate OutcomeFor(outcome: SceneOutcome, name: string, scene: Scene)
    reads scene, scene.camera, scene.gameObjects.Values
  {
    outcome.name == name
    && (outcome.Rendered? <==> scene.isActive)
    && (outcome.Rendered? ==> scene.Renderable() && scene.DrawnBy(outcome.calls))
  }

  /** One step of the scene pass: renders `scene` when it is active. */
  method RenderOne(name: string, scene: Scene) returns (outcome: SceneOutcome)
    requires scene.isActive ==> scene.Renderable()
    ensures OutcomeFor(outcome, name, scene)
  {
    if scene.isActive {
      var calls := scene.RenderScene();
      outcome := Rendered(name, calls);
    } else {
      outcome := NotRendered(name);
    }
  }

  /** A panel with the given title and no elements. */
  ghost predicate EmptyPanel(panel: UIPanel, title: string)
    reads panel
  {
    panel.title == title && panel.elements == map[]
  }

  /** A panel holding exactly one element, the select `select`, stored under
      `name`; the select's handler captured the select itself. */
  ghost predicate ListPanel(panel: UIPanel, select: UIElement, title: string, name: string, caption: string,
                            options: seq<string>, callable: Callable)
    reads panel, select
  {
    panel.title == title && panel.elements == map[name := select]
    && select in panel.owner && panel.owner[select] == name
    && select.widget == Select(caption, options, 0) && select.handler == Some(SelectHandler(callable, select))
  }

  /** Such a panel is valid and holds, as values, just that select. */
  lemma ListPanelModel(panel: UIPanel, select: UIElement, title: string, name: string, caption: string,
                       options: seq<string>, callable: Callable)
    requires ListPanel(panel, select, title, name, caption, options, callable)
    ensures panel.Valid()
    ensures panel.Model() == map[name := ElementState(Select(caption, options, 0), Some(SelectHandler(callable, select)))]
  {
  }

  /** The body of populateShaderListPanel once the panel was found. */
  method FillShaderList(panel: UIPanel, resources: ResourceManager) returns (select: UIElement)
    requires panel.Valid()
    modifies panel
    ensures panel.Valid() && panel.elements == old(panel.elements)["shaders" := select]
    ensures select.widget == Select("current Shaders", SortedNames(resources.shaders.Keys), 0) && select.handler == Some(SelectHandler(ShowShaderInfo, select))
    ensures panel.Model() == old(panel.Model())["shaders" := ElementState(
              Select("current Shaders", SortedNames(resources.shaders.Keys), 0),
              Some(SelectHandler(ShowShaderInfo, select)))]
  {
    var names := PushAll([], SortedNames(resources.shaders.Keys));
    assert names == SortedNames(resources.shaders.Keys);
    select := AddSelect(panel, "shaders", "current Shaders", names, ShowShaderInfo);
  }

  /** The body of populateGameObjectListPanel once the panel was found. */
  method FillObjectList(panel: UIPanel, scene: Scene) returns (select: UIElement)
    requires panel.Valid()
    modifies panel
    ensures panel.Valid() && panel.elements == old(panel.elements)["gameObjects" := select]
    ensures select.widget == Select("current gameObjects", SortedNames(scene.gameObjects.Keys), 0) && select.handler == Some(SelectHandler(ShowGameObjectInfo, select))
    ensures panel.Model() == old(panel.Model())["gameObjects" := ElementState(
              Select("current gameObjects", SortedNames(scene.gameObjects.Keys), 0),
              Some(SelectHandler(ShowGameObjectInfo, select)))]
  {
    var objects := scene.GetGameObjects();
    var names := PushAll([], SortedNames(objects.Keys));
    assert names == SortedNames(objects.Keys);
    select := AddSelect(panel, "gameObjects", "current gameObjects", names, ShowGameObjectInfo);
  }

  /** The body of populateFeaturesPanel once the panel was found. */
  method FillFeatures(panel: UIPanel) returns (select: UIElement)
    requires panel.Valid()
    modifies panel
    ensures panel.Valid() && panel.elements == old(panel.elements)["ViewMode" := select]
    ensures select.widget == Select("View mode", ["line", "fill"], 0) && select.handler == Some(SelectHandler(ApplyViewMode, select))
    ensures panel.Model() == old(panel.Model())["ViewMode" := ElementState(
              Select("View mode", ["line", "fill"], 0),
              Some(SelectHandler(ApplyViewMode, select)))]
  {
    select := AddSelect(panel, "ViewMode", "View mode", ["line", "fill"], ApplyViewMode);
  }

  /** Fills the three list panels of a freshly registered engine UI: the
      shader list, the object list of `scene` and the view-mode select. */
  method FillEngineLists(shaderList: UIPanel, objectList: UIPanel, features: UIPanel,
                         resources: ResourceManager, scene: Scene)
    requires EmptyPanel(shaderList, "Shaders") && EmptyPanel(objectList, "Game Objects")
    requires EmptyPanel(features, "Global Features")
    requires shaderList != objectList && shaderList != features && objectList != features
    modifies shaderList, objectList, features
    ensures "shaders" in shaderList.elements
            && ListPanel(shaderList, shaderList.elements["shaders"], "Shaders", "shaders",
                         "current Shaders", SortedNames(resources.shaders.Keys), ShowShaderInfo)
    ensures "gameObjects" in objectList.elements
            && ListPanel(objectList, objectList.elements["gameObjects"], "Game Objects", "gameObjects",
                         "current gameObjects", SortedNames(scene.gameObjects.Keys), ShowGameObjectInfo)
    ensures "ViewMode" in features.elements
            && ListPanel(features, features.elements["ViewMode"], "Global Features", "ViewMode",
                         "View mode", ["line", "fill"], ApplyViewMode)
  {
    var shaderSelect := FillShaderList(shaderList, resources);
    assert ListPanel(shaderList, shaderSelect, "Shaders", "shaders", "current Shaders",
                     SortedNames(resources.shaders.Keys), ShowShaderInfo);
    var objectSelect := FillObjectList(objectList, scene);
    assert ListPanel(objectList, objectSelect, "Game Objects", "gameObjects", "current gameObjects",
                     SortedNames(scene.gameObjects.Keys), ShowGameObjectInfo);
    var featureSelect := FillFeatures(features);
  }

  // ---------------------------------------------------------------------------
  // What the bound handlers do when they run

  /** An object info slider's handler: copies the slider's value into one
      component of the captured object's position or scale, through the
      setter, so the model matrix follows. */
  method ApplyTransformSlider(inv: Invocation, obj: GameObject, observed: Widget)
    requires inv.callable.SetObjectComponent? && inv.args == [Pointer(obj)]
    requires observed.SliderFloat?
    modifies obj
    ensures inv.callable.part == Position ==>
              obj.position == WithComponent(old(obj.position), inv.callable.axis, observed.value)
              && obj.scale == old(obj.scale)
    ensures inv.callable.part == Scale ==>
              obj.scale == WithComponent(old(obj.scale), inv.callable.axis, observed.value)
              && obj.position == old(obj.position)
    ensures obj.rotation == old(obj.rotation) && obj.mesh == old(obj.mesh) && obj.material == old(obj.material)
    ensures obj.Valid()
  {
    var value := observed.value;
    if inv.callable.part == Position {
      var current := obj.GetPosition();
      obj.SetPosition(WithComponent(current, inv.callable.axis, value));
    } else {
      var current := obj.GetScale();
      obj.SetScale(WithComponent(current, inv.callable.axis, value));
    }
  }

  /** Running a transform slider's handler leaves the edited component equal
      to the slider's value and every other component as it was. */
  lemma SliderComponentFollows(v: Vec3, a: Axis, value: real)
    ensures Component(WithComponent(v, a, value), a) == value
    ensures forall b :: b != a ==> Component(WithComponent(v, a, value), b) == Component(v, b)
    ensures WithComponent(WithComponent(v, a, value), a, Component(v, a)) == v
  {
  }

  /** The rasterisation mode glPolygonMode is set to. */
  datatype PolygonMode = Line | Fill

  /** The view-mode handler: index 0 draws lines, index 1 and any other index
      fill. */
  function ViewModeFor(observed: Widget): (mode: PolygonMode)
    requires observed.Select?
    ensures mode == Line <==> observed.selected == 0
  {
    match observed.selected
    case 0 => Line
    case 1 => Fill
    case _ => Fill
  }

  /** With the view-mode select's two options, the mode applied is the one
      the selected option names; an index outside the options (no option,
      shown as "") fills. */
  lemma ViewModeMatchesOption(caption: string, selected: int)
    ensures var observed := Select(caption, ["line", "fill"], selected);
      (ViewModeFor(observed) == Line <==> SelectedOption(observed) == "line")
      && (ViewModeFor(observed) == Fill <==> SelectedOption(observed) != "line")
  {
    var observed := Select(caption, ["line", "fill"], selected);
    assert "fill" != "line" by { assert "fill"[0] != "line"[0]; }
    assert "" != "line";
  }

  /** The recompile button's handler as written: reloads the captured
      shader's recorded source names under the captured name. The sources are
      passed as C strings, and the vertex and fragment names are turned into
      strings unchecked, so both must be recorded; the geometry name may be
      absent. `directory`, `existing` and `programId` stand for the source
      directory, the files on disk and the program ID the GL assigns. */
  method RecompileAsWritten(inv: Invocation, resources: ResourceManager, shader: Shader, shaderName: string,
                            directory: string, existing: set<string>, programId: nat)
    requires inv == Execute(RecompileHandler(shader, shaderName))
    requires resources.Valid() && shader.vertexFile != "" && shader.fragmentFile != ""
    modifies resources, if shaderName in resources.shaders then {resources.shaders[shaderName]} else {}
    ensures resources.Valid() && resources.textures == old(resources.textures)
    ensures shaderName in resources.shaders
    ensures resources.ShaderValues() == old(resources.ShaderValues())[shaderName :=
              LoadedShader(old(shader.vertexFile), old(shader.fragmentFile), old(shader.GetGeometrySource()),
                           directory, existing, programId)]
  {
    var vertex := shader.GetVertexSource();
    var fragment := shader.GetFragmentSource();
    var geometry := shader.GetGeometrySource();
    var copy := resources.LoadShader(vertex.value, fragment.value, geometry, shaderName,
                                     directory, existing, programId);
  }

  /** As written, a reload that finds the vertex file missing leaves no vertex
      name in the slot, and one that finds the vertex or the fragment file
      missing leaves no fragment name. The button's handler captured that
      very slot, so its next click reads an unrecorded name: it falls outside
      what `RecompileAsWritten` can be called on. */
  lemma ReloadLosesSourceNames(s: ShaderValue, directory: string, existing: set<string>, programId: nat)
    requires s.vertex != "" && s.fragment != ""
    ensures var r := LoadedShader(s.vertex, s.fragment, Reported(s.geometry), directory, existing, programId);
      (r.vertex == "" <==> directory + s.vertex !in existing)
      && (r.fragment == "" <==> directory + s.vertex !in existing || directory + s.fragment !in existing)
  {
  }

  /** One input that shows it: a shader built from "basic.vert" and
      "basic.frag" whose vertex file is gone at the first click. After that
      click the slot holds no source names at all. */
  lemma ReloadWithoutVertexFile()
    ensures LoadedShader("basic.vert", "basic.frag", None, "shaders/", {"shaders/basic.frag"}, 7) == NoShader
  {
    assert "shaders/" + "basic.vert" != "shaders/basic.frag" by {
      assert ("shaders/" + "basic.vert")[14] != "shaders/basic.frag"[14];
    }
  }

  /** The slot's value after the corrected handler runs: reloaded from its
      recorded names when the vertex and fragment names are both recorded,
      and otherwise left as it is. */
  function Reloaded(s: ShaderValue, directory: string, existing: set<string>, programId: nat): ShaderValue
  {
    if s.vertex != "" && s.fragment != "" then
      LoadedShader(s.vertex, s.fragment, Reported(s.geometry), directory, existing, programId)
    else s
  }

  /** The recompile button's handler, corrected: it reloads only when the
      vertex and fragment names are recorded and otherwise does nothing, so
      it is defined however often the button is clicked. */
  method Recompile(inv: Invocation, resources: ResourceManager, shader: Shader, shaderName: string,
                   directory: string, existing: set<string>, programId: nat)
    requires inv == Execute(RecompileHandler(shader, shaderName))
    requires resources.Valid()
    modifies resources, if shaderName in resources.shaders then {resources.shaders[shaderName]} else {}
    ensures resources.Valid() && resources.textures == old(resources.textures)
    ensures old(shader.vertexFile) != "" && old(shader.fragmentFile) != "" ==>
              shaderName in resources.shaders
              && resources.ShaderValues() == old(resources.ShaderValues())[shaderName :=
                   LoadedShader(old(shader.vertexFile), old(shader.fragmentFile), old(shader.GetGeometrySource()),
                                directory, existing, programId)]
    ensures old(shader.vertexFile) == "" || old(shader.fragmentFile) == "" ==>
              resources.shaders == old(resources.shaders) && resources.ShaderValues() == old(resources.ShaderValues())
    ensures shaderName in old(resources.shaders) && old(resources.shaders[shaderName]) == shader ==>
              resources.ShaderValues()[shaderName] == Reloaded(old(shader.Value()), directory, existing, programId)
  {
    var vertex := shader.GetVertexSource();
    var fragment := shader.GetFragmentSource();
    if vertex == None || fragment == None {
      return;
    }
    var geometry := shader.GetGeometrySource();
    var copy := resources.LoadShader(vertex.value, fragment.value, geometry, shaderName,
                                     directory, existing, programId);
  }

  /** With the correction, the click after a reload that found the vertex or
      fragment file missing is defined and leaves the slot as that reload
      left it, whatever files exist by then. */
  lemma ClickAfterFailedReload(s: ShaderValue, directory: string, existing: set<string>, programId: nat,
                               later: set<string>, laterId: nat)
    requires s.vertex != "" && s.fragment != ""
    requires directory + s.vertex !in existing || directory + s.fragment !in existing
    ensures var once := Reloaded(s, directory, existing, programId);
      once.id == 0 && Reloaded(once, directory, later, laterId) == once
  {
    ReloadLosesSourceNames(s, directory, existing, programId);
  }

  /** Recompiling a shader whose files are all on disk records the same source
      names again, with the new program ID. */
  lemma RecompileKeepsSources(s: ShaderValue, directory: string, existing: set<string>, programId: nat)
    requires s.vertex != "" && s.fragment != ""
    requires directory + s.vertex in existing && directory + s.fragment in existing
    requires s.geometry != "" ==> directory + s.geometry in existing
    ensures LoadedShader(s.vertex, s.fragment, Reported(s.geometry), directory, existing, programId)
         == s.(id := programId)
  {
  }

  // ---------------------------------------------------------------------------
  // The manager

  class UIManager {
    var scenes: map<string, Scene>
    var panels: map<string, UIPanel>

    constructor()
      ensures scenes == map[] && panels == map[]
    {
      scenes := map[];
      panels := map[];
    }

    /** Stores `newScene` under `name`, replacing any scene there. */
    method AddScene(newScene: Scene, name: string)
      modifies this
      ensures scenes == old(scenes)[name := newScene] && panels == old(panels)
    {
      scenes := scenes[name := newScene];
    }

    /** Stores `newPanel` under `name`, replacing any panel there. */
    method AddUIPanel(newPanel: UIPanel, name: string)
      modifies this
      ensures panels == old(panels)[name := newPanel] && scenes == old(scenes)
    {
      panels := panels[name := newPanel];
    }

    /** The panel under `name`, or null when there is none. */
    function GetUIPanel(name: string): (r: UIPanel?)
      reads this
      ensures r == null <==> name !in panels
      ensures r != null ==> r == panels[name]
    {
      if name in panels then panels[name] else null
    }

    /** Refills the object info panel for `obj`, or with a single label when
        there is no object; nothing happens when the panel is missing. */
    method PopulateGameObjectInfoPanel(obj: GameObject?, objectName: string)
      modifies if GameObjectInfoPanel in panels then {panels[GameObjectInfoPanel]} else {}
      ensures GameObjectInfoPanel in panels ==>
                panels[GameObjectInfoPanel].Valid()
                && panels[GameObjectInfoPanel].Model() == (if obj == null then NoObjectContents else ObjectInfoContents(obj))
    {
      var panel := GetUIPanel(GameObjectInfoPanel);
      if panel == null {
        return;
      }
      panel.ClearUIElements();
      if obj == null {
        var notice := new UIElement.LabelElement("No Game Object Selected.");
        AddPlain(panel, "NoObjectSelectedLabel", notice);
        return;
      }
      var nameLabel := new UIElement.LabelElement("");
      AddPlain(panel, "ObjectNameLabel", nameLabel);
      var position := obj.GetPosition();
      AddTransformSlider(panel, "PositionX", "Position X", position.x, PositionMin, obj, Position, X);
      AddTransformSlider(panel, "PositionY", "Position Y", position.y, PositionMin, obj, Position, Y);
      AddTransformSlider(panel, "PositionZ", "Position Z", position.z, PositionMin, obj, Position, Z);
      var scale := obj.GetScale();
      AddTransformSlider(panel, "ScaleX", "Scale X", scale.x, ScaleMin, obj, Scale, X);
      AddTransformSlider(panel, "ScaleY", "Scale Y", scale.y, ScaleMin, obj, Scale, Y);
      AddTransformSlider(panel, "ScaleZ", "Scale Z", scale.z, ScaleMin, obj, Scale, Z);
    }

    /** Refills the shader info panel: emptied first, left empty for a null
        shader or one without a program, otherwise the recompile button and
        the controls generated from the program's active uniforms. Nothing
        happens when the panel is missing. */
    method PopulateShaderInfoPanel(shader: Shader?, shaderName: string, uniforms: seq<Uniform>)
      modifies if ShaderInfoPanel in panels then {panels[ShaderInfoPanel]} else {}
      ensures ShaderInfoPanel in panels ==>
                panels[ShaderInfoPanel].Valid()
                && panels[ShaderInfoPanel].Model()
                   == (if shader == null || shader.id == 0 then map[] else ShaderInfoContents(shader, shaderName, uniforms))
    {
      var panel := GetUIPanel(ShaderInfoPanel);
      if panel == null {
        return;
      }
      panel.ClearUIElements();
      if shader == null || shader.id == 0 {
        return;
      }
      var button := new UIElement.ButtonElement("Recompile Current Shader");
      AddWithHandler(panel, RecompileButton, button, RecompileHandler(shader, shaderName));
      AddUniformControls(panel, uniforms);
    }

    /** Adds the "shaders" select listing every shader name in map order; its
        handler shows the selected shader. */
    method PopulateShaderListPanel(resources: ResourceManager)
      requires ShadersPanel in panels ==> panels[ShadersPanel].Valid()
      modifies if ShadersPanel in panels then {panels[ShadersPanel]} else {}
      ensures ShadersPanel in panels ==>
                var panel := panels[ShadersPanel];
                panel.Valid() && "shaders" in panel.elements
                && panel.Model() == old(panel.Model())["shaders" := ElementState(
                     Select("current Shaders", SortedNames(resources.shaders.Keys), 0),
                     Some(SelectHandler(ShowShaderInfo, panel.elements["shaders"])))]
    {
      var panel := GetUIPanel(ShadersPanel);
      if panel == null {
        return;
      }
      var select := FillShaderList(panel, resources);
    }

    /** Adds the "gameObjects" select listing the standard scene's objects in
        map order; its handler shows the selected object. The source looks the
        scene up with operator[] and dereferences the result, so the scene must
        be registered. */
    method PopulateGameObjectListPanel(stdScene: string)
      requires GameObjectsPanel in panels ==> panels[GameObjectsPanel].Valid() && stdScene in scenes
      modifies if GameObjectsPanel in panels then {panels[GameObjectsPanel]} else {}
      ensures GameObjectsPanel in panels ==>
                var panel := panels[GameObjectsPanel];
                panel.Valid() && "gameObjects" in panel.elements
                && panel.Model() == old(panel.Model())["gameObjects" := ElementState(
                     Select("current gameObjects", SortedNames(scenes[stdScene].gameObjects.Keys), 0),
                     Some(SelectHandler(ShowGameObjectInfo, panel.elements["gameObjects"])))]
    {
      var panel := GetUIPanel(GameObjectsPanel);
      if panel == null {
        return;
      }
      var select := FillObjectList(panel, scenes[stdScene]);
    }

    /** Adds the "ViewMode" select with the options line and fill. */
    method PopulateFeaturesPanel()
      requires FeaturesPanel in panels ==> panels[FeaturesPanel].Valid()
      modifies if FeaturesPanel in panels then {panels[FeaturesPanel]} else {}
      ensures FeaturesPanel in panels ==>
                var panel := panels[FeaturesPanel];
                panel.Valid() && "ViewMode" in panel.elements
                && panel.Model() == old(panel.Model())["ViewMode" := ElementState(
                     Select("View mode", ["line", "fill"], 0),
                     Some(SelectHandler(ApplyViewMode, panel.elements["ViewMode"])))]
    {
      var panel := GetUIPanel(FeaturesPanel);
      if panel == null {
        return;
      }
      var select := FillFeatures(panel);
    }

    /** The shader list's handler: looks the selected option up among the
        registered shaders and, when it is there, fills the shader info
        panel for it; otherwise nothing changes. `uniforms` is what the GL
        reports for that shader's program. */
    method ShowSelectedShader(inv: Invocation, select: UIElement, resources: ResourceManager,
                              uniforms: seq<Uniform>)
      requires inv == Execute(SelectHandler(ShowShaderInfo, select)) && select.widget.Select?
      modifies if ShaderInfoPanel in panels then {panels[ShaderInfoPanel]} else {}
      ensures var option := SelectedOption(select.widget);
        option in resources.shaders && ShaderInfoPanel in panels ==>
          panels[ShaderInfoPanel].Valid()
          && panels[ShaderInfoPanel].Model()
             == (if resources.shaders[option].id == 0 then map[]
                 else ShaderInfoContents(resources.shaders[option], option, uniforms))
      ensures SelectedOption(select.widget) !in resources.shaders && ShaderInfoPanel in panels ==>
                unchanged(panels[ShaderInfoPanel])
    {
      var selectedShader := select.GetSelectedOption();
      if selectedShader in resources.shaders {
        var shader := resources.shaders[selectedShader];
        PopulateShaderInfoPanel(shader, selectedShader, uniforms);
      }
    }

    /** The object list's handler: looks the selected option up among the
        objects of the standard scene and, when it is there, fills the object
        info panel for it; otherwise nothing changes. The scene is looked up
        with operator[] and dereferenced, so it must be registered. */
    method ShowSelectedObject(inv: Invocation, select: UIElement, stdScene: string)
      requires inv == Execute(SelectHandler(ShowGameObjectInfo, select)) && select.widget.Select?
      requires stdScene in scenes
      modifies if GameObjectInfoPanel in panels then {panels[GameObjectInfoPanel]} else {}
      ensures var option := SelectedOption(select.widget);
        option in scenes[stdScene].gameObjects && GameObjectInfoPanel in panels ==>
          panels[GameObjectInfoPanel].Valid()
          && panels[GameObjectInfoPanel].Model() == ObjectInfoContents(scenes[stdScene].gameObjects[option])
      ensures SelectedOption(select.widget) !in scenes[stdScene].gameObjects && GameObjectInfoPanel in panels ==>
                unchanged(panels[GameObjectInfoPanel])
    {
      var selectedName := select.GetSelectedOption();
      var objects := scenes[stdScene].GetGameObjects();
      if selectedName in objects {
        PopulateGameObjectInfoPanel(objects[selectedName], selectedName);
      }
    }

    /** Registers the five engine panels under their names, each new and
        empty. */
    method RegisterEnginePanels()
      modifies this
      ensures scenes == old(scenes)
      ensures EnginePanelsFresh() && EnginePanelsEmpty()
      ensures panels == old(panels)[ShadersPanel := panels[ShadersPanel]][GameObjectsPanel := panels[GameObjectsPanel]]
                         [ShaderInfoPanel := panels[ShaderInfoPanel]][GameObjectInfoPanel := panels[GameObjectInfoPanel]]
                         [FeaturesPanel := panels[FeaturesPanel]]
      ensures fresh(panels[ShadersPanel]) && fresh(panels[GameObjectsPanel]) && fresh(panels[ShaderInfoPanel])
      ensures fresh(panels[GameObjectInfoPanel]) && fresh(panels[FeaturesPanel])
    {
      PanelNamesDistinct();
      var shaderList := new UIPanel("Shaders");
      AddUIPanel(shaderList, ShadersPanel);
      var objectList := new UIPanel("Game Objects");
      AddUIPanel(objectList, GameObjectsPanel);
      var shaderInfo := new UIPanel("Shader Info");
      AddUIPanel(shaderInfo, ShaderInfoPanel);
      var objectInfo := new UIPanel("GameObject Info");
      AddUIPanel(objectInfo, GameObjectInfoPanel);
      var features := new UIPanel("Global Features");
      AddUIPanel(features, FeaturesPanel);
      assert panels[ShadersPanel] == shaderList && panels[GameObjectsPanel] == objectList;
      assert panels[ShaderInfoPanel] == shaderInfo && panels[GameObjectInfoPanel] == objectInfo;
      assert panels[FeaturesPanel] == features;
    }

    /** The five engine panels are registered and are five different panels. */
    ghost predicate EnginePanelsFresh()
      reads this
    {
      EnginePanels <= panels.Keys
      && panels[ShadersPanel] != panels[GameObjectsPanel] && panels[ShadersPanel] != panels[ShaderInfoPanel]
      && panels[ShadersPanel] != panels[GameObjectInfoPanel] && panels[ShadersPanel] != panels[FeaturesPanel]
      && panels[GameObjectsPanel] != panels[ShaderInfoPanel] && panels[GameObjectsPanel] != panels[GameObjectInfoPanel]
      && panels[GameObjectsPanel] != panels[FeaturesPanel] && panels[ShaderInfoPanel] != panels[GameObjectInfoPanel]
      && panels[ShaderInfoPanel] != panels[FeaturesPanel] && panels[GameObjectInfoPanel] != panels[FeaturesPanel]
    }

    /** Each engine panel is registered with its title and no elements. */
    ghost predicate EnginePanelsEmpty()
      requires EnginePanels <= panels.Keys
      reads this, panels[ShadersPanel], panels[GameObjectsPanel], panels[ShaderInfoPanel]
      reads panels[GameObjectInfoPanel], panels[FeaturesPanel]
    {
      EmptyPanel(panels[ShadersPanel], "Shaders") && EmptyPanel(panels[GameObjectsPanel], "Game Objects")
      && EmptyPanel(panels[ShaderInfoPanel], "Shader Info") && EmptyPanel(panels[GameObjectInfoPanel], "GameObject Info")
      && EmptyPanel(panels[FeaturesPanel], "Global Features")
    }

    /** Registers the five engine panels, each new and empty, then fills the
        shader list, the object list and the features panel. The two info
        panels stay empty until something is selected. */
    method GenerateEngineUI(resources: ResourceManager, stdScene: string)
      requires stdScene in scenes
      modifies this
      ensures scenes == old(scenes) && EnginePanelsFresh()
      ensures forall n :: n in old(panels) && n !in EnginePanels ==> n in panels && panels[n] == old(panels)[n]
      ensures fresh(panels[ShadersPanel]) && fresh(panels[GameObjectsPanel]) && fresh(panels[ShaderInfoPanel])
      ensures fresh(panels[GameObjectInfoPanel]) && fresh(panels[FeaturesPanel])
      ensures EmptyPanel(panels[ShaderInfoPanel], "Shader Info") && EmptyPanel(panels[GameObjectInfoPanel], "GameObject Info")
      ensures "shaders" in panels[ShadersPanel].elements
              && ListPanel(panels[ShadersPanel], panels[ShadersPanel].elements["shaders"], "Shaders", "shaders",
                           "current Shaders", SortedNames(resources.shaders.Keys), ShowShaderInfo)
      ensures "gameObjects" in panels[GameObjectsPanel].elements
              && ListPanel(panels[GameObjectsPanel], panels[GameObjectsPanel].elements["gameObjects"], "Game Objects",
                           "gameObjects", "current gameObjects", SortedNames(scenes[stdScene].gameObjects.Keys),
                           ShowGameObjectInfo)
      ensures "ViewMode" in panels[FeaturesPanel].elements
              && ListPanel(panels[FeaturesPanel], panels[FeaturesPanel].elements["ViewMode"], "Global Features",
                           "ViewMode", "View mode", ["line", "fill"], ApplyViewMode)
    {
      RegisterEnginePanels();
      FillEngineLists(panels[ShadersPanel], panels[GameObjectsPanel], panels[FeaturesPanel],
                      resources, scenes[stdScene]);
    }

    /** Empties every registered panel, in map order; the panels stay
        registered. */
    method Shutdown()
      modifies set n | n in panels :: panels[n]
      ensures forall n :: n in panels ==> panels[n].elements == map[] && panels[n].Valid()
    {
      var names := SortedNames(panels.Keys);
      for i := 0 to |names|
        invariant forall j :: 0 <= j < i ==> panels[names[j]].elements == map[] && panels[names[j]].Valid()
      {
        panels[names[i]].ClearUIElements();
      }
    }

    /** Renders every active scene and reports every inactive one, in map
        order. An active scene's objects and camera are dereferenced, so they
        must be there. */
    method RenderActiveScenes() returns (outcomes: seq<SceneOutcome>)
      requires forall n :: n in scenes && scenes[n].isActive ==> scenes[n].Renderable()
      ensures |outcomes| == |scenes|
      ensures forall i :: 0 <= i < |outcomes| ==>
                SortedNames(scenes.Keys)[i] in scenes
                && OutcomeFor(outcomes[i], SortedNames(scenes.Keys)[i], scenes[SortedNames(scenes.Keys)[i]])
    {
      var names := SortedNames(scenes.Keys);
      outcomes := [];
      for i := 0 to |names|
        invariant |outcomes| == i
        invariant forall j :: 0 <= j < i ==> OutcomeFor(outcomes[j], names[j], scenes[names[j]])
      {
        var outcome := RenderOne(names[i], scenes[names[i]]);
        outcomes := outcomes + [outcome];
      }
    }
  }
}
