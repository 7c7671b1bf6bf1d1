/** The earlier revision of the UI (src/Classes/UIManager.cpp with
    includes/UtilClasses/UIManager.h): one registry of elements keyed by name,
    without panels or handlers, and a per-frame flag that records whether any
    element reported a change while the registry was rendered. Its select
    does not report through rendering; a caller polls it with `IsChanged`,
    which compares the current index with the one seen at the previous poll. */
module FlatUI {
  import opened Optional
  import opened Linear
  import opened Ordering
  import opened ImGui
  import opened Uniforms
  import opened Shaders
  import UIElements
  import UIPanels
  import EngineUI

  /** The state of one element of this revision, by kind. */
  datatype FlatWidget =
    | FlatButton(caption: string, clickedThisFrame: bool)
    | FlatSliderFloat(caption: string, value: real, min: real, max: real)
    | FlatSliderVec3(caption: string, vec: Vec3, min: real, max: real)
    | FlatSelect(caption: string, options: seq<string>, selected: int, previous: int)

  /** What `render` returns: the widget call's report for a button or a
      slider; a select always returns false. */
  predicate FlatReports(w: FlatWidget, input: Interaction)
  {
    !w.FlatSelect? && input.pressed
  }

  /** The element's state once its widget call returned. A button remembers
      whether it was clicked; a select takes the last option picked while its
      tree node was open. */
  function FlatAfterFrame(w: FlatWidget, input: Interaction): FlatWidget
  {
    match w
    case FlatButton(_, _) => w.(clickedThisFrame := input.pressed)
    case FlatSliderFloat(_, _, _, _) => if input.pressed then w.(value := input.value) else w
    case FlatSliderVec3(_, _, _, _) => if input.pressed then w.(vec := input.vec) else w
    case FlatSelect(_, options, selected, _) =>
      if input.comboOpen then w.(selected := UIElements.LastPick(input, |options|, selected)) else w
  }

  /** A select's index moved since the last poll. */
  predicate HasChanged(w: FlatWidget)
    requires w.FlatSelect?
  {
    w.selected != w.previous
  }

  /** `isClicked` after a render reports exactly what that render returned. */
  lemma ClickedIsLastRender(w: FlatWidget, input: Interaction)
    requires w.FlatButton?
    ensures FlatAfterFrame(w, input).clickedThisFrame == FlatReports(w, input) == input.pressed
  {
  }

  /** A select that was polled, then rendered, is seen as changed at the next
      poll exactly when an option was picked while it was open and the last
      option picked is not the one it held. Rendering it still returns false,
      so the per-frame flag never records a selection. */
  lemma SelectChangeSeenByPoll(w: FlatWidget, input: Interaction)
    requires w.FlatSelect? && !HasChanged(w)
    ensures HasChanged(FlatAfterFrame(w, input))
        <==> input.comboOpen && UIElements.AnyPicked(input, |w.options|)
              && UIElements.LastPick(input, |w.options|, w.selected) != w.selected
    ensures !FlatReports(w, input)
  {
  }

  /** The kinds the typed getters look for. */
  datatype FlatKind = ButtonKind | SliderFloatKind | SliderVec3Kind | SelectKind

  predicate OfKind(w: FlatWidget, k: FlatKind)
  {
    match k
    case ButtonKind => w.FlatButton?
    case SliderFloatKind => w.FlatSliderFloat?
    case SliderVec3Kind => w.FlatSliderVec3?
    case SelectKind => w.FlatSelect?
  }

  class FlatElement {
    var widget: FlatWidget

    /** A button that was never clicked. */
    constructor ButtonElement(caption: string)
      ensures widget == FlatButton(caption, false)
    {
      widget := FlatButton(caption, false);
    }

    constructor SliderFloatElement(caption: string, initialValue: real, min: real, max: real)
      ensures widget == FlatSliderFloat(caption, initialValue, min, max)
    {
      widget := FlatSliderFloat(caption, initialValue, min, max);
    }

    constructor SliderVec3Element(caption: string, initialValue: Vec3, min: real, max: real)
      ensures widget == FlatSliderVec3(caption, initialValue, min, max)
    {
      widget := FlatSliderVec3(caption, initialValue, min, max);
    }

    /** A select starts with no option selected and none seen: both indexes
        are -1, so the first poll reports no change. */
    constructor SelectElement(caption: string, options: seq<string>)
      ensures widget == FlatSelect(caption, options, -1, -1) && !HasChanged(widget)
    {
      widget := FlatSelect(caption, options, -1, -1);
    }

    /** Draws the widget and lets its report update the state; returns what
        the widget call reported (false for a select). */
    method Render(input: Interaction) returns (changed: bool)
      modifies this
      ensures widget == FlatAfterFrame(old(widget), input)
      ensures changed == FlatReports(old(widget), input)
    {
      match widget
      case FlatButton(_, _) =>
        widget := widget.(clickedThisFrame := input.pressed);
        changed := input.pressed;
      case FlatSliderFloat(_, _, _, _) =>
        if input.pressed {
          widget := widget.(value := input.value);
        }
        changed := input.pressed;
      case FlatSliderVec3(_, _, _, _) =>
        if input.pressed {
          widget := widget.(vec := input.vec);
        }
        changed := input.pressed;
      case FlatSelect(_, _, _, _) =>
        RenderSelect(input);
        changed := false;
    }

    /** The select's tree node: while it is open, each option in turn becomes
        the selected one when it is picked. */
    method RenderSelect(input: Interaction)
      requires widget.FlatSelect?
      modifies this
      ensures widget == FlatAfterFrame(old(widget), input)
    {
      if input.comboOpen {
        var options := widget.options;
        var n := 0;
        while n < |options|
          invariant 0 <= n <= |options|
          invariant widget == old(widget).(selected := UIElements.LastPick(input, n, old(widget).selected))
        {
          if Picked(input, n) {
            widget := widget.(selected := n);
          }
          n := n + 1;
        }
      }
    }

    function IsClicked(): (clicked: bool)
      reads this
      requires widget.FlatButton?
      ensures clicked == widget.clickedThisFrame
    {
      widget.clickedThisFrame
    }

    function GetValue(): (value: real)
      reads this
      requires widget.FlatSliderFloat?
      ensures value == widget.value
    {
      widget.value
    }

    /** Stores the value as given, even outside the slider's bounds. */
    method SetValue(value: real)
      requires widget.FlatSliderFloat?
      modifies this
      ensures widget == old(widget).(value := value) && GetValue() == value
    {
      widget := widget.(value := value);
    }

    function GetVec3Value(): (value: Vec3)
      reads this
      requires widget.FlatSliderVec3?
      ensures value == widget.vec
    {
      widget.vec
    }

    method SetVec3Value(value: Vec3)
      requires widget.FlatSliderVec3?
      modifies this
      ensures widget == old(widget).(vec := value) && GetVec3Value() == value
    {
      widget := widget.(vec := value);
    }

    /** Reports whether the index moved since the last poll, and remembers
        the current index, so that an immediate second poll reports no
        change. */
    method IsChanged() returns (changed: bool)
      requires widget.FlatSelect?
      modifies this
      ensures changed == HasChanged(old(widget))
      ensures widget == old(widget).(previous := old(widget).selected) && !HasChanged(widget)
    {
      changed := widget.previous != widget.selected;
      widget := widget.(previous := widget.selected);
    }

    function GetSelected(): (selected: int)
      reads this
      requires widget.FlatSelect?
      ensures selected == widget.selected
    {
      widget.selected
    }
  }

  // ---------------------------------------------------------------------------
  // Rendering the registry, as values

  /** The widgets after one render pass over the whole registry. */
  function FlatRenderedModel(model: map<string, FlatWidget>, frame: map<string, Interaction>): map<string, FlatWidget>
  {
    map n | n in model :: FlatAfterFrame(model[n], UIPanels.InputFor(frame, n))
  }

  /** The widgets after the ones named in `done` were rendered. */
  function FlatRenderedOn(model: map<string, FlatWidget>, done: seq<string>, frame: map<string, Interaction>): map<string, FlatWidget>
  {
    map n | n in model :: if n in done then FlatAfterFrame(model[n], UIPanels.InputFor(frame, n)) else model[n]
  }

  /** Some element named in `names` reports an interaction. */
  predicate AnyReports(names: seq<string>, model: map<string, FlatWidget>, frame: map<string, Interaction>)
    requires forall n :: n in names ==> n in model
  {
    names != []
    && (AnyReports(names[..|names| - 1], model, frame)
        || FlatReports(model[names[|names| - 1]], UIPanels.InputFor(frame, names[|names| - 1])))
  }

  lemma {:induction false} AnyReportsIff(names: seq<string>, model: map<string, FlatWidget>, frame: map<string, Interaction>)
    requires forall n :: n in names ==> n in model
    ensures AnyReports(names, model, frame)
        <==> exists n :: n in names && FlatReports(model[n], UIPanels.InputFor(frame, n))
  {
    if names != [] {
      var init := names[..|names| - 1];
      AnyReportsIff(init, model, frame);
      assert names == init + [names[|names| - 1]];
    }
  }

  /** Rendering every element of the registry reports an interaction exactly
      when some element of the registry reports one. */
  lemma AnyReportsInModel(names: seq<string>, model: map<string, FlatWidget>, frame: map<string, Interaction>)
    requires forall n :: n in model <==> n in names
    ensures AnyReports(names, model, frame)
        <==> exists n :: n in model && FlatReports(model[n], UIPanels.InputFor(frame, n))
  {
    AnyReportsIff(names, model, frame);
  }

  lemma FlatRenderedOnAll(model: map<string, FlatWidget>, names: seq<string>, frame: map<string, Interaction>)
    requires forall n :: n in model ==> n in names
    ensures FlatRenderedOn(model, names, frame) == FlatRenderedModel(model, frame)
  {
  }

  /** Rendering the next name of a list of distinct names renders that
      element from its initial state and extends the report by it. */
  lemma FlatRenderedStep(names: seq<string>, i: int, model: map<string, FlatWidget>, frame: map<string, Interaction>)
    requires 0 <= i < |names| && forall n :: n in names ==> n in model
    requires forall j, k :: 0 <= j < k < |names| ==> names[j] != names[k]
    ensures FlatRenderedOn(model, names[..i], frame)[names[i]] == model[names[i]]
    ensures FlatRenderedOn(model, names[..i], frame)[names[i] := FlatAfterFrame(model[names[i]], UIPanels.InputFor(frame, names[i]))]
         == FlatRenderedOn(model, names[..i + 1], frame)
    ensures AnyReports(names[..i + 1], model, frame)
        == (AnyReports(names[..i], model, frame) || FlatReports(model[names[i]], UIPanels.InputFor(frame, names[i])))
  {
    assert names[..i + 1] == names[..i] + [names[i]];
    assert names[..i + 1][..i] == names[..i];
  }

  // ---------------------------------------------------------------------------
  // Shader controls

  /** The element this revision adds for a generated control; its sliders have
      the same bounds and start values as the panel revision's. */
  function FlatControl(c: Control): (w: FlatWidget)
    ensures c.FloatSlider? ==> w == FlatSliderFloat(c.name, 0.0, SliderMin, SliderMax)
    ensures c.Vec3Slider? ==> w == FlatSliderVec3(c.name, Zero, SliderMin, SliderMax)
  {
    match c
    case FloatSlider(name) => FlatSliderFloat(name, 0.0, SliderMin, SliderMax)
    case Vec3Slider(name) => FlatSliderVec3(name, Zero, SliderMin, SliderMax)
  }

  function FlatWithControls(base: map<string, FlatWidget>, controls: map<string, Control>): map<string, FlatWidget>
  {
    map n | n in base.Keys + controls.Keys :: if n in controls then FlatControl(controls[n]) else base[n]
  }

  lemma FlatWithControlsUpdate(base: map<string, FlatWidget>, controls: map<string, Control>, c: Control)
    ensures FlatWithControls(base, controls[c.name := c]) == FlatWithControls(base, controls)[c.name := FlatControl(c)]
  {
  }

  /** The registry generated for a shader with a program: the recompile
      button, which has no handler in this revision, then one control per
      accepted uniform. */
  function FlatShaderContents(uniforms: seq<Uniform>): map<string, FlatWidget>
  {
    FlatWithControls(map[EngineUI.RecompileButton := FlatButton("Recompile Current Shader", false)], Generated(uniforms))
  }

  /** The generated registry holds exactly the button and the names some
      uniform yields, each generated name holding the control of the last
      uniform that yields it. */
  lemma FlatShaderContentsShape(uniforms: seq<Uniform>)
    ensures var contents := FlatShaderContents(uniforms);
      (forall n :: n in contents <==> n == EngineUI.RecompileButton || exists i :: 0 <= i < |uniforms| && Yields(uniforms[i], n))
      && (forall n :: n in Generated(uniforms) ==>
            exists i: nat :: LastYield(uniforms, i, n) && contents[n] == FlatControl(ControlFor(uniforms[i]).value))
      && (forall n :: n in contents && n !in Generated(uniforms) ==>
            contents[n] == FlatButton("Recompile Current Shader", false))
  {
    var contents := FlatShaderContents(uniforms);
    GeneratedCovers(uniforms);
    forall n | n in Generated(uniforms)
      ensures exists i :: 0 <= i < |uniforms| && Yields(uniforms[i], n)
      ensures exists i: nat :: LastYield(uniforms, i, n) && contents[n] == FlatControl(ControlFor(uniforms[i]).value)
    {
      GeneratedLastWins(uniforms, n);
      var i: nat :| LastYield(uniforms, i, n) && ControlFor(uniforms[i]) == Some(Generated(uniforms)[n]);
      assert contents[n] == FlatControl(ControlFor(uniforms[i]).value);
    }
  }

  /** Both revisions generate the same names for a shader with a program:
      the recompile button and one name per accepted uniform. */
  lemma RevisionsGenerateSameNames(shader: Shader, shaderName: string, uniforms: seq<Uniform>)
    ensures forall n :: n in EngineUI.ShaderInfoContents(shader, shaderName, uniforms) <==> n in FlatShaderContents(uniforms)
    ensures forall n :: n in Generated(uniforms) ==>
              FlatShaderContents(uniforms)[n] == FlatControl(Generated(uniforms)[n])
              && EngineUI.ShaderInfoContents(shader, shaderName, uniforms)[n] == EngineUI.ControlState(Generated(uniforms)[n])
  {
  }

  // ---------------------------------------------------------------------------
  // The registry

  class FlatUIManager {
    var elements: map<string, FlatElement>
    var changedThisFrame: bool
    /** The name each stored element was added under. */
    ghost var owner: map<FlatElement, string>

    /** Each element is stored under one name only. */
    ghost predicate Valid()
      reads this`elements, this`owner
    {
      forall n :: n in elements ==> elements[n] in owner && owner[elements[n]] == n
    }

    /** The registry's contents as values. */
    ghost function Model(): map<string, FlatWidget>
      reads this`elements, elements.Values
    {
      map n | n in elements :: elements[n].widget
    }

    /** An empty registry with the flag cleared. */
    constructor()
      ensures elements == map[] && !changedThisFrame && Valid()
    {
      elements := map[];
      changedThisFrame := false;
      owner := map[];
    }

    /** Stores `element` under `name`, dropping any element that was there.
        The element is passed by unique ownership, so it is not already
        stored. */
    method AddUIElement(name: string, element: FlatElement)
      requires Valid() && element !in elements.Values
      modifies this
      ensures Valid() && elements == old(elements)[name := element]
      ensures Model() == old(Model())[name := element.widget]
      ensures changedThisFrame == old(changedThisFrame)
    {
      elements := elements[name := element];
      owner := owner[element := name];
    }

    /** Drops every element; the flag is left as it is. */
    method ClearDynamicUIElements()
      modifies this
      ensures elements == map[] && Valid() && Model() == map[]
      ensures changedThisFrame == old(changedThisFrame)
    {
      elements := map[];
    }

    /** The flag the last render pass left; reading it changes nothing. */
    function HasShaderUniformsChanged(): (changed: bool)
      reads this
      ensures changed == changedThisFrame
    {
      changedThisFrame
    }

    method ResetShaderUniformsChangedFlag()
      modifies this
      ensures !changedThisFrame && elements == old(elements) && owner == old(owner)
    {
      changedThisFrame := false;
    }

    /** The element under `name` when it is of kind `k`, otherwise null. */
    function Find(name: string, k: FlatKind): (r: FlatElement?)
      reads this, elements.Values
      ensures r != null <==> name in elements && OfKind(elements[name].widget, k)
      ensures r != null ==> r == elements[name]
    {
      if name in elements && OfKind(elements[name].widget, k) then elements[name] else null
    }

    function GetButton(name: string): (r: FlatElement?)
      reads this, elements.Values
      ensures r != null ==> r.widget.FlatButton? && name in elements && r == elements[name]
      ensures r == null ==> name !in elements || !elements[name].widget.FlatButton?
    {
      Find(name, ButtonKind)
    }

    function GetSliderFloat(name: string): (r: FlatElement?)
      reads this, elements.Values
      ensures r != null ==> r.widget.FlatSliderFloat? && name in elements && r == elements[name]
      ensures r == null ==> name !in elements || !elements[name].widget.FlatSliderFloat?
    {
      Find(name, SliderFloatKind)
    }

    function GetSliderVec3(name: string): (r: FlatElement?)
      reads this, elements.Values
      ensures r != null ==> r.widget.FlatSliderVec3? && name in elements && r == elements[name]
      ensures r == null ==> name !in elements || !elements[name].widget.FlatSliderVec3?
    {
      Find(name, SliderVec3Kind)
    }

    function GetSelect(name: string): (r: FlatElement?)
      reads this, elements.Values
      ensures r != null ==> r.widget.FlatSelect? && name in elements && r == elements[name]
      ensures r == null ==> name !in elements || !elements[name].widget.FlatSelect?
    {
      Find(name, SelectKind)
    }

    /** Renders the element under `name`; no other element changes. */
    method RenderElement(name: string, input: Interaction) returns (changed: bool)
      requires Valid() && name in elements
      modifies elements[name]
      ensures Model() == old(Model())[name := FlatAfterFrame(old(Model())[name], input)]
      ensures changed == FlatReports(old(Model())[name], input)
    {
      ghost var before := Model();
      var element := elements[name];
      changed := element.Render(input);
      assert forall n :: n in elements && n != name ==> elements[n] != element;
      assert Model() == before[name := FlatAfterFrame(before[name], input)];
    }

    /** Renders the elements named by `names`, in that order, and tells
        whether any of them reported an interaction. */
    method RenderInOrder(names: seq<string>, frame: map<string, Interaction>) returns (any: bool)
      requires Valid() && forall n :: n in names ==> n in elements
      requires forall j, k :: 0 <= j < k < |names| ==> names[j] != names[k]
      modifies elements.Values
      ensures Model() == FlatRenderedOn(old(Model()), names, frame)
      ensures any == AnyReports(names, old(Model()), frame)
    {
      ghost var before := Model();
      any := false;
      var i := 0;
      while i < |names|
        invariant 0 <= i <= |names|
        invariant Model() == FlatRenderedOn(before, names[..i], frame)
        invariant any == AnyReports(names[..i], before, frame)
      {
        FlatRenderedStep(names, i, before, frame);
        var changed := RenderElement(names[i], UIPanels.InputFor(frame, names[i]));
        any := any || changed;
        i := i + 1;
      }
      assert names[..i] == names;
    }

    /** Renders every element in map order and tells whether any of them
        reported an interaction. */
    method RenderAll(frame: map<string, Interaction>) returns (any: bool)
      requires Valid()
      modifies elements.Values
      ensures Model() == FlatRenderedModel(old(Model()), frame)
      ensures any <==> exists n :: n in old(Model()) && FlatReports(old(Model())[n], UIPanels.InputFor(frame, n))
    {
      ghost var before := Model();
      var names := SortedNames(elements.Keys);
      SortedNamesIncreasing(elements.Keys);
      forall j, k | 0 <= j < k < |names| ensures names[j] != names[k] {
        IncreasingDistinct(names, j, k);
      }
      any := RenderInOrder(names, frame);
      assert forall n :: n in before <==> n in names;
      AnyReportsInModel(names, before, frame);
      FlatRenderedOnAll(before, names, frame);
    }

    /** Clears the flag, renders every element in map order, and sets the
        flag when an element reports an interaction. */
    method RenderGameUI(frame: map<string, Interaction>)
      requires Valid()
      modifies this, elements.Values
      ensures Valid() && elements == old(elements)
      ensures Model() == FlatRenderedModel(old(Model()), frame)
      ensures changedThisFrame
          <==> exists n :: n in old(Model()) && FlatReports(old(Model())[n], UIPanels.InputFor(frame, n))
    {
      changedThisFrame := false;
      var any := RenderAll(frame);
      changedThisFrame := any;
    }

    /** The body of the uniform loop for one uniform. */
    method AddUniformControl(u: Uniform)
      requires Valid()
      modifies this
      ensures Valid() && changedThisFrame == old(changedThisFrame)
      ensures Model() == match ControlFor(u)
                         case None => old(Model())
                         case Some(c) => old(Model())[c.name := FlatControl(c)]
    {
      var name := ReportedName(u.name);
      if IsSkipped(name) {
        return;
      }
      if u.kind == Float {
        var slider := new FlatElement.SliderFloatElement(name, 0.0, SliderMin, SliderMax);
        AddUIElement(name, slider);
      } else if u.kind == FloatVec3 {
        var slider := new FlatElement.SliderVec3Element(name, Zero, SliderMin, SliderMax);
        AddUIElement(name, slider);
      }
    }

    /** Rebuilds the registry for `shader`: it is emptied, and for a shader
        with a program it gets the recompile button and a control per
        accepted uniform, in order. `uniforms` is what the GL reports for the
        program. */
    method GenerateUIFromShader(shader: Shader?, uniforms: seq<Uniform>)
      requires Valid()
      modifies this
      ensures Valid() && changedThisFrame == old(changedThisFrame)
      ensures Model() == if shader == null || shader.id == 0 then map[] else FlatShaderContents(uniforms)
    {
      ClearDynamicUIElements();
      if shader == null || shader.id == 0 {
        return;
      }
      var button := new FlatElement.ButtonElement("Recompile Current Shader");
      AddUIElement(EngineUI.RecompileButton, button);
      ghost var base := Model();
      assert base == map[EngineUI.RecompileButton := FlatButton("Recompile Current Shader", false)];
      assert FlatWithControls(base, Generated(uniforms[..0])) == base;
      for i := 0 to |uniforms|
        invariant Valid() && changedThisFrame == old(changedThisFrame)
        invariant Model() == FlatWithControls(base, Generated(uniforms[..i]))
      {
        GeneratedStep(uniforms, i);
        if ControlFor(uniforms[i]).Some? {
          FlatWithControlsUpdate(base, Generated(uniforms[..i]), ControlFor(uniforms[i]).value);
        }
        AddUniformControl(uniforms[i]);
      }
      assert uniforms[..|uniforms|] == uniforms;
    }

    /** Adds the wireframe select, with nothing selected. */
    method GenerateUI()
      requires Valid()
      modifies this
      ensures Valid() && changedThisFrame == old(changedThisFrame)
      ensures Model() == old(Model())["ViewMode" := FlatSelect("Enable Wireframe View", ["line", "fill"], -1, -1)]
    {
      var select := new FlatElement.SelectElement("Enable Wireframe View", ["line", "fill"]);
      AddUIElement("ViewMode", select);
    }
  }
}
