/** A named window of UI elements (src/Classes/UI/UIPanel.cpp). The panel owns
    its elements in a name-keyed map, so it renders them in ascending name
    order, and re-adding a name replaces the element stored under it. */
module UIPanels {
  import opened Optional
  import opened Ordering
  import opened ImGui
  import opened UIElements

  /** The kinds the typed getters look for. */
  datatype Kind = ButtonKind | SliderFloatKind | SliderVec3Kind | SelectKind | LabelKind

  predicate OfKind(w: Widget, k: Kind)
  {
    match k
    case ButtonKind => w.Button?
    case SliderFloatKind => w.SliderFloat?
    case SliderVec3Kind => w.SliderVec3?
    case SelectKind => w.Select?
    case LabelKind => w.Label?
  }

  /** A frame's widget reports, by element name; an element without a report
      was not touched. */
  function InputFor(frame: map<string, Interaction>, name: string): Interaction
  {
    if name in frame then frame[name] else Idle
  }

  ghost predicate ModelValid(model: map<string, ElementState>)
  {
    forall n :: n in model ==> WidgetValid(model[n].widget)
  }

  /** The elements' states after one render pass. */
  function RenderedModel(model: map<string, ElementState>, frame: map<string, Interaction>): map<string, ElementState>
  {
    map n | n in model :: RenderedState(model[n], InputFor(frame, n))
  }

  /** The elements' states after the ones named in `done` were rendered. */
  function RenderedOn(model: map<string, ElementState>, done: seq<string>, frame: map<string, Interaction>): map<string, ElementState>
  {
    map n | n in model :: if n in done then RenderedState(model[n], InputFor(frame, n)) else model[n]
  }

  lemma RenderedOnStep(model: map<string, ElementState>, done: seq<string>, name: string, frame: map<string, Interaction>)
    requires name in model && name !in done
    ensures RenderedOn(model, done, frame)[name := RenderedState(RenderedOn(model, done, frame)[name], InputFor(frame, name))]
         == RenderedOn(model, done + [name], frame)
  {
  }

  lemma RenderedOnAll(model: map<string, ElementState>, names: seq<string>, frame: map<string, Interaction>)
    requires forall n :: n in model ==> n in names
    ensures RenderedOn(model, names, frame) == RenderedModel(model, frame)
  {
  }

  /** Rendering the next name of a list of distinct names extends the trace by
      that element's events and renders that element from its initial state. */
  lemma RenderedPrefixStep(names: seq<string>, i: int, model: map<string, ElementState>, frame: map<string, Interaction>)
    requires 0 <= i < |names| && ModelValid(model)
    requires forall n :: n in names ==> n in model
    requires forall j, k :: 0 <= j < k < |names| ==> names[j] != names[k]
    ensures RenderedOn(model, names[..i], frame)[names[i]] == model[names[i]]
    ensures RenderedOn(model, names[..i], frame)[names[i] := RenderedState(model[names[i]], InputFor(frame, names[i]))]
         == RenderedOn(model, names[..i + 1], frame)
    ensures ElementsTrace(names[..i + 1], model, frame)
         == ElementsTrace(names[..i], model, frame) + RenderEvents(model[names[i]], InputFor(frame, names[i]))
  {
    assert names[..i + 1] == names[..i] + [names[i]];
    assert names[..i + 1][..i] == names[..i];
    RenderedOnStep(model, names[..i], names[i], frame);
  }

  /** The events of rendering the elements named by `names`, in that order. */
  function ElementsTrace(names: seq<string>, model: map<string, ElementState>, frame: map<string, Interaction>): seq<Event>
    requires forall n :: n in names ==> n in model && WidgetValid(model[n].widget)
  {
    if names == [] then []
    else
      var last := names[|names| - 1];
      ElementsTrace(names[..|names| - 1], model, frame) + RenderEvents(model[last], InputFor(frame, last))
  }

  /** The control each named element draws, in order. */
  function DrawnAll(names: seq<string>, model: map<string, ElementState>): (r: seq<DrawCall>)
    requires forall n :: n in names ==> n in model && WidgetValid(model[n].widget)
    ensures |r| == |names|
    ensures forall i :: 0 <= i < |names| ==> r[i] == Drawn(model[names[i]].widget)
  {
    if names == [] then [] else DrawnAll(names[..|names| - 1], model) + [Drawn(model[names[|names| - 1]].widget)]
  }

  /** The events of one panel render: Begin, every element in map order, End. */
  ghost function PanelTrace(title: string, model: map<string, ElementState>, frame: map<string, Interaction>): seq<Event>
    requires ModelValid(model)
  {
    [Draw(Begin(title))] + ElementsTrace(SortedNames(model.Keys), model, frame) + [Draw(End)]
  }

  lemma {:induction false} ElementsTraceDraws(names: seq<string>, model: map<string, ElementState>, frame: map<string, Interaction>)
    requires forall n :: n in names ==> n in model && WidgetValid(model[n].widget)
    ensures Draws(ElementsTrace(names, model, frame)) == DrawnAll(names, model)
  {
    if names != [] {
      var last := names[|names| - 1];
      ElementsTraceDraws(names[..|names| - 1], model, frame);
      DrawsAppend(ElementsTrace(names[..|names| - 1], model, frame), RenderEvents(model[last], InputFor(frame, last)));
      RenderRunsBoundHandlerOnce(model[last], InputFor(frame, last));
    }
  }

  /** A panel render draws one Begin, then each element's control exactly
      once in ascending name order, then one End. */
  lemma PanelRenderDrawsEachOnce(title: string, model: map<string, ElementState>, frame: map<string, Interaction>)
    requires ModelValid(model)
    ensures Draws(PanelTrace(title, model, frame))
         == [Begin(title)] + DrawnAll(SortedNames(model.Keys), model) + [End]
    ensures |DrawnAll(SortedNames(model.Keys), model)| == |model|
    ensures Increasing(SortedNames(model.Keys))
  {
    var names := SortedNames(model.Keys);
    SortedNamesIncreasing(model.Keys);
    ElementsTraceDraws(names, model, frame);
    DrawsAppend([Draw(Begin(title))], ElementsTrace(names, model, frame));
    DrawsAppend([Draw(Begin(title))] + ElementsTrace(names, model, frame), [Draw(End)]);
  }

  /** Within one panel render an element's handler runs only if that element
      reported an interaction, and then once. */
  lemma {:induction false} ElementsTraceRuns(names: seq<string>, model: map<string, ElementState>, frame: map<string, Interaction>)
    requires forall n :: n in names ==> n in model && WidgetValid(model[n].widget)
    ensures |Runs(ElementsTrace(names, model, frame))| <= |names|
    ensures (forall n :: n in names ==> !Reports(model[n].widget, InputFor(frame, n)))
            ==> Runs(ElementsTrace(names, model, frame)) == []
  {
    if names != [] {
      var last := names[|names| - 1];
      var init := names[..|names| - 1];
      ElementsTraceRuns(init, model, frame);
      RunsAppend(ElementsTrace(init, model, frame), RenderEvents(model[last], InputFor(frame, last)));
      RenderRunsBoundHandlerOnce(model[last], InputFor(frame, last));
      assert forall n :: n in init ==> n in names;
    }
  }

  class UIPanel {
    const title: string
    var elements: map<string, UIElement>
    /** The name each stored element was added under. */
    ghost var owner: map<UIElement, string>

    /** Each element is owned by the panel under one name only, and every
        element keeps its own state valid. */
    ghost predicate Valid()
      reads this, elements.Values
    {
      forall n :: n in elements ==> elements[n] in owner && owner[elements[n]] == n && elements[n].Valid()
    }

    /** The panel's contents as values. */
    ghost function Model(): map<string, ElementState>
      reads this, elements.Values
    {
      map n | n in elements :: elements[n].State()
    }

    constructor(title: string)
      ensures this.title == title && elements == map[] && Valid()
    {
      this.title := title;
      elements := map[];
      owner := map[];
    }

    /** Stores `element` under `name`, dropping any element that was there,
        and hands back the stored element. The element is passed by unique
        ownership, so it is not already in the panel. */
    method AddUIElement(name: string, element: UIElement) returns (stored: UIElement)
      requires Valid() && element.Valid() && element !in elements.Values
      modifies this
      ensures Valid()
      ensures elements == old(elements)[name := element]
      ensures Model() == old(Model())[name := element.State()]
      ensures stored == element
    {
      elements := elements[name := element];
      owner := owner[element := name];
      stored := element;
    }

    /** Drops every element. */
    method ClearUIElements()
      modifies this
      ensures elements == map[] && Valid() && Model() == map[]
    {
      elements := map[];
    }

    /** The element under `name` when it is of kind `k`, otherwise null. */
    function Find(name: string, k: Kind): (r: UIElement?)
      reads this, elements.Values
      ensures r != null <==> name in elements && OfKind(elements[name].widget, k)
      ensures r != null ==> r == elements[name]
    {
      if name in elements && OfKind(elements[name].widget, k) then elements[name] else null
    }

    function GetButton(name: string): (r: UIElement?)
      reads this, elements.Values
      ensures r != null ==> r.widget.Button? && name in elements && r == elements[name]
      ensures r == null ==> name !in elements || !elements[name].widget.Button?
    {
      Find(name, ButtonKind)
    }

    function GetSliderFloat(name: string): (r: UIElement?)
      reads this, elements.Values
      ensures r != null ==> r.widget.SliderFloat? && name in elements && r == elements[name]
      ensures r == null ==> name !in elements || !elements[name].widget.SliderFloat?
    {
      Find(name, SliderFloatKind)
    }

    function GetSliderVec3(name: string): (r: UIElement?)
      reads this, elements.Values
      ensures r != null ==> r.widget.SliderVec3? && name in elements && r == elements[name]
      ensures r == null ==> name !in elements || !elements[name].widget.SliderVec3?
    {
      Find(name, SliderVec3Kind)
    }

    function GetSelect(name: string): (r: UIElement?)
      reads this, elements.Values
      ensures r != null ==> r.widget.Select? && name in elements && r == elements[name]
      ensures r == null ==> name !in elements || !elements[name].widget.Select?
    {
      Find(name, SelectKind)
    }

    function GetLabel(name: string): (r: UIElement?)
      reads this, elements.Values
      ensures r != null ==> r.widget.Label? && name in elements && r == elements[name]
      ensures r == null ==> name !in elements || !elements[name].widget.Label?
    {
      Find(name, LabelKind)
    }

    /** Renders the element under `name`; no other element changes. */
    method RenderElement(name: string, input: Interaction) returns (events: seq<Event>)
      requires Valid() && name in elements
      modifies elements[name]
      ensures Valid()
      ensures Model() == old(Model())[name := RenderedState(old(Model())[name], input)]
      ensures WidgetValid(old(Model())[name].widget) && events == RenderEvents(old(Model())[name], input)
    {
      ghost var before := Model();
      var element := elements[name];
      events := element.Render(input);
      assert forall n :: n in elements && n != name ==> elements[n] != element;
      assert Model() == before[name := RenderedState(before[name], input)];
    }

    /** Renders the elements named by `names`, in that order. */
    method RenderInOrder(names: seq<string>, frame: map<string, Interaction>) returns (events: seq<Event>)
      requires Valid() && forall n :: n in names ==> n in elements
      requires forall j, k :: 0 <= j < k < |names| ==> names[j] != names[k]
      modifies elements.Values
      ensures Valid() && elements == old(elements)
      ensures ModelValid(old(Model()))
      ensures Model() == RenderedOn(old(Model()), names, frame)
      ensures events == ElementsTrace(names, old(Model()), frame)
    {
      ghost var before := Model();
      assert ModelValid(before);
      events := [];
      var i := 0;
      while i < |names|
        invariant 0 <= i <= |names|
        invariant Valid() && elements == old(elements)
        invariant Model() == RenderedOn(before, names[..i], frame)
        invariant events == ElementsTrace(names[..i], before, frame)
      {
        var name := names[i];
        RenderedPrefixStep(names, i, before, frame);
        var e := RenderElement(name, InputFor(frame, name));
        events := events + e;
        i := i + 1;
      }
      assert names[..i] == names;
    }

    /** Opens the window, renders every element in map order, closes it. */
    method Render(frame: map<string, Interaction>) returns (events: seq<Event>)
      requires Valid()
      modifies elements.Values
      ensures Valid()
      ensures Model() == RenderedModel(old(Model()), frame)
      ensures ModelValid(old(Model())) && events == PanelTrace(title, old(Model()), frame)
    {
      ghost var before := Model();
      assert before.Keys == elements.Keys;
      var names := SortedNames(elements.Keys);
      SortedNamesIncreasing(elements.Keys);
      forall j, k | 0 <= j < k < |names| ensures names[j] != names[k] {
        IncreasingDistinct(names, j, k);
      }
      var inner := RenderInOrder(names, frame);
      RenderedOnAll(before, names, frame);
      events := [Draw(Begin(title))] + inner + [Draw(End)];
    }
  }
}
