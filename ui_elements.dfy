/** The current revision's UI elements (includes/UIClasses/UIBaseElement.h and
    src/Classes/UI/UI*.cpp). An element is an object holding the state of one
    kind of control, a sum type, and at most one bound handler. Rendering draws
    the control, lets the widget's report update the state, and runs the handler
    when the control reports an interaction. Running a handler appends a `Run`
    event to the trace that rendering returns. */
module UIElements {
  import opened Optional
  import opened Linear
  import opened Handlers
  import opened ImGui

  /** The state of one control, by kind. */
  datatype Widget =
    | Button(caption: string)
    | SliderFloat(caption: string, value: real, min: real, max: real)
    | SliderVec3(caption: string, vec: Vec3, min: real, max: real)
    | Checkbox(caption: string, checked: bool)
    | Select(caption: string, options: seq<string>, selected: int)
    | Label(caption: string)

  /** An element as a value: its control and its handler. */
  datatype ElementState = ElementState(widget: Widget, handler: Option<Handler>)

  /** What rendering does, in order: draw calls, and handler runs together with
      the state of the element the handler observes when it runs. */
  datatype Event = Draw(call: DrawCall) | Run(invocation: Invocation, observed: Widget)

  /** A select's index is a position in its option list, or 0 when the list is
      empty. */
  predicate WidgetValid(w: Widget)
  {
    w.Select? ==> 0 <= w.selected && (w.selected == 0 || w.selected < |w.options|)
  }

  /** Some option among the first `n` was picked. */
  predicate AnyPicked(input: Interaction, n: nat)
  {
    n > 0 && (Picked(input, n - 1) || AnyPicked(input, n - 1))
  }

  lemma {:induction false} AnyPickedMeansSome(input: Interaction, n: nat)
    ensures AnyPicked(input, n) <==> exists i :: 0 <= i < n && Picked(input, i)
  {
    if n > 0 {
      AnyPickedMeansSome(input, n - 1);
    }
  }

  /** The index a select holds after its option loop ran over the first `n`
      options: the last option picked, or `current` if none was. */
  function LastPick(input: Interaction, n: nat, current: int): (r: int)
    ensures AnyPicked(input, n) ==> 0 <= r < n && Picked(input, r)
    ensures !AnyPicked(input, n) ==> r == current
    ensures forall j :: r < j < n ==> !Picked(input, j)
  {
    if n == 0 then current
    else if Picked(input, n - 1) then n - 1
    else LastPick(input, n - 1, current)
  }

  /** Whether the widget call reports an interaction this frame. A select
      reports one when any option is picked, the selected one included; a
      label never does. */
  predicate Reports(w: Widget, input: Interaction)
  {
    match w
    case Select(_, options, _) => input.comboOpen && AnyPicked(input, |options|)
    case Label(_) => false
    case _ => input.pressed
  }

  /** The control's state once the widget call returned. */
  function AfterFrame(w: Widget, input: Interaction): Widget
  {
    match w
    case SliderFloat(_, _, _, _) => if input.pressed then w.(value := input.value) else w
    case SliderVec3(_, _, _, _) => if input.pressed then w.(vec := input.vec) else w
    case Checkbox(_, checked) => if input.pressed then w.(checked := !checked) else w
    case Select(_, options, selected) =>
      if input.comboOpen then w.(selected := LastPick(input, |options|, selected)) else w
    case _ => w
  }

  /** The text a select shows while closed. */
  function Preview(w: Widget): string
    requires w.Select? && WidgetValid(w)
  {
    if |w.options| == 0 then "None" else w.options[w.selected]
  }

  /** The option a select's index designates, or "" when the index is not a
      position in the option list. */
  function SelectedOption(w: Widget): string
    requires w.Select?
  {
    if 0 <= w.selected < |w.options| then w.options[w.selected] else ""
  }

  /** The draw call a control makes; a label's text is both caption and text. */
  function Drawn(w: Widget): DrawCall
    requires WidgetValid(w)
  {
    match w
    case Button(caption) => ButtonCall(caption)
    case SliderFloat(caption, _, min, max) => SliderFloatCall(caption, min, max)
    case SliderVec3(caption, _, min, max) => SliderFloat3Call(caption, min, max)
    case Checkbox(caption, _) => CheckboxCall(caption)
    case Select(caption, _, _) => ComboCall(caption, Preview(w))
    case Label(caption) => LabelTextCall(caption, caption)
  }

  /** The trace of one render: the draw call, then the handler run when the
      control reported an interaction and a handler is bound. The handler
      observes the state after the widget call. */
  function RenderEvents(s: ElementState, input: Interaction): seq<Event>
    requires WidgetValid(s.widget)
  {
    [Draw(Drawn(s.widget))]
    + (if Reports(s.widget, input) && s.handler.Some?
       then [Run(Execute(s.handler.value), AfterFrame(s.widget, input))]
       else [])
  }

  function RenderedState(s: ElementState, input: Interaction): ElementState
  {
    ElementState(AfterFrame(s.widget, input), s.handler)
  }

  /** The handler invocations in a trace, in order. */
  function Runs(trace: seq<Event>): seq<Invocation>
  {
    if trace == [] then []
    else (if trace[0].Run? then [trace[0].invocation] else []) + Runs(trace[1..])
  }

  lemma {:induction false} RunsAppend(a: seq<Event>, b: seq<Event>)
    ensures Runs(a + b) == Runs(a) + Runs(b)
  {
    if a == [] {
      assert a + b == b;
    } else {
      assert (a + b)[1..] == a[1..] + b;
      RunsAppend(a[1..], b);
    }
  }

  /** The draw calls in a trace, in order. */
  function Draws(trace: seq<Event>): seq<DrawCall>
  {
    if trace == [] then []
    else (if trace[0].Draw? then [trace[0].call] else []) + Draws(trace[1..])
  }

  lemma {:induction false} DrawsAppend(a: seq<Event>, b: seq<Event>)
    ensures Draws(a + b) == Draws(a) + Draws(b)
  {
    if a == [] {
      assert a + b == b;
    } else {
      assert (a + b)[1..] == a[1..] + b;
      DrawsAppend(a[1..], b);
    }
  }

  // ---------------------------------------------------------------------------
  // Properties of one render

  /** Rendering draws exactly one control and runs the bound handler exactly
      once when the control reports an interaction, and otherwise runs nothing;
      a handler that is not bound cannot run. */
  lemma RenderRunsBoundHandlerOnce(s: ElementState, input: Interaction)
    requires WidgetValid(s.widget)
    ensures Draws(RenderEvents(s, input)) == [Drawn(s.widget)]
    ensures Runs(RenderEvents(s, input))
         == if Reports(s.widget, input) && s.handler.Some? then [Execute(s.handler.value)] else []
  {
    var fired := if Reports(s.widget, input) && s.handler.Some?
                 then [Run(Execute(s.handler.value), AfterFrame(s.widget, input))] else [];
    RunsAppend([Draw(Drawn(s.widget))], fired);
    DrawsAppend([Draw(Drawn(s.widget))], fired);
    assert Runs([Draw(Drawn(s.widget))]) == [];
  }

  /** Rendering keeps a select's index valid, and never changes an element's
      kind, caption, bounds, options or handler. */
  lemma RenderKeepsShape(s: ElementState, input: Interaction)
    requires WidgetValid(s.widget)
    ensures WidgetValid(RenderedState(s, input).widget)
    ensures RenderedState(s, input).handler == s.handler
    ensures SameShape(s.widget, RenderedState(s, input).widget)
  {
  }

  /** Two controls of the same kind with the same caption, bounds and options. */
  predicate SameShape(a: Widget, b: Widget)
  {
    match a
    case Button(l) => b == a
    case SliderFloat(l, _, lo, hi) => b.SliderFloat? && b.caption == l && b.min == lo && b.max == hi
    case SliderVec3(l, _, lo, hi) => b.SliderVec3? && b.caption == l && b.min == lo && b.max == hi
    case Checkbox(l, _) => b.Checkbox? && b.caption == l
    case Select(l, options, _) => b.Select? && b.caption == l && b.options == options
    case Label(l) => b == a
  }

  /** What `SetHandler(h)` leaves bound decides the next render, whatever was
      bound before: a render whose control reports invokes `h`'s callable on
      `h`'s arguments exactly once, and any other render invokes nothing. */
  lemma RenderAfterBindRunsIt(w: Widget, h: Handler, input: Interaction)
    requires WidgetValid(w)
    ensures Runs(RenderEvents(ElementState(w, Some(h)), input))
         == if Reports(w, input) then [Invocation(h.callable, h.args)] else []
  {
    RenderRunsBoundHandlerOnce(ElementState(w, Some(h)), input);
  }

  /** A bound handler does not wear out: when two consecutive renders both
      report, each invokes the handler's callable on its arguments, so the
      two renders together make the same call twice. */
  lemma RenderTwiceRunsTwice(s: ElementState, h: Handler, first: Interaction, second: Interaction)
    requires WidgetValid(s.widget) && s.handler == Some(h)
    requires Reports(s.widget, first) && Reports(s.widget, second)
    ensures Runs(RenderEvents(s, first) + RenderEvents(RenderedState(s, first), second))
         == [Invocation(h.callable, h.args), Invocation(h.callable, h.args)]
  {
    var next := RenderedState(s, first);
    RenderKeepsShape(s, first);
    assert Reports(next.widget, second);
    RenderRunsBoundHandlerOnce(s, first);
    RenderRunsBoundHandlerOnce(next, second);
    RunsAppend(RenderEvents(s, first), RenderEvents(next, second));
  }

  /** A button runs its handler exactly in the frames the widget reports a
      click, and only if one is bound. */
  lemma ButtonRender(caption: string, h: Option<Handler>, input: Interaction)
    ensures Runs(RenderEvents(ElementState(Button(caption), h), input))
         == if input.pressed && h.Some? then [Execute(h.value)] else []
    ensures RenderedState(ElementState(Button(caption), h), input) == ElementState(Button(caption), h)
  {
    RenderRunsBoundHandlerOnce(ElementState(Button(caption), h), input);
  }

  /** A checkbox runs its handler exactly when it reports a toggle, and the
      toggle flips its state. */
  lemma CheckboxRender(caption: string, checked: bool, h: Option<Handler>, input: Interaction)
    ensures Runs(RenderEvents(ElementState(Checkbox(caption, checked), h), input))
         == if input.pressed && h.Some? then [Execute(h.value)] else []
    ensures RenderedState(ElementState(Checkbox(caption, checked), h), input).widget.checked
         == (checked != input.pressed)
  {
    RenderRunsBoundHandlerOnce(ElementState(Checkbox(caption, checked), h), input);
  }

  /** A float slider runs its handler exactly when the widget reports a
      change; the value becomes what the widget wrote, with no clamping, and
      the bounds stay as constructed. */
  lemma SliderFloatRender(caption: string, v: real, lo: real, hi: real, h: Option<Handler>, input: Interaction)
    ensures Runs(RenderEvents(ElementState(SliderFloat(caption, v, lo, hi), h), input))
         == if input.pressed && h.Some? then [Execute(h.value)] else []
    ensures RenderedState(ElementState(SliderFloat(caption, v, lo, hi), h), input).widget
         == SliderFloat(caption, if input.pressed then input.value else v, lo, hi)
  {
    RenderRunsBoundHandlerOnce(ElementState(SliderFloat(caption, v, lo, hi), h), input);
  }

  /** A vector slider runs its handler exactly when the widget reports a
      change; all three components come from the widget at once. */
  lemma SliderVec3Render(caption: string, v: Vec3, lo: real, hi: real, h: Option<Handler>, input: Interaction)
    ensures Runs(RenderEvents(ElementState(SliderVec3(caption, v, lo, hi), h), input))
         == if input.pressed && h.Some? then [Execute(h.value)] else []
    ensures RenderedState(ElementState(SliderVec3(caption, v, lo, hi), h), input).widget
         == SliderVec3(caption, if input.pressed then input.vec else v, lo, hi)
  {
    RenderRunsBoundHandlerOnce(ElementState(SliderVec3(caption, v, lo, hi), h), input);
  }

  /** A label draws its text as caption and text, never runs a handler even
      when one is bound, and never changes. */
  lemma LabelRender(text: string, h: Option<Handler>, input: Interaction)
    ensures RenderEvents(ElementState(Label(text), h), input) == [Draw(LabelTextCall(text, text))]
    ensures Runs(RenderEvents(ElementState(Label(text), h), input)) == []
    ensures RenderedState(ElementState(Label(text), h), input) == ElementState(Label(text), h)
  {
    RenderRunsBoundHandlerOnce(ElementState(Label(text), h), input);
  }

  /** A select with no options shows "None" and never runs its handler. */
  lemma EmptySelectRender(caption: string, h: Option<Handler>, input: Interaction)
    ensures Draws(RenderEvents(ElementState(Select(caption, [], 0), h), input)) == [ComboCall(caption, "None")]
    ensures Runs(RenderEvents(ElementState(Select(caption, [], 0), h), input)) == []
  {
    RenderRunsBoundHandlerOnce(ElementState(Select(caption, [], 0), h), input);
  }

  /** When the open combo reports option `k` picked and no later option, the
      select moves to `k` and its bound handler runs once, observing the new
      index; this holds when `k` was already selected. */
  lemma SelectPickRunsHandler(caption: string, options: seq<string>, selected: int, h: Handler,
                              input: Interaction, k: int)
    requires WidgetValid(Select(caption, options, selected))
    requires input.comboOpen && 0 <= k < |options| && Picked(input, k)
    requires forall j :: k < j < |options| ==> !Picked(input, j)
    ensures RenderEvents(ElementState(Select(caption, options, selected), Some(h)), input)
         == [Draw(ComboCall(caption, options[selected])), Run(Execute(h), Select(caption, options, k))]
  {
    AnyPickedMeansSome(input, |options|);
  }

  /** Without a pick the select keeps its index and runs nothing. */
  lemma SelectWithoutPick(caption: string, options: seq<string>, selected: int, h: Option<Handler>,
                          input: Interaction)
    requires WidgetValid(Select(caption, options, selected))
    requires forall j :: 0 <= j < |options| ==> !Picked(input, j)
    ensures RenderedState(ElementState(Select(caption, options, selected), h), input).widget.selected == selected
    ensures Runs(RenderEvents(ElementState(Select(caption, options, selected), h), input)) == []
  {
    AnyPickedMeansSome(input, |options|);
    RenderRunsBoundHandlerOnce(ElementState(Select(caption, options, selected), h), input);
  }

  // ---------------------------------------------------------------------------
  // The element object

  class UIElement {
    var widget: Widget
    var handler: Option<Handler>

    ghost predicate Valid()
      reads this
    {
      WidgetValid(widget)
    }

    /** The element as a value. */
    function State(): ElementState
      reads this
    {
      ElementState(widget, handler)
    }

    constructor ButtonElement(caption: string)
      ensures widget == Button(caption) && handler == None && Valid()
    {
      widget := Button(caption);
      handler := None;
    }

    /** Stores caption, value and bounds as given: the bounds are not checked and
        the value is not clamped. */
    constructor SliderFloatElement(caption: string, initialValue: real, min: real, max: real)
      ensures widget == SliderFloat(caption, initialValue, min, max) && handler == None && Valid()
    {
      widget := SliderFloat(caption, initialValue, min, max);
      handler := None;
    }

    /** One pair of bounds is shared by the three components. */
    constructor SliderVec3Element(caption: string, initialValue: Vec3, min: real, max: real)
      ensures widget == SliderVec3(caption, initialValue, min, max) && handler == None && Valid()
    {
      widget := SliderVec3(caption, initialValue, min, max);
      handler := None;
    }

    /** The checked state is never initialised, so it starts out arbitrary. */
    constructor CheckboxElement(caption: string)
      ensures widget.Checkbox? && widget.caption == caption && handler == None && Valid()
    {
      var undefined: bool := *;
      widget := Checkbox(caption, undefined);
      handler := None;
    }

    /** Starts at index 0 whatever the number of options. */
    constructor SelectElement(caption: string, options: seq<string>)
      ensures widget == Select(caption, options, 0) && handler == None && Valid()
    {
      widget := Select(caption, options, 0);
      handler := None;
    }

    constructor LabelElement(text: string)
      ensures widget == Label(text) && handler == None && Valid()
    {
      widget := Label(text);
      handler := None;
    }

    /** Binds `h`, replacing whatever was bound before. */
    method SetHandler(h: Handler)
      modifies this
      ensures handler == Some(h) && widget == old(widget)
    {
      handler := Some(h);
    }

    /** Executes the bound handler once. The source dereferences the handler
        without checking it, so a handler must be bound. */
    method RunHandler() returns (e: Event)
      requires handler.Some?
      ensures e == Run(Execute(handler.value), widget)
    {
      e := Run(Execute(handler.value), widget);
    }

    function GetHandler(): (h: Option<Handler>)
      reads this
      ensures h == State().handler
    {
      handler
    }

    /** Draws the control and runs the bound handler when the widget reports
        an interaction (the virtual render of each element kind). */
    method Render(input: Interaction) returns (events: seq<Event>)
      requires Valid()
      modifies this
      ensures Valid()
      ensures State() == RenderedState(old(State()), input)
      ensures events == RenderEvents(old(State()), input)
    {
      match widget
      case Button(_) => events := RenderButton(input);
      case SliderFloat(_, _, _, _) => events := RenderSliderFloat(input);
      case SliderVec3(_, _, _, _) => events := RenderSliderVec3(input);
      case Checkbox(_, _) => events := RenderCheckbox(input);
      case Select(_, _, _) => events := RenderSelect(input);
      case Label(_) => events := RenderLabel(input);
    }

    method RenderButton(input: Interaction) returns (events: seq<Event>)
      requires widget.Button?
      ensures events == [Draw(ButtonCall(widget.caption))]
                        + (if input.pressed && handler.Some? then [Run(Execute(handler.value), widget)] else [])
    {
      var clicked := input.pressed;
      events := [Draw(ButtonCall(widget.caption))];
      if clicked && handler.Some? {
        var e := RunHandler();
        events := events + [e];
      }
    }

    method RenderSliderFloat(input: Interaction) returns (events: seq<Event>)
      requires widget.SliderFloat?
      modifies this
      ensures widget == AfterFrame(old(widget), input) && handler == old(handler)
      ensures events == RenderEvents(old(State()), input)
    {
      events := [Draw(SliderFloatCall(widget.caption, widget.min, widget.max))];
      var valueChanged := input.pressed;
      if valueChanged {
        widget := widget.(value := input.value);
      }
      if valueChanged && handler.Some? {
        var e := RunHandler();
        events := events + [e];
      }
    }

    method RenderSliderVec3(input: Interaction) returns (events: seq<Event>)
      requires widget.SliderVec3?
      modifies this
      ensures widget == AfterFrame(old(widget), input) && handler == old(handler)
      ensures events == RenderEvents(old(State()), input)
    {
      events := [Draw(SliderFloat3Call(widget.caption, widget.min, widget.max))];
      var valueChanged := input.pressed;
      if valueChanged {
        widget := widget.(vec := input.vec);
      }
      if valueChanged && handler.Some? {
        var e := RunHandler();
        events := events + [e];
      }
    }

    method RenderCheckbox(input: Interaction) returns (events: seq<Event>)
      requires widget.Checkbox?
      modifies this
      ensures widget == AfterFrame(old(widget), input) && handler == old(handler)
      ensures events == RenderEvents(old(State()), input)
    {
      events := [Draw(CheckboxCall(widget.caption))];
      var toggled := input.pressed;
      if toggled {
        widget := widget.(checked := !widget.checked);
      }
      if toggled && handler.Some? {
        var e := RunHandler();
        events := events + [e];
      }
    }

    method RenderSelect(input: Interaction) returns (events: seq<Event>)
      requires widget.Select? && Valid()
      modifies this
      ensures Valid()
      ensures widget == AfterFrame(old(widget), input) && handler == old(handler)
      ensures events == RenderEvents(old(State()), input)
    {
      var options := widget.options;
      var preview := if |options| == 0 then "None" else options[widget.selected];
      events := [Draw(ComboCall(widget.caption, preview))];
      var valueChanged := false;
      if input.comboOpen {
        var i := 0;
        while i < |options|
          invariant 0 <= i <= |options|
          invariant widget == old(widget).(selected := LastPick(input, i, old(widget).selected))
          invariant valueChanged == AnyPicked(input, i)
          invariant handler == old(handler)
        {
          if Picked(input, i) {
            widget := widget.(selected := i);
            valueChanged := true;
          }
          i := i + 1;
        }
      }
      if valueChanged && handler.Some? {
        var e := RunHandler();
        events := events + [e];
      }
    }

    method RenderLabel(input: Interaction) returns (events: seq<Event>)
      requires widget.Label?
      ensures events == [Draw(LabelTextCall(widget.caption, widget.caption))]
    {
      events := [Draw(LabelTextCall(widget.caption, widget.caption))];
    }

    /** Moves a select to `index` when it is a position in the option list;
        any other index is ignored. */
    method SetSelectedIndex(index: int)
      requires widget.Select? && Valid()
      modifies this
      ensures Valid() && handler == old(handler)
      ensures widget == if 0 <= index < |old(widget).options| then old(widget).(selected := index) else old(widget)
    {
      if index >= 0 && index < |widget.options| {
        widget := widget.(selected := index);
      }
    }

    /** The selected index, a position in the option list when the element is valid. */
    function GetSelectedIndex(): (i: int)
      requires widget.Select?
      reads this
      ensures i == widget.selected
      ensures Valid() ==> 0 <= i && (i == 0 || i < |widget.options|)
    {
      widget.selected
    }

    /** The selected option, or "" when the index is not a position in the
        list (an empty list). */
    function GetSelectedOption(): (r: string)
      requires widget.Select?
      reads this
      ensures Valid() && widget.options != [] ==> r == widget.options[widget.selected] && r in widget.options
      ensures widget.options == [] ==> r == ""
    {
      SelectedOption(widget)
    }

    /** The value last stored by a render or by SetValue. */
    function GetValue(): (v: real)
      requires widget.SliderFloat?
      reads this
      ensures v == widget.value
    {
      widget.value
    }

    /** Stores `v` as it is, even outside [min, max]. */
    method SetValue(v: real)
      requires widget.SliderFloat?
      modifies this
      ensures widget == old(widget).(value := v) && handler == old(handler)
      ensures GetValue() == v
    {
      widget := widget.(value := v);
    }

    /** The vector last stored by a render or by SetVec. */
    function GetVec(): (v: Vec3)
      requires widget.SliderVec3?
      reads this
      ensures v == widget.vec
    {
      widget.vec
    }

    /** Replaces all three components at once. */
    method SetVec(v: Vec3)
      requires widget.SliderVec3?
      modifies this
      ensures widget == old(widget).(vec := v) && handler == old(handler)
      ensures GetVec() == v
    {
      widget := widget.(vec := v);
    }
  }
}
