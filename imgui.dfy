/** The immediate-mode UI library as the elements see it: each widget call
    draws something and reports, as a boolean and through the pointer it was
    given, what the user did with it this frame. The library itself is not
    modelled; its reports are inputs and its draw calls are recorded. */
module ImGui {
  import opened Linear

  /** What one widget call reported in one frame. Each kind of element reads
      only the fields its own widget call fills in. */
  datatype Interaction = Interaction(
    pressed: bool,      // returned by Button, SliderFloat, SliderFloat3 or Checkbox
    value: real,        // written by SliderFloat through its pointer when it returns true
    vec: Vec3,          // written by SliderFloat3 through its pointer when it returns true
    comboOpen: bool,       // returned by BeginCombo (or TreeNode)
    picks: seq<bool>)   // picks[i]: the i-th Selectable returned true

  /** A widget nobody touched this frame. */
  const Idle := Interaction(false, 0.0, Zero, false, [])

  predicate Picked(input: Interaction, i: int)
  {
    0 <= i < |input.picks| && input.picks[i]
  }

  /** The draw calls the elements issue. */
  datatype DrawCall =
    | Begin(title: string)
    | End
    | ButtonCall(caption: string)
    | SliderFloatCall(caption: string, min: real, max: real)
    | SliderFloat3Call(caption: string, min: real, max: real)
    | CheckboxCall(caption: string)
    | ComboCall(caption: string, preview: string)
    | TreeNodeCall(caption: string)
    | LabelTextCall(caption: string, text: string)
}
