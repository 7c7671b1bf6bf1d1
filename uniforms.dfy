/** The shader-uniform filter and the control each uniform gets, shared by
    both UI revisions (populateShaderInfoPanel in src/Classes/UI/UIManager.cpp
    and generateUIFromShader in src/Classes/UIManager.cpp). The GL queries are
    replaced by the list of active uniforms they would report. */
module Uniforms {
  import opened Optional

  /** The GL types the generator distinguishes; any other type is `Other`. */
  datatype UniformKind = Float | FloatVec2 | FloatVec3 | FloatVec4 | Int | Sampler2D | Bool | Other(code: nat)

  /** An active uniform of a program: its full name and its type. */
  datatype Uniform = Uniform(name: string, kind: UniformKind)

  /** The size of the buffer the name is read into, terminator included. */
  const NameBufferSize: nat := 256

  /** The name as read through the buffer: at most 255 characters, the rest
      is cut off. */
  function ReportedName(full: string): (r: string)
    ensures |r| < NameBufferSize && r <= full
    ensures |full| < NameBufferSize ==> r == full
  {
    if |full| < NameBufferSize then full else full[..NameBufferSize - 1]
  }

  /** `pattern` occurs in `s` starting at position `i`. */
  predicate OccursAt(s: string, pattern: string, i: nat)
  {
    i + |pattern| <= |s| && s[i..i + |pattern|] == pattern
  }

  /** std::string::rfind(pattern, pos): the last position at or before
      `pos` where `pattern` occurs. */
  function RFind(s: string, pattern: string, pos: nat): (r: Option<nat>)
    ensures r.Some? ==> r.value <= pos && OccursAt(s, pattern, r.value)
    ensures r.Some? ==> forall i: nat :: r.value < i <= pos ==> !OccursAt(s, pattern, i)
    ensures r.None? ==> forall i: nat :: i <= pos ==> !OccursAt(s, pattern, i)
  {
    if OccursAt(s, pattern, pos) then Some(pos)
    else if pos == 0 then None
    else RFind(s, pattern, pos - 1)
  }

  /** std::string::find(c): the first position of `c`. */
  function Find(s: string, c: char): (r: Option<nat>)
    ensures r.Some? ==> r.value < |s| && s[r.value] == c && forall i :: 0 <= i < r.value ==> s[i] != c
    ensures r.None? <==> c !in s
  {
    if s == [] then None
    else if s[0] == c then Some(0)
    else match Find(s[1..], c)
      case None => None
      case Some(i) => Some(i + 1)
  }

  /** The uniforms the generator leaves alone: built-in ones, the three
      matrices the renderer sets itself, and array elements. */
  predicate IsSkipped(name: string)
  {
    RFind(name, "gl_", 0) == Some(0)
    || name == "model" || name == "view" || name == "projection"
    || Find(name, '[') != None
  }

  /** A name is skipped iff it starts with "gl_", is one of the three matrix
      names, or contains '['. */
  lemma SkippedIff(name: string)
    ensures IsSkipped(name) <==>
      (|name| >= 3 && name[..3] == "gl_")
      || name == "model" || name == "view" || name == "projection"
      || '[' in name
  {
    assert OccursAt(name, "gl_", 0) <==> |name| >= 3 && name[..3] == "gl_";
  }

  /** The control generated for a uniform, named after it. */
  datatype Control = FloatSlider(name: string) | Vec3Slider(name: string)

  /** Bounds and start values of the generated sliders. */
  const SliderMin: real := -10.0
  const SliderMax: real := 10.0

  /** A float uniform gets a float slider and a vec3 uniform a vec3 slider,
      unless its name is skipped; every other type gets nothing. */
  function ControlFor(u: Uniform): (c: Option<Control>)
    ensures c.Some? <==> !IsSkipped(ReportedName(u.name)) && (u.kind == Float || u.kind == FloatVec3)
    ensures c.Some? ==> c.value.name == ReportedName(u.name)
    ensures c.Some? ==> (c.value.FloatSlider? <==> u.kind == Float)
  {
    var name := ReportedName(u.name);
    if IsSkipped(name) then None
    else match u.kind
      case Float => Some(FloatSlider(name))
      case FloatVec3 => Some(Vec3Slider(name))
      case _ => None
  }

  /** The controls generated from `uniforms` in order, each stored under its
      name so that a later control replaces an earlier one of the same name. */
  function Generated(uniforms: seq<Uniform>): map<string, Control>
  {
    if uniforms == [] then map[]
    else
      var before := Generated(uniforms[..|uniforms| - 1]);
      match ControlFor(uniforms[|uniforms| - 1])
      case None => before
      case Some(c) => before[c.name := c]
  }

  /** Adding one more uniform to the list adds its control, if it has one,
      over what was there. */
  lemma GeneratedStep(uniforms: seq<Uniform>, i: nat)
    requires i < |uniforms|
    ensures Generated(uniforms[..i + 1])
         == match ControlFor(uniforms[i])
            case None => Generated(uniforms[..i])
            case Some(c) => Generated(uniforms[..i])[c.name := c]
  {
    assert uniforms[..i + 1][..i] == uniforms[..i];
  }

  /** Uniform `u` yields a control named `n`. */
  predicate Yields(u: Uniform, n: string)
  {
    ControlFor(u).Some? && ControlFor(u).value.name == n
  }

  /** Every accepted uniform's name is generated. */
  lemma {:induction false} GeneratedCovers(uniforms: seq<Uniform>)
    ensures forall i :: 0 <= i < |uniforms| && ControlFor(uniforms[i]).Some? ==>
              ControlFor(uniforms[i]).value.name in Generated(uniforms)
  {
    if uniforms != [] {
      var init := uniforms[..|uniforms| - 1];
      GeneratedCovers(init);
      assert forall i :: 0 <= i < |init| ==> uniforms[i] == init[i];
    }
  }

  /** `uniforms[i]` is the last uniform that yields `n`. */
  predicate LastYield(uniforms: seq<Uniform>, i: nat, n: string)
  {
    i < |uniforms| && Yields(uniforms[i], n) && forall j :: i < j < |uniforms| ==> !Yields(uniforms[j], n)
  }

  /** A last yield in a prefix stays the last one when the uniform appended
      does not yield the same name. */
  lemma LastYieldExtends(init: seq<Uniform>, u: Uniform, i: nat, n: string)
    requires LastYield(init, i, n) && !Yields(u, n)
    ensures LastYield(init + [u], i, n) && (init + [u])[i] == init[i]
  {
    var uniforms := init + [u];
    forall j | i < j < |uniforms|
      ensures !Yields(uniforms[j], n)
    {
      if j < |init| {
        assert uniforms[j] == init[j];
      }
    }
  }

  /** What is stored under a name is the control of the last uniform that
      yields that name. */
  lemma {:induction false} GeneratedLastWins(uniforms: seq<Uniform>, n: string)
    requires n in Generated(uniforms)
    ensures exists i: nat :: LastYield(uniforms, i, n) && ControlFor(uniforms[i]) == Some(Generated(uniforms)[n])
  {
    assert uniforms != [];
    var init := uniforms[..|uniforms| - 1];
    var last := |uniforms| - 1;
    if Yields(uniforms[last], n) {
      assert LastYield(uniforms, last, n) && ControlFor(uniforms[last]) == Some(Generated(uniforms)[n]);
    } else {
      assert Generated(uniforms)[n] == Generated(init)[n];
      GeneratedLastWins(init, n);
      var i: nat :| LastYield(init, i, n) && ControlFor(init[i]) == Some(Generated(init)[n]);
      assert uniforms == init + [uniforms[last]];
      LastYieldExtends(init, uniforms[last], i, n);
    }
  }

  /** No generated control carries a skipped name. */
  lemma {:induction false} GeneratedNotSkipped(uniforms: seq<Uniform>)
    ensures forall n :: n in Generated(uniforms) ==> !IsSkipped(n) && Generated(uniforms)[n].name == n
  {
    if uniforms != [] {
      GeneratedNotSkipped(uniforms[..|uniforms| - 1]);
    }
  }
}
