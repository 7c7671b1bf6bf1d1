/** A shader program and the source file names it was built from
    (src/Classes/Shader.cpp). A source name reads as absent while it is empty,
    and setting an absent name keeps the current one. Compiling, linking and
    the uniform setters are GL calls and are not part of this model; the
    program ID is whatever the GL assigned. */
module Shaders {
  import opened Optional

  /** A shader as a value: its program ID and its three recorded source names. */
  datatype ShaderValue = ShaderValue(id: nat, vertex: string, fragment: string, geometry: string)

  const NoShader := ShaderValue(0, "", "", "")

  /** A source name as the getters report it. */
  function Reported(path: string): (r: Option<string>)
    ensures r == None <==> path == ""
    ensures r != None ==> r.value == path
  {
    if path != "" then Some(path) else None
  }

  /** The stored name after a setter was called with `given`. */
  function Stored(current: string, given: Option<string>): (r: string)
    ensures given == None ==> r == current
    ensures given != None ==> r == given.value
  {
    if given != None then given.value else current
  }

  /** Setting a name and reading it back yields the name, or absent for an
      empty name; setting absent reads back what was there. */
  lemma SetThenGet(current: string, given: Option<string>)
    ensures Reported(Stored(current, given))
         == if given == None then Reported(current) else if given.value == "" then None else Some(given.value)
  {
  }

  class Shader {
    var id: nat
    var vertexFile: string
    var fragmentFile: string
    var geometryFile: string

    /** A new shader has no program and no source names. */
    constructor()
      ensures Value() == NoShader
    {
      id := 0;
      vertexFile := "";
      fragmentFile := "";
      geometryFile := "";
    }

    function Value(): ShaderValue
      reads this
    {
      ShaderValue(id, vertexFile, fragmentFile, geometryFile)
    }

    function GetVertexSource(): (r: Option<string>)
      reads this
      ensures r == None <==> vertexFile == ""
      ensures r != None ==> r.value == vertexFile
    {
      Reported(vertexFile)
    }

    function GetFragmentSource(): (r: Option<string>)
      reads this
      ensures r == None <==> fragmentFile == ""
      ensures r != None ==> r.value == fragmentFile
    {
      Reported(fragmentFile)
    }

    function GetGeometrySource(): (r: Option<string>)
      reads this
      ensures r == None <==> geometryFile == ""
      ensures r != None ==> r.value == geometryFile
    {
      Reported(geometryFile)
    }

    method SetVertexSource(path: Option<string>)
      modifies this
      ensures Value() == old(Value()).(vertex := Stored(old(vertexFile), path))
    {
      if path != None {
        vertexFile := path.value;
      }
    }

    method SetFragmentSource(path: Option<string>)
      modifies this
      ensures Value() == old(Value()).(fragment := Stored(old(fragmentFile), path))
    {
      if path != None {
        fragmentFile := path.value;
      }
    }

    method SetGeometrySource(path: Option<string>)
      modifies this
      ensures Value() == old(Value()).(geometry := Stored(old(geometryFile), path))
    {
      if path != None {
        geometryFile := path.value;
      }
    }

    /** Sets fragment, geometry and vertex names in that order, each one only
        when it is given. */
    method SetSources(vertex: Option<string>, fragment: Option<string>, geometry: Option<string>)
      modifies this
      ensures Value() == ShaderValue(old(id), Stored(old(vertexFile), vertex),
                                     Stored(old(fragmentFile), fragment), Stored(old(geometryFile), geometry))
    {
      SetFragmentSource(fragment);
      SetGeometrySource(geometry);
      SetVertexSource(vertex);
    }
  }
}
