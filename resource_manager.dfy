/** The resource registry (src/Classes/ResourceManager.cpp): shaders and
    textures stored by value under a name. Storing under a name that is in use
    overwrites the value in its slot, so a handle obtained earlier sees the new
    value; looking up an absent name inserts a default value. Reading files,
    compiling and decoding images are not part of this model: which shader
    files exist and the IDs the GL hands out are parameters. */
module Resources {
  import opened Optional
  import opened Ordering
  import opened Shaders

  /** A texture as the registry keeps it: its GL ID and whether it was
      created with an alpha channel (GL_RGBA rather than GL_RGB). */
  datatype Texture2D = Texture2D(id: nat, rgba: bool)

  /** The shader loadShaderFromFile returns. Each file is checked, in the
      order vertex, fragment, geometry, at `directory` + its name, and each
      name is recorded, unprefixed, only once its file was found. The first
      missing file abandons the load, leaving program ID 0. */
  function LoadedShader(vertex: string, fragment: string, geometry: Option<string>,
                        directory: string, existing: set<string>, programId: nat): ShaderValue
  {
    if directory + vertex !in existing then NoShader
    else if directory + fragment !in existing then NoShader.(vertex := vertex)
    else if geometry != None && directory + geometry.value !in existing then NoShader.(vertex := vertex, fragment := fragment)
    else ShaderValue(programId, vertex, fragment, if geometry != None then geometry.value else "")
  }

  /** All files present: the program is built and all names are recorded.
      Any file missing: the program ID is 0, and a name is recorded only when
      its own file and every file checked before it exist. */
  lemma LoadedShaderOutcome(vertex: string, fragment: string, geometry: Option<string>,
                            directory: string, existing: set<string>, programId: nat)
    ensures var s := LoadedShader(vertex, fragment, geometry, directory, existing, programId);
      var allFound := directory + vertex in existing && directory + fragment in existing
                      && (geometry != None ==> directory + geometry.value in existing);
      (allFound ==> s == ShaderValue(programId, vertex, fragment, if geometry != None then geometry.value else ""))
      && (!allFound ==> s.id == 0)
      && (s.vertex != "" ==> s.vertex == vertex && directory + vertex in existing)
      && (s.fragment != "" ==> s.fragment == fragment && directory + vertex in existing && directory + fragment in existing)
      && (s.geometry != "" ==> geometry == Some(s.geometry) && allFound)
  {
  }

  /** Builds a shader from its source files. */
  method LoadShaderFromFile(vertex: string, fragment: string, geometry: Option<string>,
                            directory: string, existing: set<string>, programId: nat)
    returns (shader: Shader)
    ensures fresh(shader)
    ensures shader.Value() == LoadedShader(vertex, fragment, geometry, directory, existing, programId)
  {
    shader := new Shader();
    var vertexPath := directory + vertex;
    var fragmentPath := directory + fragment;
    if vertexPath !in existing {
      return;
    }
    shader.SetVertexSource(Some(vertex));
    if fragmentPath !in existing {
      return;
    }
    shader.SetFragmentSource(Some(fragment));
    if geometry != None {
      if directory + geometry.value !in existing {
        return;
      }
      shader.SetGeometrySource(geometry);
    } else {
      shader.SetGeometrySource(None);
    }
    // Compile: the program the GL created becomes the shader's ID
    shader.id := programId;
  }

  class ResourceManager {
    var shaders: map<string, Shader>
    var textures: map<string, Texture2D>
    /** The name of each stored shader's slot. */
    ghost var slot: map<Shader, string>

    /** Each name has its own slot. */
    ghost predicate Valid()
      reads this
    {
      forall n :: n in shaders ==> shaders[n] in slot && slot[shaders[n]] == n
    }

    ghost function ShaderValues(): map<string, ShaderValue>
      reads this, shaders.Values
    {
      map n | n in shaders :: shaders[n].Value()
    }

    constructor()
      ensures shaders == map[] && textures == map[] && Valid()
    {
      shaders := map[];
      textures := map[];
      slot := map[];
    }

    /** Loads a shader into the slot `name`, overwriting the slot's previous
        value in place, and returns a copy of what was stored. */
    method LoadShader(vertex: string, fragment: string, geometry: Option<string>, name: string,
                      directory: string, existing: set<string>, programId: nat)
      returns (copy: ShaderValue)
      requires Valid()
      modifies this, if name in shaders then {shaders[name]} else {}
      ensures Valid() && textures == old(textures)
      ensures name in shaders && (old(name in shaders) ==> shaders[name] == old(shaders[name]))
      ensures ShaderValues() == old(ShaderValues())[name := LoadedShader(vertex, fragment, geometry, directory, existing, programId)]
      ensures copy == LoadedShader(vertex, fragment, geometry, directory, existing, programId)
    {
      var loaded := LoadShaderFromFile(vertex, fragment, geometry, directory, existing, programId);
      assert ShaderValues() == old(ShaderValues());
      if name in shaders {
        Overwrite(shaders[name], loaded);
      } else {
        shaders := shaders[name := loaded];
        slot := slot[loaded := name];
      }
      copy := loaded.Value();
    }

    /** Copy-assigns `source` into the stored shader `target`. */
    method Overwrite(target: Shader, source: Shader)
      requires Valid() && target in shaders.Values && source !in shaders.Values
      modifies target
      ensures ShaderValues() == old(ShaderValues())[slot[target] := old(source.Value())]
    {
      ghost var name := slot[target];
      target.id := source.id;
      target.SetSources(Some(source.vertexFile), Some(source.fragmentFile), Some(source.geometryFile));
      assert forall n :: n in shaders && n != name ==> shaders[n] != target;
    }

    /** The shader in slot `name`; an absent name gets a new default shader
        (program ID 0). Never null. */
    method GetShader(name: string) returns (shader: Shader)
      requires Valid()
      modifies this
      ensures Valid() && textures == old(textures)
      ensures name in shaders && shader == shaders[name]
      ensures old(name in shaders) ==> shaders == old(shaders)
      ensures old(name !in shaders) ==> fresh(shader) && shader.Value() == NoShader
                                        && shaders == old(shaders)[name := shader]
    {
      if name !in shaders {
        var created := new Shader();
        shaders := shaders[name := created];
        slot := slot[created := name];
      }
      shader := shaders[name];
    }

    /** Stores a texture under `name`, replacing any texture there, and
        returns it. The image itself is not modelled. */
    method LoadTexture(rgba: bool, name: string, generatedId: nat) returns (texture: Texture2D)
      modifies this
      ensures shaders == old(shaders) && slot == old(slot)
      ensures textures == old(textures)[name := Texture2D(generatedId, rgba)]
      ensures texture == Texture2D(generatedId, rgba)
    {
      textures := textures[name := Texture2D(generatedId, rgba)];
      texture := textures[name];
    }

    /** The texture under `name`; an absent name gets a default RGB texture. */
    method GetTexture(name: string, generatedId: nat) returns (texture: Texture2D)
      modifies this
      ensures shaders == old(shaders) && slot == old(slot)
      ensures old(name in textures) ==> textures == old(textures) && texture == textures[name]
      ensures old(name !in textures) ==> textures == old(textures)[name := Texture2D(generatedId, false)]
                                         && texture == Texture2D(generatedId, false)
    {
      if name !in textures {
        textures := textures[name := Texture2D(generatedId, false)];
      }
      texture := textures[name];
    }

    /** Every shader name in map order, then every texture name in map order. */
    method ShowResources() returns (names: seq<string>)
      ensures names == SortedNames(shaders.Keys) + SortedNames(textures.Keys)
    {
      var shaderNames := SortedNames(shaders.Keys);
      var textureNames := SortedNames(textures.Keys);
      names := PushAll([], shaderNames);
      names := PushAll(names, textureNames);
    }

    /** Deletes the GL objects of every shader and texture, in map order, and
        returns the IDs deleted; both maps keep all their entries. */
    method Clear() returns (programs: seq<nat>, textureIds: seq<nat>)
      ensures |programs| == |shaders| && |textureIds| == |textures|
      ensures forall i :: 0 <= i < |programs| ==> programs[i] == shaders[SortedNames(shaders.Keys)[i]].id
      ensures forall i :: 0 <= i < |textureIds| ==> textureIds[i] == textures[SortedNames(textures.Keys)[i]].id
    {
      programs := DeletePrograms(SortedNames(shaders.Keys));
      textureIds := DeleteTextures(SortedNames(textures.Keys));
    }

    method DeletePrograms(names: seq<string>) returns (programs: seq<nat>)
      requires forall n :: n in names ==> n in shaders
      ensures |programs| == |names|
      ensures forall i :: 0 <= i < |names| ==> programs[i] == shaders[names[i]].id
    {
      programs := [];
      for i := 0 to |names|
        invariant |programs| == i
        invariant forall j :: 0 <= j < i ==> programs[j] == shaders[names[j]].id
      {
        programs := programs + [shaders[names[i]].id];
      }
    }

    method DeleteTextures(names: seq<string>) returns (textureIds: seq<nat>)
      requires forall n :: n in names ==> n in textures
      ensures |textureIds| == |names|
      ensures forall i :: 0 <= i < |names| ==> textureIds[i] == textures[names[i]].id
    {
      textureIds := [];
      for i := 0 to |names|
        invariant |textureIds| == i
        invariant forall j :: 0 <= j < i ==> textureIds[j] == textures[names[j]].id
      {
        textureIds := textureIds + [textures[names[i]].id];
      }
    }
  }

  /** Listing two key sets one after the other names every key of both, and
      a name in both sets twice. */
  lemma ListingCoversBoth(a: set<string>, b: set<string>)
    ensures |SortedNames(a) + SortedNames(b)| == |a| + |b|
    ensures forall k :: k in SortedNames(a) + SortedNames(b) <==> k in a || k in b
  {
  }

  /** Appends `names` to `acc` one at a time, as push_back does. */
  method PushAll(acc: seq<string>, names: seq<string>) returns (r: seq<string>)
    ensures r == acc + names
  {
    r := acc;
    for i := 0 to |names|
      invariant r == acc + names[..i]
    {
      assert names[..i + 1] == names[..i] + [names[i]];
      r := r + [names[i]];
    }
    assert names[..|names|] == names;
  }
}
