/** Game objects (src/Classes/GameObject.cpp) and the built-in shapes that
    specialise them (Cube.cpp, Square.cpp, Axis.cpp, Sphere.cpp). An object
    owns a transform and keeps its model matrix equal to
    Translate · Rotate · Scale of that transform. Buffers, GL state and the
    matrix arithmetic are not modelled: a mesh is the data it was built from
    and the model matrix is the symbolic `Compose` term. */
module GameObjects {
  import opened Linear
  import opened Meshes
  import opened Shaders
  import opened Resources

  /** The vertex data and index list a mesh was built from. An empty index
      list means a non-indexed mesh. */
  class Mesh {
    const vertices: seq<Vertex>
    const indices: seq<nat>

    constructor(vertices: seq<Vertex>, indices: seq<nat>)
      ensures this.vertices == vertices && this.indices == indices
    {
      this.vertices := vertices;
      this.indices := indices;
    }
  }

  /** A material refers to a shader kept by the resource registry. */
  class Material {
    const shader: Shader

    constructor(shader: Shader)
      ensures this.shader == shader
    {
      this.shader := shader;
    }
  }

  /** How an object's mesh is drawn: as triangles, or as lines (the axis
      gizmo overrides `draw` to draw lines). */
  datatype Primitive = Triangles | Lines

  /** One object drawn: the matrices handed to the shader, the mesh and the
      shader used, and the primitive. */
  datatype DrawCall = DrawCall(model: Mat4, view: Mat4, projection: Mat4,
                               mesh: Mesh, shader: Shader, primitive: Primitive)

  class GameObject {
    var mesh: Mesh?
    var material: Material?
    var position: Vec3
    var rotation: Quat
    var scale: Vec3
    var model: Mat4
    const primitive: Primitive

    /** The model matrix is the composition of the current transform. */
    ghost predicate Valid()
      reads this
    {
      model == Compose(position, rotation, scale)
    }

    /** At the origin, unrotated, unit scale, without mesh or material. */
    constructor()
      ensures mesh == null && material == null && primitive == Triangles
      ensures position == Zero && rotation == NoRotation && scale == One
      ensures Valid() && model == Identity
    {
      primitive := Triangles;
      mesh := null;
      material := null;
      position := Zero;
      rotation := NoRotation;
      scale := One;
      new;
      UpdateModelMatrix();
    }

    /** Sets the model matrix to the identity directly rather than composing
        it; the default transform composes to the same matrix. */
    constructor WithParts(mesh: Mesh?, material: Material?)
      ensures this.mesh == mesh && this.material == material && primitive == Triangles
      ensures position == Zero && rotation == NoRotation && scale == One
      ensures model == Identity && Valid()
    {
      primitive := Triangles;
      this.mesh := mesh;
      this.material := material;
      position := Zero;
      rotation := NoRotation;
      scale := One;
      model := Identity;
    }

    /** The cube: its constant tables and the standard shader, looked up (and
        created when absent) in the registry. */
    constructor Cube(resources: ResourceManager, standardShader: string)
      requires resources.Valid()
      modifies resources
      ensures resources.Valid() && standardShader in resources.shaders
      ensures resources.textures == old(resources.textures)
      ensures old(standardShader in resources.shaders) ==> resources.shaders == old(resources.shaders)
      ensures old(standardShader !in resources.shaders) ==>
                (fresh(resources.shaders[standardShader]) && resources.shaders[standardShader].Value() == NoShader
                 && resources.shaders == old(resources.shaders)[standardShader := resources.shaders[standardShader]])
      ensures mesh != null && mesh.vertices == CubeVertices && mesh.indices == CubeIndices
      ensures material != null && material.shader == resources.shaders[standardShader]
      ensures position == Zero && rotation == NoRotation && scale == One
      ensures Valid() && primitive == Triangles
    {
      primitive := Triangles;
      var shader := resources.GetShader(standardShader);
      mesh := new Mesh(CubeVertices, CubeIndices);
      material := new Material(shader);
      position := Zero;
      rotation := NoRotation;
      scale := One;
      model := Identity;
    }

    /** The square: its constant tables and the shader named "basic". */
    constructor Square(resources: ResourceManager)
      requires resources.Valid()
      modifies resources
      ensures resources.Valid() && "basic" in resources.shaders
      ensures resources.textures == old(resources.textures)
      ensures old("basic" in resources.shaders) ==> resources.shaders == old(resources.shaders)
      ensures old("basic" !in resources.shaders) ==>
                (fresh(resources.shaders["basic"]) && resources.shaders["basic"].Value() == NoShader
                 && resources.shaders == old(resources.shaders)["basic" := resources.shaders["basic"]])
      ensures mesh != null && mesh.vertices == SquareVertices && mesh.indices == SquareIndices
      ensures material != null && material.shader == resources.shaders["basic"]
      ensures position == Zero && rotation == NoRotation && scale == One
      ensures Valid() && primitive == Triangles
    {
      primitive := Triangles;
      var shader := resources.GetShader("basic");
      mesh := new Mesh(SquareVertices, SquareIndices);
      material := new Material(shader);
      position := Zero;
      rotation := NoRotation;
      scale := One;
      model := Identity;
    }

    /** The axis gizmo: a non-indexed mesh of three segments, drawn as lines. */
    constructor Axis(resources: ResourceManager, standardShader: string, length: real)
      requires resources.Valid()
      modifies resources
      ensures resources.Valid() && standardShader in resources.shaders
      ensures resources.textures == old(resources.textures)
      ensures old(standardShader in resources.shaders) ==> resources.shaders == old(resources.shaders)
      ensures old(standardShader !in resources.shaders) ==>
                (fresh(resources.shaders[standardShader]) && resources.shaders[standardShader].Value() == NoShader
                 && resources.shaders == old(resources.shaders)[standardShader := resources.shaders[standardShader]])
      ensures mesh != null && mesh.vertices == AxisVertices(length) && mesh.indices == []
      ensures material != null && material.shader == resources.shaders[standardShader]
      ensures position == Zero && rotation == NoRotation && scale == One
      ensures Valid() && primitive == Lines
    {
      primitive := Lines;
      var shader := resources.GetShader(standardShader);
      mesh := new Mesh(AxisVertices(length), []);
      material := new Material(shader);
      position := Zero;
      rotation := NoRotation;
      scale := One;
      model := Identity;
    }

    /** The sphere at the requested resolution (raised to at least 3
        longitudes and 2 latitudes); `surface` gives the vertex at each grid
        position, which the source computes with sine and cosine. */
    constructor Sphere(resources: ResourceManager, standardShader: string,
                       longitudes: int, latitudes: int, surface: (nat, nat) -> Vertex)
      requires resources.Valid()
      modifies resources
      ensures resources.Valid() && standardShader in resources.shaders
      ensures resources.textures == old(resources.textures)
      ensures old(standardShader in resources.shaders) ==> resources.shaders == old(resources.shaders)
      ensures old(standardShader !in resources.shaders) ==>
                (fresh(resources.shaders[standardShader]) && resources.shaders[standardShader].Value() == NoShader
                 && resources.shaders == old(resources.shaders)[standardShader := resources.shaders[standardShader]])
      ensures mesh != null
      ensures mesh.vertices == Grid(AtLeast(latitudes, 2) + 1, AtLeast(longitudes, 3) + 1, surface)
      ensures mesh.indices == SphereIndexList(AtLeast(latitudes, 2), AtLeast(longitudes, 3))
      ensures material != null && material.shader == resources.shaders[standardShader]
      ensures position == Zero && rotation == NoRotation && scale == One
      ensures Valid() && primitive == Triangles
    {
      primitive := Triangles;
      var vertices, indices := SphereMesh(longitudes, latitudes, surface);
      mesh := new Mesh(vertices, indices);
      var shader := resources.GetShader(standardShader);
      material := new Material(shader);
      position := Zero;
      rotation := NoRotation;
      scale := One;
      model := Identity;
    }

    /** Recomputes the model matrix from the transform; nothing else changes. */
    method UpdateModelMatrix()
      modifies this
      ensures Valid()
      ensures position == old(position) && rotation == old(rotation) && scale == old(scale)
      ensures mesh == old(mesh) && material == old(material)
    {
      model := Compose(position, rotation, scale);
    }

    method SetPosition(p: Vec3)
      modifies this
      ensures position == p && rotation == old(rotation) && scale == old(scale)
      ensures mesh == old(mesh) && material == old(material) && Valid()
    {
      position := p;
      UpdateModelMatrix();
    }

    method SetRotation(r: Quat)
      modifies this
      ensures rotation == r && position == old(position) && scale == old(scale)
      ensures mesh == old(mesh) && material == old(material) && Valid()
    {
      rotation := r;
      UpdateModelMatrix();
    }

    method SetScale(s: Vec3)
      modifies this
      ensures scale == s && position == old(position) && rotation == old(rotation)
      ensures mesh == old(mesh) && material == old(material) && Valid()
    {
      scale := s;
      UpdateModelMatrix();
    }

    /** Replaces the mesh pointer only. */
    method SetMesh(m: Mesh?)
      modifies this
      ensures mesh == m && material == old(material) && model == old(model)
      ensures position == old(position) && rotation == old(rotation) && scale == old(scale)
    {
      mesh := m;
    }

    /** Replaces the material pointer only. */
    method SetMaterial(m: Material?)
      modifies this
      ensures material == m && mesh == old(mesh) && model == old(model)
      ensures position == old(position) && rotation == old(rotation) && scale == old(scale)
    {
      material := m;
    }

    /** The model matrix is Translate · Rotate · Scale of what the transform
        getters return. */
    function GetModel(): (m: Mat4)
      reads this
      requires Valid()
      ensures m == Compose(GetPosition(), GetRotation(), GetScale())
    {
      model
    }

    /** The object's position, as the last setPosition left it. */
    function GetPosition(): (p: Vec3)
      reads this
      ensures p == position
    {
      position
    }

    /** The object's rotation, as the last setRotation left it. */
    function GetRotation(): (r: Quat)
      reads this
      ensures r == rotation
    {
      rotation
    }

    /** The object's scale, as the last setScale left it. */
    function GetScale(): (s: Vec3)
      reads this
      ensures s == scale
    {
      scale
    }

    /** The mesh the object draws, or null when none was given. */
    function GetMesh(): (m: Mesh?)
      reads this
      ensures m == mesh
    {
      mesh
    }

    /** The material the object draws with, or null when none was given. */
    function GetMaterial(): (m: Material?)
      reads this
      ensures m == material
    {
      material
    }

    /** Draws the object with the material's shader: the model matrix of the
        current transform and the given view and projection. The source
        dereferences mesh and material unconditionally. */
    function Draw(view: Mat4, projection: Mat4): (call: DrawCall)
      reads this
      requires Valid() && mesh != null && material != null
      ensures call.model == Compose(position, rotation, scale)
      ensures call.view == view && call.projection == projection
      ensures call.mesh == mesh && call.shader == material.shader && call.primitive == primitive
    {
      DrawCall(model, view, projection, mesh, material.shader, primitive)
    }
  }

  /** A cube placed at `position`: the cube constructor followed by
      setPosition. */
  method NewCubeAt(resources: ResourceManager, standardShader: string, position: Vec3)
    returns (cube: GameObject)
    requires resources.Valid()
    modifies resources
    ensures fresh(cube) && resources.Valid()
    ensures cube.mesh != null && cube.mesh.vertices == CubeVertices && cube.mesh.indices == CubeIndices
    ensures standardShader in resources.shaders
    ensures resources.textures == old(resources.textures)
    ensures old(standardShader in resources.shaders) ==> resources.shaders == old(resources.shaders)
    ensures old(standardShader !in resources.shaders) ==>
              (fresh(resources.shaders[standardShader]) && resources.shaders[standardShader].Value() == NoShader
               && resources.shaders == old(resources.shaders)[standardShader := resources.shaders[standardShader]])
    ensures cube.material != null && cube.material.shader == resources.shaders[standardShader]
    ensures cube.position == position && cube.rotation == NoRotation && cube.scale == One && cube.Valid()
  {
    cube := new GameObject.Cube(resources, standardShader);
    cube.SetPosition(position);
  }

  /** An axis gizmo placed at `position`: the axis constructor followed by
      setPosition. */
  method NewAxisAt(resources: ResourceManager, standardShader: string, length: real, position: Vec3)
    returns (axis: GameObject)
    requires resources.Valid()
    modifies resources
    ensures fresh(axis) && resources.Valid()
    ensures axis.mesh != null && axis.mesh.vertices == AxisVertices(length) && axis.mesh.indices == []
    ensures standardShader in resources.shaders
    ensures resources.textures == old(resources.textures)
    ensures old(standardShader in resources.shaders) ==> resources.shaders == old(resources.shaders)
    ensures old(standardShader !in resources.shaders) ==>
              (fresh(resources.shaders[standardShader]) && resources.shaders[standardShader].Value() == NoShader
               && resources.shaders == old(resources.shaders)[standardShader := resources.shaders[standardShader]])
    ensures axis.material != null && axis.material.shader == resources.shaders[standardShader]
    ensures axis.position == position && axis.rotation == NoRotation && axis.scale == One
    ensures axis.Valid() && axis.primitive == Lines
  {
    axis := new GameObject.Axis(resources, standardShader, length);
    axis.SetPosition(position);
  }

  /** A sphere placed at `position`: the sphere constructor followed by
      setPosition. */
  method NewSphereAt(resources: ResourceManager, standardShader: string, longitudes: int,
                     latitudes: int, surface: (nat, nat) -> Vertex, position: Vec3)
    returns (sphere: GameObject)
    requires resources.Valid()
    modifies resources
    ensures fresh(sphere) && resources.Valid()
    ensures sphere.mesh != null
    ensures sphere.mesh.vertices == Grid(AtLeast(latitudes, 2) + 1, AtLeast(longitudes, 3) + 1, surface)
    ensures sphere.mesh.indices == SphereIndexList(AtLeast(latitudes, 2), AtLeast(longitudes, 3))
    ensures standardShader in resources.shaders
    ensures resources.textures == old(resources.textures)
    ensures old(standardShader in resources.shaders) ==> resources.shaders == old(resources.shaders)
    ensures old(standardShader !in resources.shaders) ==>
              (fresh(resources.shaders[standardShader]) && resources.shaders[standardShader].Value() == NoShader
               && resources.shaders == old(resources.shaders)[standardShader := resources.shaders[standardShader]])
    ensures sphere.material != null && sphere.material.shader == resources.shaders[standardShader]
    ensures sphere.position == position && sphere.rotation == NoRotation && sphere.scale == One
    ensures sphere.Valid()
  {
    sphere := new GameObject.Sphere(resources, standardShader, longitudes, latitudes, surface);
    sphere.SetPosition(position);
  }
}
