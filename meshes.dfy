/** Mesh data of the built-in shapes: the constant cube, square and axis
    tables (src/Classes/Cube.cpp, Square.cpp, Axis.cpp) and the sphere's
    latitude/longitude grid and triangulation (src/Classes/Sphere.cpp).
    Coordinates are reals; the sphere's trigonometry is not modelled and its
    vertices are given by a function of their grid position. */
module Meshes {
  import opened Linear

  /** A vertex: a position and the attribute stored in glm's `m_normal` slot,
      which the cube, square and axis fill with a colour and the sphere with
      the surface normal. */
  datatype Vertex = Vertex(position: Vec3, normal: Vec3)

  function V(x: real, y: real, z: real, r: real, g: real, b: real): Vertex
  {
    Vertex(Vec3(x, y, z), Vec3(r, g, b))
  }

  // ---------------------------------------------------------------- cube

  const CubeVertices: seq<Vertex> := [
    V(-0.5, -0.5, -0.5, 1.0, 0.0, 0.0),
    V( 0.5, -0.5, -0.5, 0.0, 1.0, 0.0),
    V( 0.5,  0.5, -0.5, 0.0, 0.0, 1.0),
    V(-0.5,  0.5, -0.5, 1.0, 1.0, 0.0),
    V(-0.5, -0.5,  0.5, 1.0, 0.0, 1.0),
    V( 0.5, -0.5,  0.5, 0.0, 1.0, 1.0),
    V( 0.5,  0.5,  0.5, 1.0, 1.0, 1.0),
    V(-0.5,  0.5,  0.5, 0.5, 0.5, 0.5)
  ]

  /** The index list face by face: back, front, left, right, bottom and top,
      two triangles each. */
  const CubeFaces: seq<seq<nat>> := [
    [0, 1, 2,  2, 3, 0],
    [4, 5, 6,  6, 7, 4],
    [4, 0, 3,  3, 7, 4],
    [1, 5, 6,  6, 2, 1],
    [4, 5, 1,  1, 0, 4],
    [3, 2, 6,  6, 7, 3]
  ]

  const CubeIndices: seq<nat> :=
    CubeFaces[0] + CubeFaces[1] + CubeFaces[2] + CubeFaces[3] + CubeFaces[4] + CubeFaces[5]

  /** The six indices of face `f`. */
  function CubeFace(f: nat): seq<nat>
    requires f < 6
  {
    CubeFaces[f]
  }

  /** The axis each face is perpendicular to, and the side it lies on. */
  function FaceAxis(f: nat): Axis
    requires f < 6
  {
    [Z, Z, X, X, Y, Y][f]
  }

  function FaceSide(f: nat): real
    requires f < 6
  {
    if f % 2 == 0 then -0.5 else 0.5
  }

  /** 8 vertices and 36 indices (12 triangles); every index names a vertex
      and every vertex is used. */
  lemma CubeTables()
    ensures |CubeVertices| == 8 && |CubeIndices| == 36 && |CubeIndices| % 3 == 0
    ensures forall k :: k in CubeIndices ==> k < |CubeVertices|
    ensures forall v :: 0 <= v < |CubeVertices| ==> v in CubeIndices
  {
    assert CubeIndices[0] == 0 && CubeIndices[1] == 1 && CubeIndices[2] == 2 && CubeIndices[4] == 3;
    assert CubeIndices[6] == 4 && CubeIndices[7] == 5 && CubeIndices[8] == 6 && CubeIndices[10] == 7;
  }

  /** Face `f` uses exactly the four corners that lie in its plane: a vertex
      is in the face iff its coordinate on the face's axis is the face's side. */
  ghost predicate FacePlanar(f: nat)
    requires f < 6
  {
    (forall k :: k in CubeFace(f) ==> k < |CubeVertices|)
    && (forall v :: 0 <= v < |CubeVertices| ==>
          (v in CubeFace(f) <==> Component(CubeVertices[v].position, FaceAxis(f)) == FaceSide(f)))
    && |set k | k in CubeFace(f)| == 4
  }

  /** Every face of the cube is a square of four distinct corners in one
      plane x, y or z = ±0.5. */
  lemma CubeFacePlanar(f: nat)
    requires f < 6
    ensures forall k :: k in CubeFace(f) ==> k < |CubeVertices|
    ensures forall v :: 0 <= v < |CubeVertices| ==>
              (v in CubeFace(f) <==> Component(CubeVertices[v].position, FaceAxis(f)) == FaceSide(f))
    ensures |set k | k in CubeFace(f)| == 4
  {
    if f == 0 {
      BackFacePlanar();
    } else if f == 1 {
      FrontFacePlanar();
    } else if f == 2 {
      LeftFacePlanar();
    } else if f == 3 {
      RightFacePlanar();
    } else if f == 4 {
      BottomFacePlanar();
    } else {
      TopFacePlanar();
    }
  }

  lemma BackFacePlanar()
    ensures FacePlanar(0)
  {
    assert (set k | k in CubeFace(0)) == {0, 1, 2, 3};
  }

  lemma FrontFacePlanar()
    ensures FacePlanar(1)
  {
    assert (set k | k in CubeFace(1)) == {4, 5, 6, 7};
  }

  lemma LeftFacePlanar()
    ensures FacePlanar(2)
  {
    assert (set k | k in CubeFace(2)) == {0, 3, 4, 7};
  }

  lemma RightFacePlanar()
    ensures FacePlanar(3)
  {
    assert (set k | k in CubeFace(3)) == {1, 2, 5, 6};
  }

  lemma BottomFacePlanar()
    ensures FacePlanar(4)
  {
    assert (set k | k in CubeFace(4)) == {0, 1, 4, 5};
  }

  lemma TopFacePlanar()
    ensures FacePlanar(5)
  {
    assert (set k | k in CubeFace(5)) == {2, 3, 6, 7};
  }

  // -------------------------------------------------------------- square

  const SquareVertices: seq<Vertex> := [
    V( 0.5,  0.5, 0.0, 0.0, 0.0, 1.0),
    V( 0.5, -0.5, 0.0, 0.0, 0.0, 1.0),
    V(-0.5, -0.5, 0.0, 0.0, 0.0, 1.0),
    V(-0.5,  0.5, 0.0, 0.0, 0.0, 1.0)
  ]

  const SquareIndices: seq<nat> := [0, 1, 3,  1, 2, 3]

  /** 4 vertices in the plane z = 0 and two triangles over them; every index
      names a vertex, every vertex is used, and the triangles share exactly
      the diagonal from vertex 1 to vertex 3. */
  lemma SquareTables()
    ensures |SquareVertices| == 4 && |SquareIndices| == 6
    ensures forall i :: 0 <= i < |SquareVertices| ==> SquareVertices[i].position.z == 0.0
    ensures forall k :: k in SquareIndices ==> k < |SquareVertices|
    ensures forall v :: 0 <= v < |SquareVertices| ==> v in SquareIndices
    ensures (set k | k in SquareIndices[..3]) * (set k | k in SquareIndices[3..]) == {1, 3}
  {
    assert SquareIndices[..3] == [0, 1, 3] && SquareIndices[3..] == [1, 2, 3];
    assert (set k | k in SquareIndices[..3]) == {0, 1, 3};
    assert (set k | k in SquareIndices[3..]) == {1, 2, 3};
  }

  // ---------------------------------------------------------------- axis

  /** Three line segments from the origin, one along each axis, each drawn in
      that axis' unit colour; the mesh has no index list. */
  function AxisVertices(length: real): seq<Vertex>
  {
    [ V(0.0, 0.0, 0.0, 1.0, 0.0, 0.0), V(length, 0.0, 0.0, 1.0, 0.0, 0.0),
      V(0.0, 0.0, 0.0, 0.0, 1.0, 0.0), V(0.0, length, 0.0, 0.0, 1.0, 0.0),
      V(0.0, 0.0, 0.0, 0.0, 0.0, 1.0), V(0.0, 0.0, length, 0.0, 0.0, 1.0) ]
  }

  function AxisPair(a: Axis): nat
  {
    match a
    case X => 0
    case Y => 1
    case Z => 2
  }

  /** Pair `AxisPair(a)` runs from the origin to `length` along `a`, and both
      of its vertices carry the unit vector of `a` as colour. */
  lemma AxisSegments(length: real, a: Axis)
    ensures |AxisVertices(length)| == 6
    ensures AxisVertices(length)[2 * AxisPair(a)].position == Zero
    ensures AxisVertices(length)[2 * AxisPair(a) + 1].position == WithComponent(Zero, a, length)
    ensures AxisVertices(length)[2 * AxisPair(a)].normal == WithComponent(Zero, a, 1.0)
    ensures AxisVertices(length)[2 * AxisPair(a) + 1].normal == WithComponent(Zero, a, 1.0)
  {
  }

  // -------------------------------------------------------------- sphere

  /** A parameter raised to its least allowed value. */
  function AtLeast(value: int, least: nat): (r: nat)
    ensures least <= r
    ensures value >= least ==> r == value
    ensures value < least ==> r == least
  {
    if value < least then least else value
  }

  /** Row `i` of the vertex grid, its first `count` columns. */
  function GridRow(i: nat, count: nat, at: (nat, nat) -> Vertex): seq<Vertex>
  {
    if count == 0 then [] else GridRow(i, count - 1, at) + [at(i, count - 1)]
  }

  /** The first `rows` rows of a grid `columns` wide, row after row. */
  function Grid(rows: nat, columns: nat, at: (nat, nat) -> Vertex): seq<Vertex>
  {
    if rows == 0 then [] else Grid(rows - 1, columns, at) + GridRow(rows - 1, columns, at)
  }

  lemma {:induction false} GridRowLayout(i: nat, count: nat, at: (nat, nat) -> Vertex)
    ensures |GridRow(i, count, at)| == count
    ensures forall j :: 0 <= j < count ==> GridRow(i, count, at)[j] == at(i, j)
  {
    if count > 0 {
      GridRowLayout(i, count - 1, at);
    }
  }

  lemma {:induction false} GridSize(rows: nat, columns: nat, at: (nat, nat) -> Vertex)
    ensures |Grid(rows, columns, at)| == rows * columns
  {
    if rows > 0 {
      GridSize(rows - 1, columns, at);
      GridRowLayout(rows - 1, columns, at);
      assert rows * columns == (rows - 1) * columns + columns;
    }
  }

  /** The vertex at grid position (i, j) sits at position i·columns + j. */
  lemma {:induction false} GridAt(rows: nat, columns: nat, at: (nat, nat) -> Vertex, i: nat, j: nat)
    requires i < rows && j < columns
    ensures i * columns + j < rows * columns == |Grid(rows, columns, at)|
    ensures Grid(rows, columns, at)[i * columns + j] == at(i, j)
  {
    GridSize(rows, columns, at);
    GridSize(rows - 1, columns, at);
    var before := (rows - 1) * columns;
    assert rows * columns == before + columns;
    if i < rows - 1 {
      GridAt(rows - 1, columns, at, i, j);
    } else {
      GridRowLayout(i, columns, at);
      assert i * columns + j == before + j;
    }
  }

  lemma MulMonotone(a: nat, b: nat, c: nat)
    requires a <= b
    ensures a * c <= b * c
  {
  }

  /** Computes the sphere's vertices, latitude row by latitude row, each row
      from longitude 0 to `longitudes` inclusive. */
  method SphereVertices(latitudes: nat, longitudes: nat, at: (nat, nat) -> Vertex)
    returns (vertices: seq<Vertex>)
    ensures vertices == Grid(latitudes + 1, longitudes + 1, at)
  {
    vertices := [];
    for i := 0 to latitudes + 1
      invariant vertices == Grid(i, longitudes + 1, at)
    {
      for j := 0 to longitudes + 1
        invariant vertices == Grid(i, longitudes + 1, at) + GridRow(i, j, at)
      {
        vertices := vertices + [at(i, j)];
      }
    }
  }

  /** The triangles of one segment, k1 being the segment's top-left vertex
      and k2 the vertex below it: the first row emits only the lower-right
      triangle and the last row only the upper-left one. */
  function Segment(i: nat, k1: nat, k2: nat, latitudes: nat): seq<nat>
  {
    (if i != 0 then [k1, k2, k1 + 1] else []) + (if i != latitudes - 1 then [k1 + 1, k2, k2 + 1] else [])
  }

  /** The first `count` segments of row `i`. */
  function RowIndices(i: nat, count: nat, latitudes: nat, longitudes: nat): seq<nat>
  {
    if count == 0 then []
    else
      var k1 := i * (longitudes + 1) + count - 1;
      RowIndices(i, count - 1, latitudes, longitudes) + Segment(i, k1, k1 + longitudes + 1, latitudes)
  }

  /** The indices of the first `rows` rows. */
  function SphereIndexRows(rows: nat, latitudes: nat, longitudes: nat): seq<nat>
  {
    if rows == 0 then []
    else SphereIndexRows(rows - 1, latitudes, longitudes) + RowIndices(rows - 1, longitudes, latitudes, longitudes)
  }

  /** The sphere's index list: row by row, segment by segment. */
  function SphereIndexList(latitudes: nat, longitudes: nat): seq<nat>
  {
    SphereIndexRows(latitudes, latitudes, longitudes)
  }

  /** Computes the index list with the source's nested loops, k1 and k2
      advancing together along the row. */
  method SphereIndices(latitudes: nat, longitudes: nat) returns (indices: seq<nat>)
    ensures indices == SphereIndexList(latitudes, longitudes)
  {
    indices := [];
    for i := 0 to latitudes
      invariant indices == SphereIndexRows(i, latitudes, longitudes)
    {
      var k1: nat := i * (longitudes + 1);
      var k2: nat := k1 + longitudes + 1;
      for j := 0 to longitudes
        invariant k1 == i * (longitudes + 1) + j && k2 == k1 + longitudes + 1
        invariant indices == SphereIndexRows(i, latitudes, longitudes) + RowIndices(i, j, latitudes, longitudes)
      {
        if i != 0 {
          indices := indices + [k1, k2, k1 + 1];
        }
        if i != latitudes - 1 {
          indices := indices + [k1 + 1, k2, k2 + 1];
        }
        k1 := k1 + 1;
        k2 := k2 + 1;
      }
    }
  }

  /** How many indices each segment of row `i` emits. */
  function SegmentSize(i: nat, latitudes: nat): nat
  {
    (if i != 0 then 3 else 0) + (if i != latitudes - 1 then 3 else 0)
  }

  lemma {:induction false} RowIndicesCount(i: nat, count: nat, latitudes: nat, longitudes: nat)
    ensures |RowIndices(i, count, latitudes, longitudes)| == count * SegmentSize(i, latitudes)
  {
    if count > 0 {
      RowIndicesCount(i, count - 1, latitudes, longitudes);
      Distribute(SegmentSize(i, latitudes), count - 1, 1);
    }
  }

  /** Row `i` only names vertices of rows `i` and `i + 1`. */
  lemma {:induction false} RowIndicesBound(i: nat, count: nat, latitudes: nat, longitudes: nat)
    requires count <= longitudes
    ensures forall k :: k in RowIndices(i, count, latitudes, longitudes) ==> k < (i + 2) * (longitudes + 1)
  {
    if count > 0 {
      RowIndicesBound(i, count - 1, latitudes, longitudes);
      var k1 := i * (longitudes + 1) + count - 1;
      assert (i + 2) * (longitudes + 1) == i * (longitudes + 1) + 2 * (longitudes + 1);
      assert k1 + longitudes + 1 + 1 < (i + 2) * (longitudes + 1);
    }
  }

  /** Indices per longitude in the first `rows` rows. */
  function RowsSize(rows: nat, latitudes: nat): nat
  {
    if rows == 0 then 0 else RowsSize(rows - 1, latitudes) + SegmentSize(rows - 1, latitudes)
  }

  /** Per longitude: 3 for the first row, 6 for each further row, and 3
      fewer once the last row is included. */
  lemma {:induction false} RowsSizeClosed(rows: nat, latitudes: nat)
    requires 1 <= latitudes && rows <= latitudes
    ensures RowsSize(rows, latitudes) == if rows == 0 then 0 else if rows < latitudes then 6 * rows - 3 else 6 * latitudes - 6
  {
    if rows > 0 {
      RowsSizeClosed(rows - 1, latitudes);
    }
  }

  lemma {:induction false} SphereIndexRowsCount(rows: nat, latitudes: nat, longitudes: nat)
    ensures |SphereIndexRows(rows, latitudes, longitudes)| == longitudes * RowsSize(rows, latitudes)
  {
    if rows > 0 {
      SphereIndexRowsCount(rows - 1, latitudes, longitudes);
      RowIndicesCount(rows - 1, longitudes, latitudes, longitudes);
      Distribute(longitudes, RowsSize(rows - 1, latitudes), SegmentSize(rows - 1, latitudes));
    }
  }

  lemma Distribute(x: nat, b: nat, c: nat)
    ensures x * (b + c) == x * b + x * c
  {
  }

  lemma {:induction false} SphereIndexRowsBound(rows: nat, latitudes: nat, longitudes: nat)
    ensures forall k :: k in SphereIndexRows(rows, latitudes, longitudes) ==> k < (rows + 1) * (longitudes + 1)
  {
    if rows > 0 {
      SphereIndexRowsBound(rows - 1, latitudes, longitudes);
      RowIndicesBound(rows - 1, longitudes, latitudes, longitudes);
      MulMonotone(rows, rows + 1, longitudes + 1);
    }
  }

  /** The sphere's index list holds 6·longitudes·(latitudes − 1) indices, a
      whole number of triangles, and every index names one of the
      (latitudes + 1)·(longitudes + 1) vertices. */
  lemma SphereIndexListShape(latitudes: nat, longitudes: nat)
    requires 1 <= latitudes
    ensures |SphereIndexList(latitudes, longitudes)| == 6 * longitudes * (latitudes - 1)
    ensures |SphereIndexList(latitudes, longitudes)| % 3 == 0
    ensures forall k :: k in SphereIndexList(latitudes, longitudes) ==> k < (latitudes + 1) * (longitudes + 1)
  {
    SphereIndexRowsCount(latitudes, latitudes, longitudes);
    RowsSizeClosed(latitudes, latitudes);
    SphereIndexRowsBound(latitudes, latitudes, longitudes);
    assert longitudes * (6 * latitudes - 6) == 3 * (2 * longitudes * (latitudes - 1));
  }

  /** The sphere mesh for the requested resolution: at least 3 longitudes and
      2 latitudes, the full vertex grid and its index list. */
  method SphereMesh(longitudes: int, latitudes: int, at: (nat, nat) -> Vertex)
    returns (vertices: seq<Vertex>, indices: seq<nat>)
    ensures vertices == Grid(AtLeast(latitudes, 2) + 1, AtLeast(longitudes, 3) + 1, at)
    ensures indices == SphereIndexList(AtLeast(latitudes, 2), AtLeast(longitudes, 3))
  {
    var lon := longitudes;
    var lat := latitudes;
    if lon < 3 {
      lon := 3;
    }
    if lat < 2 {
      lat := 2;
    }
    vertices := SphereVertices(lat, lon, at);
    indices := SphereIndices(lat, lon);
  }
}
