/** Mapping landmark pixels into the view's normalized coordinates, and the triangle mesh the
    dynamic face overlay is built from. */
module FaceGeometry {
  import opened ThreeMath

  /** A width and a height: the capture resolution, or an attached object's tracked size. */
  datatype Size = Size(width: real, height: real)

  predicate ValidResolution(res: Size)
  {
    res.width > 0.0 && res.height > 0.0
  }

  /** Depth offset that keeps the overlay in front of the camera. */
  const ForwardOffset: real := 5.0

  /** `((dimension - coordinate) / dimension) * 2 - 1`: flips the pixel axis and maps
      [0, dimension] onto [1, -1]. */
  function Ndc(dimension: real, coordinate: real): real
    requires dimension != 0.0
  {
    ((dimension - coordinate) / dimension) * 2.0 - 1.0
  }

  /** The pixel coordinate whose normalized image is `n`. */
  function PixelOf(dimension: real, n: real): real
  {
    dimension * (1.0 - n) / 2.0
  }

  /** Ndc is a bijection with inverse PixelOf. */
  lemma NdcRoundTrip(dimension: real, coordinate: real, n: real)
    requires dimension != 0.0
    ensures PixelOf(dimension, Ndc(dimension, coordinate)) == coordinate
    ensures Ndc(dimension, PixelOf(dimension, n)) == n
  {
    var q := (dimension - coordinate) / dimension;
    assert q * dimension == dimension - coordinate;
    assert PixelOf(dimension, Ndc(dimension, coordinate)) == dimension * (2.0 - 2.0 * q) / 2.0;
    var p := PixelOf(dimension, n);
    assert dimension - p == ((1.0 + n) / 2.0) * dimension;
    DivideProduct((1.0 + n) / 2.0, dimension);
  }

  /** The left and right (top and bottom) image edges go to 1 and -1, and a coordinate lies
      inside the image exactly when its normalized value lies in [-1, 1]. */
  lemma NdcRange(dimension: real, coordinate: real)
    requires dimension > 0.0
    ensures Ndc(dimension, 0.0) == 1.0 && Ndc(dimension, dimension) == -1.0
    ensures -1.0 <= Ndc(dimension, coordinate) <= 1.0 <==> 0.0 <= coordinate <= dimension
  {
    var q := (dimension - coordinate) / dimension;
    assert q * dimension == dimension - coordinate;
    if q < 0.0 { ProductPositive(-q, dimension); }
    if q > 1.0 { ProductPositive(q - 1.0, dimension); }
    if 0.0 < q { ProductPositive(q, dimension); }
    if q < 1.0 { ProductPositive(1.0 - q, dimension); }
  }

  /** A landmark's place in view space: normalized x and y, depth scaled by the height and
      pushed forward by 5. */
  function Vertex(res: Size, p: Point3): Point3
    requires ValidResolution(res)
  {
    Point3(Ndc(res.width, p.x), Ndc(res.height, p.y), -p.z / res.height + ForwardOffset)
  }

  /** One entry of a region's triangle table: three landmark indices. */
  datatype Triangle = Triangle(i0: nat, i1: nat, i2: nat)

  predicate Fits(part: seq<Triangle>, n: nat)
  {
    forall i :: 0 <= i < |part| ==> part[i].i0 < n && part[i].i1 < n && part[i].i2 < n
  }

  /** A triangle of the mesh, by vertex index. */
  datatype Face3 = Face3(a: int, b: int, c: int)

  /** Vertex positions, faces, and per face the texture coordinates of its three corners. */
  datatype Geometry = Geometry(vertices: seq<Point3>, faces: seq<Face3>, faceVertexUvs: seq<seq<Point2>>)

  const EmptyGeometry := Geometry([], [], [])

  /** One pass of the triangle loop: three vertices, the face over them (numbered from
      vCnt, the vertex count so far), and the triangle's corner texture coordinates. */
  function AddTriangle(res: Size, coord: seq<Point2>, scaledMesh: seq<Point3>, g: Geometry, e: Triangle): Geometry
    requires ValidResolution(res)
    requires e.i0 < |scaledMesh| && e.i1 < |scaledMesh| && e.i2 < |scaledMesh|
    requires e.i0 < |coord| && e.i1 < |coord| && e.i2 < |coord|
  {
    var vCnt := |g.vertices|;
    Geometry(
      g.vertices + [Vertex(res, scaledMesh[e.i0]), Vertex(res, scaledMesh[e.i1]), Vertex(res, scaledMesh[e.i2])],
      g.faces + [Face3(vCnt, vCnt + 1, vCnt + 2)],
      g.faceVertexUvs + [[coord[e.i0], coord[e.i1], coord[e.i2]]])
  }

  /** The geometry built from a region's triangles, in order. */
  function FaceMeshGeometry(res: Size, coord: seq<Point2>, scaledMesh: seq<Point3>, part: seq<Triangle>): Geometry
    requires ValidResolution(res)
    requires Fits(part, |scaledMesh|) && Fits(part, |coord|)
  {
    if part == [] then EmptyGeometry
    else
      AddTriangle(res, coord, scaledMesh,
                  FaceMeshGeometry(res, coord, scaledMesh, part[..|part| - 1]), part[|part| - 1])
  }

  /** n triangles give 3n vertices and n faces; face i is (3i, 3i+1, 3i+2); vertex 3i+k is the
      view-space image of corner k of triangle i; the texture coordinates of face i are those
      of its three landmarks. */
  ghost predicate HasShape(g: Geometry, res: Size, coord: seq<Point2>, scaledMesh: seq<Point3>, part: seq<Triangle>)
    requires ValidResolution(res)
    requires Fits(part, |scaledMesh|) && Fits(part, |coord|)
  {
    |g.vertices| == 3 * |part| && |g.faces| == |part| && |g.faceVertexUvs| == |part| &&
    (forall i :: 0 <= i < |part| ==> g.faces[i] == Face3(3 * i, 3 * i + 1, 3 * i + 2)) &&
    (forall i :: 0 <= i < |part| ==>
       g.vertices[3 * i] == Vertex(res, scaledMesh[part[i].i0]) &&
       g.vertices[3 * i + 1] == Vertex(res, scaledMesh[part[i].i1]) &&
       g.vertices[3 * i + 2] == Vertex(res, scaledMesh[part[i].i2])) &&
    (forall i :: 0 <= i < |part| ==>
       g.faceVertexUvs[i] == [coord[part[i].i0], coord[part[i].i1], coord[part[i].i2]])
  }

  /** One pass of the loop extends the shape by the last triangle. */
  lemma AddTriangleShape(g: Geometry, res: Size, coord: seq<Point2>, scaledMesh: seq<Point3>, part: seq<Triangle>)
    requires ValidResolution(res)
    requires part != [] && Fits(part, |scaledMesh|) && Fits(part, |coord|)
    requires HasShape(g, res, coord, scaledMesh, part[..|part| - 1])
    ensures HasShape(AddTriangle(res, coord, scaledMesh, g, part[|part| - 1]), res, coord, scaledMesh, part)
  {
    var init := part[..|part| - 1];
    assert forall i :: 0 <= i < |init| ==> init[i] == part[i];
  }

  lemma {:induction false} FaceMeshGeometryShape(res: Size, coord: seq<Point2>, scaledMesh: seq<Point3>, part: seq<Triangle>)
    requires ValidResolution(res)
    requires Fits(part, |scaledMesh|) && Fits(part, |coord|)
    ensures HasShape(FaceMeshGeometry(res, coord, scaledMesh, part), res, coord, scaledMesh, part)
  {
    if part != [] {
      var init := part[..|part| - 1];
      assert forall i :: 0 <= i < |init| ==> init[i] == part[i];
      FaceMeshGeometryShape(res, coord, scaledMesh, init);
      AddTriangleShape(FaceMeshGeometry(res, coord, scaledMesh, init), res, coord, scaledMesh, part);
    }
  }

  /** Corner k of a triangle: i0, i1, then i2. */
  function Corner(e: Triangle, k: nat): nat
  {
    if k == 0 then e.i0 else if k == 1 then e.i1 else e.i2
  }

  /** Vertex j of the closed form: the view-space image of corner j % 3 of triangle j / 3. */
  function CornerVertex(res: Size, scaledMesh: seq<Point3>, part: seq<Triangle>, j: nat): Point3
    requires ValidResolution(res) && Fits(part, |scaledMesh|) && j < 3 * |part|
  {
    Vertex(res, scaledMesh[Corner(part[j / 3], j % 3)])
  }

  /** The same geometry in closed form: vertex j is corner j % 3 of triangle j / 3, face i is
      (3i, 3i+1, 3i+2), and the texture coordinates of face i are those of triangle i's
      corners. */
  function GeometryOf(res: Size, coord: seq<Point2>, scaledMesh: seq<Point3>, part: seq<Triangle>): Geometry
    requires ValidResolution(res)
    requires Fits(part, |scaledMesh|) && Fits(part, |coord|)
  {
    Geometry(
      seq(3 * |part|, j requires 0 <= j < 3 * |part| => CornerVertex(res, scaledMesh, part, j)),
      seq(|part|, i requires 0 <= i < |part| => Face3(3 * i, 3 * i + 1, 3 * i + 2)),
      seq(|part|, i requires 0 <= i < |part| => [coord[part[i].i0], coord[part[i].i1], coord[part[i].i2]]))
  }

  lemma CornerVertexAt(res: Size, scaledMesh: seq<Point3>, part: seq<Triangle>, i: nat, k: nat)
    requires ValidResolution(res) && Fits(part, |scaledMesh|) && i < |part| && k < 3
    ensures CornerVertex(res, scaledMesh, part, 3 * i + k) == Vertex(res, scaledMesh[Corner(part[i], k)])
  {
    assert (3 * i + k) / 3 == i && (3 * i + k) % 3 == k;
  }

  /** The shape facts determine the geometry: it is the closed form. */
  lemma ShapeIsClosedForm(g: Geometry, res: Size, coord: seq<Point2>, scaledMesh: seq<Point3>, part: seq<Triangle>)
    requires ValidResolution(res)
    requires Fits(part, |scaledMesh|) && Fits(part, |coord|)
    requires HasShape(g, res, coord, scaledMesh, part)
    ensures g == GeometryOf(res, coord, scaledMesh, part)
  {
    var c := GeometryOf(res, coord, scaledMesh, part);
    forall j | 0 <= j < 3 * |part|
      ensures g.vertices[j] == c.vertices[j]
    {
      var i, k := j / 3, j % 3;
      assert j == 3 * i + k && i < |part|;
      CornerVertexAt(res, scaledMesh, part, i, k);
    }
    assert g.vertices == c.vertices;
  }

  /** The triangle loop builds exactly the closed-form geometry. */
  lemma FaceMeshGeometryClosedForm(res: Size, coord: seq<Point2>, scaledMesh: seq<Point3>, part: seq<Triangle>)
    requires ValidResolution(res)
    requires Fits(part, |scaledMesh|) && Fits(part, |coord|)
    ensures FaceMeshGeometry(res, coord, scaledMesh, part) == GeometryOf(res, coord, scaledMesh, part)
  {
    FaceMeshGeometryShape(res, coord, scaledMesh, part);
    ShapeIsClosedForm(FaceMeshGeometry(res, coord, scaledMesh, part), res, coord, scaledMesh, part);
  }

  /** One triangle [0, 1, 2] at 960 x 720 gives three vertices whose x is
      ((960 - x) / 960) * 2 - 1 of the listed landmarks. */
  lemma SingleTriangleExample(coord: seq<Point2>, scaledMesh: seq<Point3>)
    requires |scaledMesh| >= 3 && |coord| >= 3
    ensures var g := FaceMeshGeometry(Size(960.0, 720.0), coord, scaledMesh, [Triangle(0, 1, 2)]);
            |g.vertices| == 3 && g.faces == [Face3(0, 1, 2)] &&
            forall k :: 0 <= k < 3 ==> g.vertices[k].x == ((960.0 - scaledMesh[k].x) / 960.0) * 2.0 - 1.0
  {
    var part := [Triangle(0, 1, 2)];
    assert part[..0] == [];
  }
}
