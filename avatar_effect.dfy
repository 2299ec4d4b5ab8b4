/** The avatar rig: per frame it picks the most confident face, then either rigs the attached
    glTF objects to it (rotation, scale, position) or rebuilds the dynamic face mesh from it.
    Scene membership, the meshes it owns and the per-object arrays are the state; drawing is
    left to the renderer and not modelled. */
module Avatar {
  import opened ThreeMath
  import opened RotationLog
  import opened FrameSelection
  import opened FaceGeometry
  import opened Pose

  /** An attached glTF scene as the rig sees it: its position, its scale, and the world-axis
      rotations the rig has given it since it was attached, in order. */
  datatype SceneObject = SceneObject(position: Point3, scale: Point3, rotations: seq<AxisRotation>)

  /** An axis-aligned bounding box. */
  datatype Box3 = Box3(min: Point3, max: Point3)

  predicate IsEmpty(box: Box3)
  {
    box.max.x < box.min.x || box.max.y < box.min.y || box.max.z < box.min.z
  }

  /** The box's extent, and 0 for an empty box. */
  function BoxSize(box: Box3): Point3
  {
    if IsEmpty(box) then Point3(0.0, 0.0, 0.0)
    else Point3(box.max.x - box.min.x, box.max.y - box.min.y, box.max.z - box.min.z)
  }

  /** The point at fraction r of the way from lo to hi. */
  function Along(lo: real, hi: real, r: real): real
  {
    lo + r * (hi - lo)
  }

  /** The point at fraction `ratio` of the box along each axis. */
  function BindingTarget(box: Box3, ratio: Point3): Point3
  {
    Point3(Along(box.min.x, box.max.x, ratio.x),
           Along(box.min.y, box.max.y, ratio.y),
           Along(box.min.z, box.max.z, ratio.z))
  }

  /** Along one axis: a fraction r in [0, 1] of the extent from lo lands in [lo, hi], at lo for
      r = 0 and at hi for r = 1. */
  lemma AxisTargetInRange(lo: real, hi: real, r: real)
    requires lo <= hi && 0.0 <= r <= 1.0
    ensures lo <= Along(lo, hi, r) <= hi
    ensures r == 0.0 ==> Along(lo, hi, r) == lo
    ensures r == 1.0 ==> Along(lo, hi, r) == hi
  {
    var d := hi - lo;
    ProductMonotone(0.0, r, d);
    ProductMonotone(r, 1.0, d);
    var p := r * d;
    assert 0.0 <= p <= d;
    assert Along(lo, hi, r) == lo + p;
  }

  /** A binding ratio in the unit cube picks a point of the box; the corners 0 and 1 pick
      min and max. */
  lemma BindingTargetInBox(box: Box3, ratio: Point3)
    requires !IsEmpty(box)
    requires 0.0 <= ratio.x <= 1.0 && 0.0 <= ratio.y <= 1.0 && 0.0 <= ratio.z <= 1.0
    ensures var t := BindingTarget(box, ratio);
            box.min.x <= t.x <= box.max.x && box.min.y <= t.y <= box.max.y && box.min.z <= t.z <= box.max.z
    ensures ratio == Point3(0.0, 0.0, 0.0) ==> BindingTarget(box, ratio) == box.min
    ensures ratio == Point3(1.0, 1.0, 1.0) ==> BindingTarget(box, ratio) == box.max
  {
    AxisTargetInRange(box.min.x, box.max.x, ratio.x);
    AxisTargetInRange(box.min.y, box.max.y, ratio.y);
    AxisTargetInRange(box.min.z, box.max.z, ratio.z);
  }

  /** The size setGltfFacemeshResolution records: half the box extent, times the resolution. */
  function InitialSize(box: Box3, res: Size): Size
  {
    Size((BoxSize(box).x / 2.0) * res.width, (BoxSize(box).y / 2.0) * res.height)
  }

  /** A box with some width and height gives a positive tracked size, which is what the scale
      step divides by. */
  lemma InitialSizePositive(box: Box3, res: Size)
    requires ValidResolution(res)
    requires !IsEmpty(box) && box.min.x < box.max.x && box.min.y < box.max.y
    ensures InitialSize(box, res).width > 0.0 && InitialSize(box, res).height > 0.0
  {
    ProductPositive(BoxSize(box).x / 2.0, res.width);
    ProductPositive(BoxSize(box).y / 2.0, res.height);
  }

  function Rotated(o: SceneObject, r: AxisRotation): SceneObject
  {
    o.(rotations := o.rotations + [r])
  }

  function ScaleVector(v: Point3, s: real): Point3
  {
    Point3(s * v.x, s * v.y, s * v.z)
  }

  /** Every object rotated by r. */
  function RotateAll(objs: seq<SceneObject>, r: AxisRotation): (res: seq<SceneObject>)
    ensures |res| == |objs|
  {
    seq(|objs|, i requires 0 <= i < |objs| => Rotated(objs[i], r))
  }

  /** The factor each object is scaled by for a face of the given width and height. */
  function Factors(width: real, height: real, ratios: seq<Point2>, sizes: seq<Size>): (fs: seq<real>)
    requires |ratios| == |sizes|
    requires forall i :: 0 <= i < |sizes| ==> sizes[i].width != 0.0 && sizes[i].height != 0.0
    ensures |fs| == |sizes|
  {
    seq(|sizes|, i requires 0 <= i < |sizes| => ScaleParm(width, height, ratios[i], sizes[i]))
  }

  function RescaleAll(sizes: seq<Size>, fs: seq<real>): (res: seq<Size>)
    requires |fs| == |sizes|
    ensures |res| == |sizes|
  {
    seq(|sizes|, i requires 0 <= i < |sizes| => Rescaled(sizes[i], fs[i]))
  }

  function ScaleAll(objs: seq<SceneObject>, fs: seq<real>): (res: seq<SceneObject>)
    requires |fs| == |objs|
    ensures |res| == |objs|
  {
    seq(|objs|, i requires 0 <= i < |objs| => objs[i].(scale := ScaleVector(objs[i].scale, fs[i])))
  }

  /** Every object's rotation log extended by the calls w. */
  function RotateBy(objs: seq<SceneObject>, w: seq<AxisRotation>): (res: seq<SceneObject>)
    ensures |res| == |objs|
  {
    seq(|objs|, i requires 0 <= i < |objs| => objs[i].(rotations := objs[i].rotations + w))
  }

  lemma RotateByNothing(objs: seq<SceneObject>)
    ensures RotateBy(objs, []) == objs
  {
    forall i | 0 <= i < |objs|
      ensures RotateBy(objs, [])[i] == objs[i]
    {
      assert objs[i].rotations + [] == objs[i].rotations;
    }
  }

  /** One more rotation of every object extends every log by that call. */
  lemma RotateAllExtends(objs: seq<SceneObject>, w: seq<AxisRotation>, r: AxisRotation)
    ensures RotateAll(RotateBy(objs, w), r) == RotateBy(objs, w + [r])
  {
    forall i | 0 <= i < |objs|
      ensures RotateAll(RotateBy(objs, w), r)[i] == RotateBy(objs, w + [r])[i]
    {
      assert objs[i].rotations + w + [r] == objs[i].rotations + (w + [r]);
    }
  }

  /** The rotation and scale steps of an accepted frame in their source order: undo r0 about
      Z, Y, X; scale by fs; apply r1 about X, Y, Z. */
  function Rig(objs: seq<SceneObject>, r0: Angles, r1: Angles, fs: seq<real>): (res: seq<SceneObject>)
    requires |fs| == |objs|
    ensures |res| == |objs|
  {
    RotateBy(ScaleAll(RotateBy(objs, Undo(r0)), fs), Apply(r1))
  }

  /** Per object, a rigged frame appends exactly Undo(r0) then Apply(r1) to the rotation log,
      multiplies the scale by the object's factor and keeps the position. */
  lemma RigEffect(objs: seq<SceneObject>, r0: Angles, r1: Angles, fs: seq<real>, i: nat)
    requires |fs| == |objs| && i < |objs|
    ensures Rig(objs, r0, r1, fs)[i].rotations == objs[i].rotations + Undo(r0) + Apply(r1)
    ensures Rig(objs, r0, r1, fs)[i].scale == ScaleVector(objs[i].scale, fs[i])
    ensures Rig(objs, r0, r1, fs)[i].position == objs[i].position
  {
  }

  /** Where setGltfPosition puts an object: the landmark's normalized x and y, less the offset
      from the object's position to its binding point in world space; z is kept. */
  function BoundPosition(o: SceneObject, bindingPoint: Point3, landmark: Point3, res: Size,
                         localToWorld: (SceneObject, Point3) -> Point3): Point3
    requires ValidResolution(res)
  {
    var world := localToWorld(o, bindingPoint);
    Point3(Ndc(res.width, landmark.x) - (world.x - o.position.x),
           Ndc(res.height, landmark.y) - (world.y - o.position.y),
           o.position.z)
  }

  /** Every object placed at its BoundPosition. */
  function PlaceAll(objs: seq<SceneObject>, bindingPoint: seq<Point3>, landmarks: seq<nat>, scaledMesh: seq<Point3>,
                    res: Size, localToWorld: (SceneObject, Point3) -> Point3): (placed: seq<SceneObject>)
    requires ValidResolution(res)
    requires |bindingPoint| == |objs| && |landmarks| == |objs|
    requires forall i :: 0 <= i < |landmarks| ==> landmarks[i] < |scaledMesh|
    ensures |placed| == |objs|
  {
    seq(|objs|, i requires 0 <= i < |objs| =>
          objs[i].(position := BoundPosition(objs[i], bindingPoint[i], scaledMesh[landmarks[i]], res, localToWorld)))
  }

  /** Moving the object to p moves the world image of v by the same amount in x and y. This
      holds for a world matrix recomputed from the object's current position, rotation and
      scale. It does not hold for the stale matrix of an earlier render. */
  ghost predicate OffsetIgnoresPosition(localToWorld: (SceneObject, Point3) -> Point3, o: SceneObject, p: Point3, v: Point3)
  {
    var before, after := localToWorld(o, v), localToWorld(o.(position := p), v);
    after.x - p.x == before.x - o.position.x && after.y - p.y == before.y - o.position.y
  }

  /** After placement the binding point lies exactly on the landmark's normalized x and y,
      for a transform whose offset does not depend on the position. A matrix refreshed after
      this frame's rotate and scale calls is such a transform. */
  lemma BindingPointLandsOnLandmark(o: SceneObject, bindingPoint: Point3, landmark: Point3, res: Size,
                                     localToWorld: (SceneObject, Point3) -> Point3)
    requires ValidResolution(res)
    requires OffsetIgnoresPosition(localToWorld, o, BoundPosition(o, bindingPoint, landmark, res, localToWorld), bindingPoint)
    ensures var placed := o.(position := BoundPosition(o, bindingPoint, landmark, res, localToWorld));
            localToWorld(placed, bindingPoint).x == Ndc(res.width, landmark.x) &&
            localToWorld(placed, bindingPoint).y == Ndc(res.height, landmark.y) &&
            placed.position.z == o.position.z
  {
  }

  /** The triangle tables of the seven face regions. */
  datatype RegionTable = RegionTable(forehead: seq<Triangle>, leftEye: seq<Triangle>, rightEye: seq<Triangle>,
                                     leftCheek: seq<Triangle>, rightCheek: seq<Triangle>,
                                     nose: seq<Triangle>, mouth: seq<Triangle>)

  const RegionCount: nat := 7

  /** Every region's triangles index landmarks below n. */
  predicate TableFits(t: RegionTable, n: nat)
  {
    Fits(t.forehead, n) && Fits(t.leftEye, n) && Fits(t.rightEye, n) && Fits(t.leftCheek, n) &&
    Fits(t.rightCheek, n) && Fits(t.nose, n) && Fits(t.mouth, n)
  }

  /** A face-mesh Mesh: its geometry and whether that geometry's buffers were released. */
  datatype Mesh = Mesh(geometry: Geometry, disposed: bool)

  function DisposedAll(ms: seq<Mesh>): (r: seq<Mesh>)
    ensures |r| == |ms|
  {
    seq(|ms|, k requires 0 <= k < |ms| => ms[k].(disposed := true))
  }

  /** `ms` followed by one fresh mesh per region, appended in the order updateFaceMesh builds
      them. */
  function AppendRegions(ms: seq<Mesh>, res: Size, coord: seq<Point2>, scaledMesh: seq<Point3>, t: RegionTable): seq<Mesh>
    requires ValidResolution(res)
    requires TableFits(t, |scaledMesh|) && TableFits(t, |coord|)
  {
    ms + [Mesh(GeometryOf(res, coord, scaledMesh, t.forehead), false)]
       + [Mesh(GeometryOf(res, coord, scaledMesh, t.leftEye), false)]
       + [Mesh(GeometryOf(res, coord, scaledMesh, t.rightEye), false)]
       + [Mesh(GeometryOf(res, coord, scaledMesh, t.leftCheek), false)]
       + [Mesh(GeometryOf(res, coord, scaledMesh, t.rightCheek), false)]
       + [Mesh(GeometryOf(res, coord, scaledMesh, t.nose), false)]
       + [Mesh(GeometryOf(res, coord, scaledMesh, t.mouth), false)]
  }

  /** Seven new meshes follow the old ones, which are kept in place; each new mesh is a
      not-yet-disposed geometry of its region, the regions in source order. */
  lemma AppendRegionsShape(ms: seq<Mesh>, res: Size, coord: seq<Point2>, scaledMesh: seq<Point3>, t: RegionTable)
    requires ValidResolution(res)
    requires TableFits(t, |scaledMesh|) && TableFits(t, |coord|)
    ensures var r := AppendRegions(ms, res, coord, scaledMesh, t);
            |r| == |ms| + RegionCount && r[..|ms|] == ms &&
            r[|ms|..] == [Mesh(GeometryOf(res, coord, scaledMesh, t.forehead), false),
                          Mesh(GeometryOf(res, coord, scaledMesh, t.leftEye), false),
                          Mesh(GeometryOf(res, coord, scaledMesh, t.rightEye), false),
                          Mesh(GeometryOf(res, coord, scaledMesh, t.leftCheek), false),
                          Mesh(GeometryOf(res, coord, scaledMesh, t.rightCheek), false),
                          Mesh(GeometryOf(res, coord, scaledMesh, t.nose), false),
                          Mesh(GeometryOf(res, coord, scaledMesh, t.mouth), false)]
  {
  }

  class AvatarEffect {
    /** Capture resolution of the landmark pixels. */
    const facemeshResolution: Size
    /** The imported triangle tables and per-landmark texture coordinates. */
    const facemesh: RegionTable
    const coord: seq<Point2>

    /** scene.visible */
    var visible: bool
    /** Every face-mesh Mesh ever built, in order. */
    var meshes: seq<Mesh>
    /** Indices into meshes of those the scene currently holds. */
    var inScene: set<nat>
    /** The angles applied in the last accepted frame. */
    var lastRotation: Angles
    /** The attached objects and, index by index, their binding point in object space, tracked
        size, landmark index and ideal ratio to the face. */
    var objects: seq<SceneObject>
    var bindingPoint: seq<Point3>
    var currentSize: seq<Size>
    var facemeshBindingPointIndex: seq<nat>
    var objectIdealRatioWithFacemesh: seq<Point2>

    ghost predicate Valid()
      reads this
    {
      ValidResolution(facemeshResolution) &&
      |bindingPoint| == |objects| && |currentSize| == |objects| &&
      |facemeshBindingPointIndex| == |objects| && |objectIdealRatioWithFacemesh| == |objects| &&
      (forall k :: k in inScene ==> k < |meshes|)
    }

    /** Every attached object's rotation log is equivalent to applying lastRotation once. */
    ghost predicate DriftFree()
      reads this
    {
      forall i :: 0 <= i < |objects| ==> Reduce(objects[i].rotations) == Reduce(Apply(lastRotation))
    }

    /** Every tracked size can be divided by. */
    predicate SizesNonZero()
      reads this
    {
      forall i :: 0 <= i < |currentSize| ==> currentSize[i].width != 0.0 && currentSize[i].height != 0.0
    }

    constructor (facemeshResolution: Size, facemesh: RegionTable, coord: seq<Point2>)
      requires ValidResolution(facemeshResolution)
      ensures Valid() && DriftFree()
      ensures this.facemeshResolution == facemeshResolution && this.facemesh == facemesh && this.coord == coord
      ensures visible && meshes == [] && inScene == {} && lastRotation == NoRotation
      ensures objects == [] && bindingPoint == [] && currentSize == []
      ensures facemeshBindingPointIndex == [] && objectIdealRatioWithFacemesh == []
    {
      this.facemeshResolution := facemeshResolution;
      this.facemesh := facemesh;
      this.coord := coord;
      visible := true;
      meshes := [];
      inScene := {};
      lastRotation := NoRotation;
      objects := [];
      bindingPoint := [];
      currentSize := [];
      facemeshBindingPointIndex := [];
      objectIdealRatioWithFacemesh := [];
    }

    method SetVisibility(parm: bool)
      modifies this`visible
      ensures visible == parm
    {
      visible := parm;
    }

    method HideAvatar()
      modifies this`visible
      ensures !visible
    {
      if visible {
        SetVisibility(false);
      }
    }

    /** The loader callback: places the loaded scene at z = 6 - binding z, appends it with its
        binding point (the box point at the binding ratio, in object space), its initial size,
        its landmark index and its ideal ratio. `box` is the placed scene's world-space
        bounding box and `worldToLocal` its inverse transform. */
    method LoadGltfModel(loadedScale: Point3, box: Box3, worldToLocal: (SceneObject, Point3) -> Point3,
                         facemeshBindingPointIndex: nat, objectBindingPosition: Point3,
                         objectIdealRatioWithFacemesh: Point2)
      requires Valid()
      modifies this`objects, this`bindingPoint, this`currentSize,
               this`facemeshBindingPointIndex, this`objectIdealRatioWithFacemesh
      ensures Valid()
      ensures var placed := SceneObject(Point3(0.0, 0.0, 5.0 + 1.0 - objectBindingPosition.z), loadedScale, []);
              objects == old(objects) + [placed] &&
              bindingPoint == old(bindingPoint) + [worldToLocal(placed, BindingTarget(box, objectBindingPosition))]
      ensures currentSize == old(currentSize) + [InitialSize(box, facemeshResolution)]
      ensures this.facemeshBindingPointIndex == old(this.facemeshBindingPointIndex) + [facemeshBindingPointIndex]
      ensures this.objectIdealRatioWithFacemesh == old(this.objectIdealRatioWithFacemesh) + [objectIdealRatioWithFacemesh]
      ensures old(DriftFree()) && lastRotation == NoRotation ==> DriftFree()
    {
      var scene := SceneObject(Point3(0.0, 0.0, 5.0 + 1.0 - objectBindingPosition.z), loadedScale, []);
      objects := objects + [scene];
      bindingPoint := bindingPoint + [worldToLocal(scene, BindingTarget(box, objectBindingPosition))];
      SetGltfFacemeshResolution(box);
      this.facemeshBindingPointIndex := this.facemeshBindingPointIndex + [facemeshBindingPointIndex];
      this.objectIdealRatioWithFacemesh := this.objectIdealRatioWithFacemesh + [objectIdealRatioWithFacemesh];
      NoRotationIsIdentity();
    }

    /** `box` is the object's world-space bounding box. */
    method SetGltfFacemeshResolution(box: Box3)
      modifies this`currentSize
      ensures currentSize == old(currentSize) + [InitialSize(box, facemeshResolution)]
    {
      var size := facemeshResolution;
      var boxSize := BoxSize(box);
      var recorded := Size((boxSize.x / 2.0) * size.width, (boxSize.y / 2.0) * size.height);
      assert recorded == InitialSize(box, facemeshResolution);
      currentSize := currentSize + [recorded];
    }

    /** Moves every object so that its binding point meets its landmark. `localToWorld` is
        whatever transform the object's world matrix holds when the loop runs. In three.js that
        is the matrix of the last render, so within a frame it does not yet reflect the rotate
        and scale calls made just before. */
    method SetGltfPosition(scaledMesh: seq<Point3>, localToWorld: (SceneObject, Point3) -> Point3)
      requires Valid()
      requires forall i :: 0 <= i < |facemeshBindingPointIndex| ==> facemeshBindingPointIndex[i] < |scaledMesh|
      modifies this`objects
      ensures Valid()
      ensures |objects| == |old(objects)|
      ensures objects == PlaceAll(old(objects), bindingPoint, facemeshBindingPointIndex, scaledMesh,
                                  facemeshResolution, localToWorld)
    {
      ghost var target := PlaceAll(objects, bindingPoint, facemeshBindingPointIndex, scaledMesh,
                                   facemeshResolution, localToWorld);
      var index := 0;
      while index < |bindingPoint|
        invariant index <= |bindingPoint| == |objects| == |old(objects)|
        invariant objects[..index] == target[..index]
        invariant objects[index..] == old(objects)[index..]
      {
        var landmark := scaledMesh[facemeshBindingPointIndex[index]];
        var position := BoundPosition(objects[index], bindingPoint[index], landmark, facemeshResolution, localToWorld);
        assert objects[index] == old(objects)[index..][0];
        objects := objects[index := objects[index].(position := position)];
        index := index + 1;
      }
      assert objects == objects[..index];
    }

    /** Rescales every object and its tracked size by its ScaleParm for a face of the given
        width and height. */
    method SetGltfScale(width: real, height: real)
      requires Valid() && SizesNonZero()
      modifies this`currentSize, this`objects
      ensures Valid()
      ensures currentSize == RescaleAll(old(currentSize), Factors(width, height, objectIdealRatioWithFacemesh, old(currentSize)))
      ensures objects == ScaleAll(old(objects), Factors(width, height, objectIdealRatioWithFacemesh, old(currentSize)))
    {
      ghost var fs := Factors(width, height, objectIdealRatioWithFacemesh, currentSize);
      ghost var sizes, objs := RescaleAll(currentSize, fs), ScaleAll(objects, fs);
      var index := 0;
      while index < |currentSize|
        invariant index <= |currentSize| == |old(currentSize)| == |objects| == |old(objects)|
        invariant currentSize[..index] == sizes[..index] && currentSize[index..] == old(currentSize)[index..]
        invariant objects[..index] == objs[..index] && objects[index..] == old(objects)[index..]
      {
        var size := currentSize[index];
        assert size == old(currentSize)[index..][0];
        assert objects[index] == old(objects)[index..][0];
        var scaleParm := ScaleParm(width, height, objectIdealRatioWithFacemesh[index], size);
        assert fs[index] == scaleParm;
        currentSize := currentSize[index := Size(size.width * scaleParm, size.height * scaleParm)];
        assert currentSize[index] == sizes[index];
        var preScale := objects[index].scale;
        objects := objects[index := objects[index].(scale := ScaleVector(preScale, scaleParm))];
        index := index + 1;
      }
      assert currentSize == currentSize[..index] && objects == objects[..index];
    }

    /** Rotates every object about the named world axis: 'X', 'Y', anything else Z. */
    method SetGltfRotation(radian: real, axis: string)
      modifies this`objects
      ensures objects == RotateAll(old(objects), AxisRotation(AxisOf(axis), radian))
    {
      ghost var target := RotateAll(objects, AxisRotation(AxisOf(axis), radian));
      var index := 0;
      while index < |objects|
        invariant index <= |objects| == |old(objects)|
        invariant objects[..index] == target[..index]
        invariant objects[index..] == old(objects)[index..]
      {
        var r;
        if axis == "X" {
          r := AxisRotation(X, radian);
        } else if axis == "Y" {
          r := AxisRotation(Y, radian);
        } else {
          r := AxisRotation(Z, radian);
        }
        assert objects[index] == old(objects)[index..][0];
        objects := objects[index := Rotated(objects[index], r)];
        index := index + 1;
      }
      assert objects == objects[..index];
    }

    /** The undo step of an accepted frame: last frame's angles negated, about Z, then Y, then
        X. */
    method ResetRotation()
      modifies this`objects
      ensures objects == RotateBy(old(objects), Undo(lastRotation))
    {
      ghost var objs0 := objects;
      var z, y, x := AxisRotation(Z, -lastRotation.z), AxisRotation(Y, -lastRotation.y), AxisRotation(X, -lastRotation.x);
      RotateByNothing(objs0);
      SetGltfRotation(-lastRotation.z, "Z");
      assert AxisOf("Z") == Z by { assert "Z"[0] != "X"[0] && "Z"[0] != "Y"[0]; }
      RotateAllExtends(objs0, [], z);
      assert [] + [z] == [z];
      assert objects == RotateBy(objs0, [z]);
      SetGltfRotation(-lastRotation.y, "Y");
      assert AxisOf("Y") == Y by { assert "Y"[0] != "X"[0]; }
      RotateAllExtends(objs0, [z], y);
      assert [z] + [y] == [z, y];
      assert objects == RotateBy(objs0, [z, y]);
      SetGltfRotation(-lastRotation.x, "X");
      RotateAllExtends(objs0, [z, y], x);
      assert [z, y] + [x] == [z, y, x];
      assert objects == RotateBy(objs0, [z, y, x]);
      assert [z, y] + [x] == Undo(lastRotation);
    }

    /** The apply step of an accepted frame: each angle is estimated and recorded, then applied,
        about X, then Y, then Z. */
    method ApplyRotation(scaledMesh: seq<Point3>, m: Maths)
      requires HasAnchors(scaledMesh)
      modifies this`lastRotation, this`objects
      ensures lastRotation == EstimateRotation(scaledMesh, m)
      ensures objects == RotateBy(old(objects), Apply(lastRotation))
    {
      ghost var objs0 := objects;
      RotateByNothing(objs0);
      lastRotation := lastRotation.(x := Pitch(scaledMesh, m));
      var x := AxisRotation(X, lastRotation.x);
      SetGltfRotation(lastRotation.x, "X");
      RotateAllExtends(objs0, [], x);
      assert [] + [x] == [x];
      lastRotation := lastRotation.(y := Yaw(scaledMesh, m));
      var y := AxisRotation(Y, lastRotation.y);
      SetGltfRotation(lastRotation.y, "Y");
      assert AxisOf("Y") == Y by { assert "Y"[0] != "X"[0]; }
      RotateAllExtends(objs0, [x], y);
      assert [x] + [y] == [x, y];
      lastRotation := lastRotation.(z := Roll(scaledMesh, m));
      var z := AxisRotation(Z, lastRotation.z);
      SetGltfRotation(lastRotation.z, "Z");
      assert AxisOf("Z") == Z by { assert "Z"[0] != "X"[0] && "Z"[0] != "Y"[0]; }
      RotateAllExtends(objs0, [x, y], z);
      assert [x, y] + [z] == Apply(lastRotation);
    }

    /** One frame for the glTF avatar. */
    method UpdateGltfModel(facemeshResult: seq<FaceCandidate>, m: Maths,
                           localToWorld: (SceneObject, Point3) -> Point3)
      requires Valid()
      requires Accepted(facemeshResult) ==>
                 var mesh := Selected(facemeshResult).scaledMesh;
                 HasAnchors(mesh) && SizesNonZero() &&
                 forall i :: 0 <= i < |facemeshBindingPointIndex| ==> facemeshBindingPointIndex[i] < |mesh|
      modifies this`visible, this`lastRotation, this`objects, this`currentSize
      ensures Valid()
      ensures visible == Accepted(facemeshResult)
      ensures !Accepted(facemeshResult) ==>
                lastRotation == old(lastRotation) && objects == old(objects) && currentSize == old(currentSize)
      ensures Accepted(facemeshResult) ==>
                var mesh := Selected(facemeshResult).scaledMesh;
                var fs := Factors(FaceWidth(mesh, m), FaceHeight(mesh, m), objectIdealRatioWithFacemesh, old(currentSize));
                lastRotation == EstimateRotation(mesh, m) &&
                currentSize == RescaleAll(old(currentSize), fs) &&
                objects == PlaceAll(Rig(old(objects), old(lastRotation), lastRotation, fs), bindingPoint,
                                    facemeshBindingPointIndex, mesh, facemeshResolution, localToWorld)
      ensures old(DriftFree()) ==> DriftFree()
    {
      if |facemeshResult| > 0 {
        var maxScoreId, maxScore := SelectFace(facemeshResult);
        if maxScore >= ConfidenceThreshold {
          SetVisibility(true);
          ghost var r0, objects0 := lastRotation, objects;
          ResetRotation();
          var scaledMesh := facemeshResult[maxScoreId].scaledMesh;
          SetGltfScale(FaceWidth(scaledMesh, m), FaceHeight(scaledMesh, m));
          ghost var fs := Factors(FaceWidth(scaledMesh, m), FaceHeight(scaledMesh, m), objectIdealRatioWithFacemesh, old(currentSize));
          ApplyRotation(scaledMesh, m);
          SetGltfPosition(scaledMesh, localToWorld);
          if old(DriftFree()) {
            forall i | 0 <= i < |objects|
              ensures Reduce(objects[i].rotations) == Reduce(Apply(lastRotation))
            {
              RigEffect(objects0, r0, lastRotation, fs, i);
              FrameIsDriftFree(objects0[i].rotations, r0, lastRotation);
            }
          }
        } else {
          SetVisibility(false);
        }
      } else {
        SetVisibility(false);
      }
    }

    /** The triangle loop: three vertices, one face and one set of corner texture coordinates per
        triangle of `part`. */
    method BuildFaceMeshGeometry(scaledMesh: seq<Point3>, part: seq<Triangle>) returns (geom: Geometry)
      requires ValidResolution(facemeshResolution)
      requires Fits(part, |scaledMesh|) && Fits(part, |coord|)
      ensures geom == FaceMeshGeometry(facemeshResolution, coord, scaledMesh, part)
      ensures geom == GeometryOf(facemeshResolution, coord, scaledMesh, part)
    {
      geom := EmptyGeometry;
      var vCnt := 0;
      var index := 0;
      while index < |part|
        invariant index <= |part|
        invariant Fits(part[..index], |scaledMesh|) && Fits(part[..index], |coord|)
        invariant geom == FaceMeshGeometry(facemeshResolution, coord, scaledMesh, part[..index])
        invariant vCnt == |geom.vertices|
      {
        var e := part[index];
        assert part[..index + 1][..index] == part[..index];
        FaceMeshGeometryShape(facemeshResolution, coord, scaledMesh, part[..index]);
        var vectorA := Vertex(facemeshResolution, scaledMesh[e.i0]);
        var vectorB := Vertex(facemeshResolution, scaledMesh[e.i1]);
        var vectorC := Vertex(facemeshResolution, scaledMesh[e.i2]);
        geom := geom.(vertices := geom.vertices + [vectorA, vectorB, vectorC]);
        geom := geom.(faces := geom.faces + [Face3(vCnt + 0, vCnt + 1, vCnt + 2)]);
        geom := geom.(faceVertexUvs := geom.faceVertexUvs + [[coord[e.i0], coord[e.i1], coord[e.i2]]]);
        vCnt := vCnt + 3;
        index := index + 1;
      }
      assert part[..index] == part;
      FaceMeshGeometryClosedForm(facemeshResolution, coord, scaledMesh, part);
    }

    /** Builds a mesh from `part` and adds it to `meshes` and to the scene. */
    method BuildFaceMesh(scaledMesh: seq<Point3>, part: seq<Triangle>)
      requires ValidResolution(facemeshResolution)
      requires Fits(part, |scaledMesh|) && Fits(part, |coord|)
      modifies this`meshes, this`inScene
      ensures meshes == old(meshes) + [Mesh(GeometryOf(facemeshResolution, coord, scaledMesh, part), false)]
      ensures inScene == old(inScene) + {|old(meshes)|}
    {
      var geom := BuildFaceMeshGeometry(scaledMesh, part);
      inScene := inScene + {|meshes|};
      meshes := meshes + [Mesh(geom, false)];
    }

    /** Releases the geometry of every mesh built so far and removes each from the scene. The
        meshes stay in `meshes`. */
    method DisposeFaceMesh()
      requires Valid()
      modifies this`meshes, this`inScene
      ensures Valid()
      ensures meshes == DisposedAll(old(meshes))
      ensures inScene == {}
    {
      var index := 0;
      while index < |meshes|
        invariant index <= |meshes| == |old(meshes)|
        invariant forall k :: 0 <= k < index ==> meshes[k] == old(meshes[k]).(disposed := true)
        invariant forall k :: index <= k < |meshes| ==> meshes[k] == old(meshes[k])
        invariant forall k :: k in inScene <==> k in old(inScene) && index <= k
      {
        meshes := meshes[index := meshes[index].(disposed := true)];
        inScene := inScene - {index};
        index := index + 1;
      }
    }

    /** The seven buildFaceMesh calls of an accepted face-mesh frame, forehead first and mouth
        last: each new mesh is appended and added to the scene. */
    method BuildRegions(scaledMesh: seq<Point3>)
      requires ValidResolution(facemeshResolution)
      requires TableFits(facemesh, |scaledMesh|) && TableFits(facemesh, |coord|)
      modifies this`meshes, this`inScene
      ensures meshes == AppendRegions(old(meshes), facemeshResolution, coord, scaledMesh, facemesh)
      ensures var n := |old(meshes)|;
              inScene == old(inScene) + {n, n + 1, n + 2, n + 3, n + 4, n + 5, n + 6}
    {
      BuildFaceMesh(scaledMesh, facemesh.forehead);
      BuildFaceMesh(scaledMesh, facemesh.leftEye);
      BuildFaceMesh(scaledMesh, facemesh.rightEye);
      BuildFaceMesh(scaledMesh, facemesh.leftCheek);
      BuildFaceMesh(scaledMesh, facemesh.rightCheek);
      BuildFaceMesh(scaledMesh, facemesh.nose);
      BuildFaceMesh(scaledMesh, facemesh.mouth);
    }

    /** One frame for the face-mesh avatar: on an accepted frame, dispose every earlier mesh and
        build one per region, in order. */
    method UpdateFaceMesh(facemeshResult: seq<FaceCandidate>)
      requires Valid()
      requires Accepted(facemeshResult) ==>
                 TableFits(facemesh, |Selected(facemeshResult).scaledMesh|) && TableFits(facemesh, |coord|)
      modifies this`visible, this`meshes, this`inScene
      ensures Valid()
      ensures visible == Accepted(facemeshResult)
      ensures !Accepted(facemeshResult) ==> meshes == old(meshes) && inScene == old(inScene)
      ensures Accepted(facemeshResult) ==>
                var n := |old(meshes)|;
                meshes == AppendRegions(DisposedAll(old(meshes)), facemeshResolution, coord,
                                        Selected(facemeshResult).scaledMesh, facemesh) &&
                (forall k :: k in inScene <==> n <= k < n + RegionCount)
    {
      if |facemeshResult| > 0 {
        var maxScoreId, maxScore := SelectFace(facemeshResult);
        if maxScore >= ConfidenceThreshold {
          SetVisibility(true);
          var scaledMesh := facemeshResult[maxScoreId].scaledMesh;
          assert facemeshResult[maxScoreId] == Selected(facemeshResult);
          ghost var n := |meshes|;
          DisposeFaceMesh();
          BuildRegions(scaledMesh);
          AppendRegionsShape(DisposedAll(old(meshes)), facemeshResolution, coord, scaledMesh, facemesh);
        } else {
          SetVisibility(false);
        }
      } else {
        SetVisibility(false);
      }
    }
  }
}
