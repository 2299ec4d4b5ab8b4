/** What the glTF arrays of the rig hold right after construction. The constructor assigns
    none of `object`, `bindingPoint`, `currentSize`, `facemeshBindingPointIndex` and
    `objectIdealRatioWithFacemesh`, so each reads as undefined, and the first `push` in the
    load callback (or the first `forEach` in a rotation) throws a TypeError. The corrected
    construction starts each of them as an empty array, which is what the class model does. */
module Construction {
  import opened ThreeMath
  import opened RotationLog
  import opened FaceGeometry
  import opened Avatar

  /** A field that was never assigned reads as undefined; an assigned one holds an array. */
  datatype Slot<T> = Undefined | Array(items: seq<T>)

  /** A call either returns or throws; either way the state reached so far survives. */
  datatype Outcome<T> = Returned(state: T) | Threw(state: T)

  /** The five per-object arrays; `objects` is the source's `object`. */
  datatype RigArrays = RigArrays(objects: Slot<SceneObject>, bindingPoint: Slot<Point3>, currentSize: Slot<Size>,
                                 facemeshBindingPointIndex: Slot<nat>, objectIdealRatioWithFacemesh: Slot<Point2>)

  /** What one load callback pushes: the loaded scene, its binding point in object space, its
      initial tracked size, its landmark index and its ideal ratio to the face. */
  datatype Attachment = Attachment(scene: SceneObject, bindingPoint: Point3, size: Size,
                                   landmark: nat, ratio: Point2)

  /** Array.prototype.push: it appends to an array and throws on undefined. */
  function Push<T>(s: Slot<T>, x: T): (r: Outcome<Slot<T>>)
    ensures r.Returned? <==> s.Array?
    ensures s.Array? ==> r.state == Array(s.items + [x])
  {
    match s
    case Undefined => Threw(Undefined)
    case Array(xs) => Returned(Array(xs + [x]))
  }

  /** The array updates of the load callback, in source order; the first push that throws ends
      the callback with the earlier pushes done. */
  function LoadCallback(f: RigArrays, a: Attachment): Outcome<RigArrays>
  {
    var o := Push(f.objects, a.scene);
    if o.Threw? then Threw(f) else
    var f1 := f.(objects := o.state);
    var b := Push(f1.bindingPoint, a.bindingPoint);
    if b.Threw? then Threw(f1) else
    var f2 := f1.(bindingPoint := b.state);
    var s := Push(f2.currentSize, a.size);
    if s.Threw? then Threw(f2) else
    var f3 := f2.(currentSize := s.state);
    var i := Push(f3.facemeshBindingPointIndex, a.landmark);
    if i.Threw? then Threw(f3) else
    var f4 := f3.(facemeshBindingPointIndex := i.state);
    var r := Push(f4.objectIdealRatioWithFacemesh, a.ratio);
    if r.Threw? then Threw(f4) else Returned(f4.(objectIdealRatioWithFacemesh := r.state))
  }

  /** setGltfRotation's forEach over `object`: throws on undefined. */
  function RotationCall(f: RigArrays, r: AxisRotation): (out: Outcome<RigArrays>)
    ensures out.Returned? <==> f.objects.Array?
  {
    match f.objects
    case Undefined => Threw(f)
    case Array(objs) => Returned(f.(objects := Array(RotateAll(objs, r))))
  }

  /** Loads completing one after another; the first that throws stops the rest. */
  function LoadAll(f: RigArrays, attachments: seq<Attachment>): Outcome<RigArrays>
    decreases |attachments|
  {
    if attachments == [] then Returned(f)
    else
      match LoadCallback(f, attachments[0])
      case Threw(g) => Threw(g)
      case Returned(g) => LoadAll(g, attachments[1..])
  }

  /** The arrays after the constructor as written: none assigned. */
  const AsWrittenConstruction: RigArrays := RigArrays(Undefined, Undefined, Undefined, Undefined, Undefined)

  /** The arrays after the corrected constructor: all empty. */
  const CorrectedConstruction: RigArrays := RigArrays(Array([]), Array([]), Array([]), Array([]), Array([]))

  /** All five arrays assigned, each with n entries. */
  predicate Parallel(f: RigArrays, n: nat)
  {
    f.objects.Array? && f.bindingPoint.Array? && f.currentSize.Array? &&
    f.facemeshBindingPointIndex.Array? && f.objectIdealRatioWithFacemesh.Array? &&
    |f.objects.items| == n && |f.bindingPoint.items| == n && |f.currentSize.items| == n &&
    |f.facemeshBindingPointIndex.items| == n && |f.objectIdealRatioWithFacemesh.items| == n
  }

  function Scenes(attachments: seq<Attachment>): (r: seq<SceneObject>)
    ensures |r| == |attachments|
  {
    seq(|attachments|, k requires 0 <= k < |attachments| => attachments[k].scene)
  }

  /** As written, the first load throws at its first push and leaves every array undefined, and
      the first rotation of an accepted frame throws as well. */
  lemma AsWrittenLoadThrows(a: Attachment, r: AxisRotation)
    ensures LoadCallback(AsWrittenConstruction, a) == Threw(AsWrittenConstruction)
    ensures RotationCall(AsWrittenConstruction, r).Threw?
  {
  }

  /** On parallel arrays a load returns, keeps the arrays parallel with one more entry each, and
      appends the loaded scene to `objects`. */
  lemma LoadKeepsParallel(f: RigArrays, n: nat, a: Attachment)
    requires Parallel(f, n)
    ensures LoadCallback(f, a).Returned?
    ensures Parallel(LoadCallback(f, a).state, n + 1)
    ensures LoadCallback(f, a).state.objects.items == f.objects.items + [a.scene]
  {
  }

  /** From parallel arrays every load returns and the arrays stay parallel, `objects` holding the
      loaded scenes in load order. */
  lemma {:induction false} LoadsFromParallel(f: RigArrays, n: nat, attachments: seq<Attachment>)
    requires Parallel(f, n)
    ensures LoadAll(f, attachments).Returned?
    ensures Parallel(LoadAll(f, attachments).state, n + |attachments|)
    ensures LoadAll(f, attachments).state.objects.items == f.objects.items + Scenes(attachments)
    decreases |attachments|
  {
    if attachments == [] {
      assert f.objects.items + Scenes(attachments) == f.objects.items;
    } else {
      var a, rest := attachments[0], attachments[1..];
      LoadKeepsParallel(f, n, a);
      var g := LoadCallback(f, a).state;
      LoadsFromParallel(g, n + 1, rest);
      assert Scenes(attachments) == [a.scene] + Scenes(rest);
      assert f.objects.items + [a.scene] + Scenes(rest) == f.objects.items + ([a.scene] + Scenes(rest));
    }
  }

  /** After the corrected construction any number of loads return, every array has one entry
      per loaded object, and rotations return. */
  lemma CorrectedLoadsSucceed(attachments: seq<Attachment>, r: AxisRotation)
    ensures LoadAll(CorrectedConstruction, attachments).Returned?
    ensures Parallel(LoadAll(CorrectedConstruction, attachments).state, |attachments|)
    ensures LoadAll(CorrectedConstruction, attachments).state.objects.items == Scenes(attachments)
    ensures RotationCall(LoadAll(CorrectedConstruction, attachments).state, r).Returned?
  {
    LoadsFromParallel(CorrectedConstruction, 0, attachments);
    assert [] + Scenes(attachments) == Scenes(attachments);
  }
}
