# Avatar effect rig, modelled in Dafny

This project models the per-frame bookkeeping of the `AvatarEffect` class of the avatar-effect library and the two geometry helpers it calls. Every frame the class receives the results of a face detector and picks the most confident face. It then does one of two things:

- **glTF avatar**: it rotates, scales and moves the attached glTF scenes onto that face.
- **Face-mesh avatar**: it rebuilds a dynamic face mesh from the face's landmarks.

The model is written in the source's own form:

- The class is a Dafny `class`. Its state is `visible` (the scene's visibility), `meshes`, `inScene` (which meshes the scene holds), `lastRotation` and the five per-object arrays.
- Its methods update that state with the same loops as the source, and each loop is proved against a specification function.
- The geometry helpers are pure functions.

Modules:

- `ThreeMath` (three_math.dfy): `getRadian2D` and `getDistance3D` over `real`.
  - Square root and arc cosine come in as a `Maths` value.
  - `Exact(m)` says when that value behaves like the real functions: `sqrt` is the non-negative root, `acos` is 0 at 1 and positive on [-1, 1).
- `FrameSelection` (frame_selection.dfy): the scan that picks the face (`Scan`, `SelectFace`) and the 0.5 acceptance threshold.
- `RotationLog` (rotation_log.dfy): an object's orientation, kept as the log of world-axis rotations it has received.
  - `Reduce` is a normal form of such a log: it merges neighbouring calls about the same axis and drops zero angles.
  - Two logs with the same normal form orient an object the same way.
- `FaceGeometry` (face_geometry.dfy):
  - the pixel-to-normalized-device-coordinate mapping (`Ndc`);
  - the triangle loop of the face mesh, both as a fold (`FaceMeshGeometry`) and in closed form (`GeometryOf`).
- `Pose` (pose.dfy): the pitch, yaw and roll estimates, the face width and height, and the scale factor `ScaleParm`.
- `Avatar` (avatar_effect.dfy): the `AvatarEffect` class, and the sequence functions that specify its loops.
- `Construction` (construction.dfy): the five arrays as the constructor leaves them, with the as-written half and the corrected half of the finding below.

Three class methods group calls that the source makes in line:

- `ResetRotation` holds the three undo calls of updateGltfModel.
- `ApplyRotation` holds the three estimate-and-apply steps.
- `BuildRegions` holds the seven buildFaceMesh calls of updateFaceMesh.

Two behaviours of the source are modelled as they are:

- `meshes` keeps every mesh ever built. Disposing removes meshes from the scene but never from the array, so the array grows by seven with every accepted frame.
- An object attached after an accepted frame receives, on the next frame, an undo of a rotation it never had applied. `LoadGltfModel` therefore promises drift-free objects only while lastRotation is 0, and `RotationLog.LateAttachmentDrifts` exhibits the drift.

## Model

| member | source | states |
|---|---|---|
| ThreeMath.Segment | src/avatar-effect/three-math.js:2-4 | no contract; a side length √(dx² + dy²); properties in Radian2DLawOfCosines and RightAngleRadian |
| ThreeMath.GetRadian2D | src/avatar-effect/three-math.js:1-7 | no contract; the three sides of the triangle handed to AngleFromSides; properties in Radian2DSymmetric, Radian2DDegenerate, Radian2DLawOfCosines and RightAngleRadian |
| ThreeMath.AngleFromSides | src/avatar-effect/three-math.js:5-6 | no contract; acos of the law-of-cosines quotient, and 0 (the `\|\| 0`) for a zero denominator or a quotient outside [-1, 1]; properties in Radian2DDegenerate and Radian2DLawOfCosines |
| ThreeMath.CosineArg | src/avatar-effect/three-math.js:5 | no contract; the quotient (AB² + AC² − BC²)/(2·AB·AC); its range is proved in Radian2DLawOfCosines |
| ThreeMath.SquaredDistance3D | src/avatar-effect/three-math.js:10-13 | no contract; dx² + dy² + (dz/1.65)²; properties in Distance3DSquared and Distance3DMonotone |
| ThreeMath.GetDistance3D | src/avatar-effect/three-math.js:9-14 | no contract; the square root of SquaredDistance3D; properties in Distance3DSelf, Distance3DSymmetric, Distance3DSquared, Distance3DDepthOnly and Distance3DMonotone |
| ThreeMath.Radian2DSymmetric | src/avatar-effect/three-math.js:2-5 | getRadian2D is unchanged when pointB and pointC are swapped |
| ThreeMath.Radian2DDegenerate | src/avatar-effect/three-math.js:5-6 | when pointA equals pointB the quotient is 0/0 and the result is 0 |
| ThreeMath.Radian2DLawOfCosines | src/avatar-effect/three-math.js:2-6 | for a non-degenerate triangle (A ≠ B, A ≠ C), both sides at A are positive, the quotient (AB²+AC²−BC²)/(2·AB·AC) lies in [-1, 1] by Cauchy–Schwarz, and the result is its arc cosine, so the `\|\| 0` fallback never applies |
| ThreeMath.RightAngleRadian | src/avatar-effect/index.js:211-215 | for the right triangles the rig measures, the result is 0 when A and B share x; otherwise the quotient \|dx\|/AB lies in (0, 1] and the result is its arc cosine, which is 0 exactly when A and B also share y (Pose.TiltMeasure) |
| ThreeMath.Distance3DSelf | src/avatar-effect/three-math.js:9-14 | the distance from a point to itself is 0 |
| ThreeMath.Distance3DSymmetric | src/avatar-effect/three-math.js:9-14 | the distance is symmetric |
| ThreeMath.Distance3DSquared | src/avatar-effect/three-math.js:10-13 | the distance is non-negative and its square is dx² + dy² + (dz/1.65)² |
| ThreeMath.Distance3DDepthOnly | src/avatar-effect/three-math.js:12-13 | two points differing only in depth by d are \|d\|/1.65 apart |
| ThreeMath.Distance3DMonotone | src/avatar-effect/three-math.js:9-14 | growing the magnitude of each coordinate difference never shrinks the distance |
| FrameSelection.Scan | src/avatar-effect/index.js:166-174 | the scan's score is non-negative; a positive score is the confidence at the chosen index; a zero score keeps index 0 |
| FrameSelection.ScanIsFirstMaximum | src/avatar-effect/index.js:166-174 | the scan result is the first maximum: every confidence is at most the score and every earlier one is strictly below it |
| FrameSelection.FirstMaximumIsScan | src/avatar-effect/index.js:166-174 | the first maximum is unique, so any choice with that property is the scan's |
| FrameSelection.Accepted | src/avatar-effect/index.js:166-175 | no contract; a non-empty result list whose scanned maximum reaches 0.5; characterised in AcceptedIff |
| FrameSelection.AcceptedIff | src/avatar-effect/index.js:166-175 | a frame is accepted iff some confidence reaches 0.5 |
| FrameSelection.Selected | src/avatar-effect/index.js:166-175 | the rigged face of an accepted frame has the maximal confidence and it is at least 0.5 |
| FrameSelection.SelectFace | src/avatar-effect/index.js:167-174 | the forEach computes exactly the scan's (maxScoreId, maxScore), which is the first maximum |
| FrameSelection.SelectionExamples | src/avatar-effect/index.js:166-175 | for scores 0.3 and 0.7 the second face wins; on a tie the first wins; an empty list is rejected |
| RotationLog.AxisOf | src/avatar-effect/index.js:153-163 | 'X' means X, 'Y' means Y, and every other name means Z |
| RotationLog.Apply | src/avatar-effect/index.js:217-237 | no contract; the three calls (x, X), (y, Y), (z, Z) of a frame's estimate, in source order; properties in ApplyIsInverseOfUndo and FrameIsDriftFree |
| RotationLog.Undo | src/avatar-effect/index.js:177-180 | no contract; the three calls (−z, Z), (−y, Y), (−x, X) of the reset, in source order; properties in UndoIsInverseOfApply and FrameIsDriftFree |
| RotationLog.UndoIsInverseOfApply | src/avatar-effect/index.js:177-237 | each frame's undo (Z, Y, X negated) is the inverse of the previous frame's apply (X, Y, Z) |
| RotationLog.ApplyIsInverseOfUndo | src/avatar-effect/index.js:177-237 | the apply triple is the inverse of the undo triple |
| RotationLog.FrameIsDriftFree | src/avatar-effect/index.js:177-237 | if an object's log is equivalent to applying the previous angles once, after a frame it is equivalent to applying the new angles once |
| RotationLog.RepeatedEstimateIsIdempotent | src/avatar-effect/index.js:177-237 | a frame whose estimate repeats the previous one leaves every orientation as it was |
| RotationLog.NoRotationIsIdentity | src/avatar-effect/index.js:28-32 | the initial lastRotation (0, 0, 0) applied once is the identity |
| RotationLog.LateAttachmentDrifts | src/avatar-effect/index.js:90-110 | an object attached after a frame with angles (0.5, 0, 0) is left rotated by -0.5 about X when the next estimate is 0 |
| FaceGeometry.Ndc | src/avatar-effect/index.js:257-258 | no contract; ((d − c)/d)·2 − 1; properties in NdcRoundTrip and NdcRange |
| FaceGeometry.Vertex | src/avatar-effect/index.js:256-270 | no contract; (Ndc of x over the width, Ndc of y over the height, −z/height + 5) for one landmark; used by FaceMeshGeometryShape |
| FaceGeometry.AddTriangle | src/avatar-effect/index.js:255-280 | no contract; one iteration of the triangle loop: three vertices, the face (vCnt, vCnt+1, vCnt+2) and the uv triple; its effect is stated in FaceMeshGeometryShape |
| FaceGeometry.FaceMeshGeometry | src/avatar-effect/index.js:251-284 | no contract; the triangle loop as a fold of AddTriangle over the part; its shape is stated in FaceMeshGeometryShape and FaceMeshGeometryClosedForm |
| FaceGeometry.GeometryOf | src/avatar-effect/index.js:251-284 | no contract; the geometry the loop builds, written index by index; FaceMeshGeometryClosedForm proves the loop builds exactly it |
| FaceGeometry.NdcRoundTrip | src/avatar-effect/index.js:257-258 | the pixel-to-normalized mapping ((d − c)/d)·2 − 1 is a bijection, with inverse d·(1 − n)/2 |
| FaceGeometry.NdcRange | src/avatar-effect/index.js:257-258 | pixel 0 goes to 1 and pixel d to -1; a coordinate lies in [0, d] iff its image lies in [-1, 1] |
| FaceGeometry.FaceMeshGeometryShape | src/avatar-effect/index.js:255-281 | n triangles give 3n vertices, n faces and n uv triples; face i is (3i, 3i+1, 3i+2); vertex 3i+k is (NDCx, NDCy, −z/H + 5) of corner k of triangle i; uv i is the coordinates of triangle i's corners |
| FaceGeometry.FaceMeshGeometryClosedForm | src/avatar-effect/index.js:251-284 | the triangle loop builds exactly the closed-form geometry |
| FaceGeometry.SingleTriangleExample | src/avatar-effect/index.js:256-274 | one triangle at 960×720 gives three vertices with x = ((960 − x)/960)·2 − 1 and the face (0, 1, 2) |
| Pose.Tilt | src/avatar-effect/index.js:211-215 | no contract; getRadian2D of A, B and the right-angle corner (B.x, A.y); properties in TiltMeasure |
| Pose.Signed | src/avatar-effect/index.js:209-216 | no contract; (±1 · t)/attenuation; properties in SignedTilt |
| Pose.Pitch | src/avatar-effect/index.js:209-216 | no contract; the signed, attenuated forehead-to-chin tilt in the (y, z) plane; properties in PitchEstimate |
| Pose.Yaw | src/avatar-effect/index.js:219-226 | no contract; the signed, attenuated cheek-to-cheek tilt in the (x, z) plane; properties in YawEstimate |
| Pose.Roll | src/avatar-effect/index.js:229-236 | no contract; the signed cheek-to-cheek tilt in the (x, y) plane; properties in RollEstimate |
| Pose.EstimateRotation | src/avatar-effect/index.js:209-236 | no contract; the triple (Pitch, Yaw, Roll) stored in lastRotation; properties in EstimatesReadOnlyAnchors and AvatarEffect.ApplyRotation |
| Pose.FaceWidth | src/avatar-effect/index.js:183-194 | no contract; the 3D distance between landmarks 234 and 454; properties in EstimatesReadOnlyAnchors |
| Pose.FaceHeight | src/avatar-effect/index.js:195-206 | no contract; the 3D distance between landmarks 10 and 152; properties in EstimatesReadOnlyAnchors |
| Pose.ScaleParm | src/avatar-effect/index.js:141-145 | no contract; the larger of width·ratio.x/size.width and height·ratio.y/size.height; properties in ScaleCoversFace, ScaleParmMonotoneInWidth and ScaleParmMonotoneInHeight |
| Pose.TiltMeasure | src/avatar-effect/index.js:211-215 | the tilt is non-negative, is 0 iff the segment is parallel to an axis, and is otherwise acos(\|du\|/\|ab\|) |
| Pose.SignedTilt | src/avatar-effect/index.js:209-216 | a signed, attenuated tilt has the sign chosen, is 0 iff the segment is parallel to an axis, and otherwise has magnitude acos(\|du\|/\|ab\|)/attenuation |
| Pose.PitchEstimate | src/avatar-effect/index.js:209-216 | pitch ≤ 0 when the forehead is deeper than the chin (z[10] > z[152]) and ≥ 0 otherwise; 0 iff forehead and chin share y or depth; otherwise \|pitch\| = acos(\|dy\|/\|ab\|)/1.5 |
| Pose.YawEstimate | src/avatar-effect/index.js:219-226 | yaw ≥ 0 when z[234] > z[454] and ≤ 0 otherwise; 0 iff the cheeks share x or depth; otherwise \|yaw\| = acos(\|dx\|/\|ab\|)/1.3 |
| Pose.RollEstimate | src/avatar-effect/index.js:229-236 | roll ≥ 0 when y[234] < y[454] and ≤ 0 otherwise; 0 iff the cheeks share x or y; otherwise \|roll\| = acos(\|dx\|/\|ab\|) |
| Pose.EstimatesReadOnlyAnchors | src/avatar-effect/index.js:183-236 | the angles, width and height depend only on landmarks 10, 152, 234 and 454 |
| Pose.Rescaled | src/avatar-effect/index.js:146-147 | no contract; width and height times the same factor; properties in ScaleCoversFace and RescaleKeepsAspect |
| Pose.ScaleCoversFace | src/avatar-effect/index.js:141-147 | after rescaling by scaleParm, the tracked size covers width·ratio.x and height·ratio.y, with equality in at least one |
| Pose.RescaleKeepsAspect | src/avatar-effect/index.js:146-147 | multiplying width and height by the same non-zero factor keeps their ratio |
| Pose.ScaleParmMonotoneInWidth | src/avatar-effect/index.js:141-145 | a wider face never gives a smaller scale factor |
| Pose.ScaleParmMonotoneInHeight | src/avatar-effect/index.js:141-145 | a taller face never gives a smaller scale factor |
| Avatar.BoxSize | src/avatar-effect/index.js:114-116 | no contract; the box extent, 0 for an empty box; used by InitialSizePositive |
| Avatar.Along | src/avatar-effect/index.js:100-102 | no contract; min + r·(max − min) along one axis; its range is proved in BindingTargetInBox |
| Avatar.BindingTarget | src/avatar-effect/index.js:99-103 | no contract; the point at fraction `objectBindingPosition` of the box on each axis; properties in BindingTargetInBox |
| Avatar.InitialSize | src/avatar-effect/index.js:112-117 | no contract; (boxX/2·W, boxY/2·H); properties in InitialSizePositive and AvatarEffect.SetGltfFacemeshResolution |
| Avatar.BoundPosition | src/avatar-effect/index.js:121-135 | no contract; one object's new position, the landmark's normalized x and y minus the binding offset, z kept; properties in BindingPointLandsOnLandmark |
| Avatar.PlaceAll | src/avatar-effect/index.js:120-136 | no contract beyond keeping the length; BoundPosition for every object; the method AvatarEffect.SetGltfPosition is proved against it |
| Avatar.Rig | src/avatar-effect/index.js:177-237 | no contract beyond keeping the length; undo, scale and re-rotate every object; its effect per object is stated in RigEffect |
| Avatar.AppendRegions | src/avatar-effect/index.js:313-320 | no contract; the meshes followed by one new mesh per region; unfolded in AppendRegionsShape |
| Avatar.Rotated | src/avatar-effect/index.js:156-160 | no contract; one `rotateOnWorldAxis` call, recorded as one more entry in the object's log; used by RotateAll |
| Avatar.RotateBy | src/avatar-effect/index.js:177-237 | keeps the length; every object's log extended by the same calls. The lemma RotateAllExtends shows that one more RotateAll is one more call here. ResetRotation, ApplyRotation and Rig are stated with it |
| Avatar.ScaleVector | src/avatar-effect/index.js:148-149 | no contract; (s·x, s·y, s·z); used by ScaleAll and RigEffect |
| Avatar.RotateAll | src/avatar-effect/index.js:154-162 | no contract beyond keeping the length; one more rotation-log entry for every object; the method AvatarEffect.SetGltfRotation is proved against it |
| Avatar.Factors | src/avatar-effect/index.js:140-145 | no contract beyond keeping the length; each object's ScaleParm; the method AvatarEffect.SetGltfScale is proved against it |
| Avatar.RescaleAll | src/avatar-effect/index.js:146-147 | no contract beyond keeping the length; each tracked size times its factor; the method AvatarEffect.SetGltfScale is proved against it |
| Avatar.ScaleAll | src/avatar-effect/index.js:148-149 | no contract beyond keeping the length; each object's scale times its factor on all three axes; the method AvatarEffect.SetGltfScale is proved against it |
| Avatar.DisposedAll | src/avatar-effect/index.js:293-298 | keeps the length; every mesh marked disposed; the method AvatarEffect.DisposeFaceMesh is proved against it |
| Avatar.BindingTargetInBox | src/avatar-effect/index.js:96-105 | the binding point min + r·(max − min) lies in the box for r in the unit cube; r = 0 gives min and r = 1 gives max |
| Avatar.InitialSizePositive | src/avatar-effect/index.js:112-117 | a box with some width and height gives a positive initial tracked size, so the scale step can divide by it |
| Avatar.RigEffect | src/avatar-effect/index.js:177-237 | per object, an accepted frame appends exactly (−z₀,Z), (−y₀,Y), (−x₀,X), (x₁,X), (y₁,Y), (z₁,Z) to the rotation log, multiplies all three scale axes by the object's factor, and keeps the position |
| Avatar.BindingPointLandsOnLandmark | src/avatar-effect/index.js:120-137 | the placed binding point lands on the landmark's normalized x and y, and z is kept. The transform must be one whose offset does not depend on the position, that is, one refreshed after this frame's rotate and scale calls (see Left out) |
| Avatar.AppendRegionsShape | src/avatar-effect/index.js:313-320 | unfolds AppendRegions: the old meshes stay in place, followed by seven not-yet-disposed meshes of the regions' closed-form geometries, forehead to mouth; the source's promise for a rebuild is proved in UpdateFaceMesh's ensures |
| Avatar.AvatarEffect.constructor | src/avatar-effect/index.js:25-61 | the scene is visible, no meshes, lastRotation (0, 0, 0), and all five per-object arrays empty |
| Avatar.AvatarEffect.SetVisibility | src/avatar-effect/index.js:77-79 | visibility becomes the argument |
| Avatar.AvatarEffect.HideAvatar | src/avatar-effect/index.js:81-86 | the scene ends up hidden |
| Avatar.AvatarEffect.LoadGltfModel | src/avatar-effect/index.js:90-110 | each of the five arrays grows by exactly one entry: the scene placed at (0, 0, 6 − ratio.z), its binding point in object space, its initial size, its landmark index and its ideal ratio; lengths stay equal; with lastRotation at 0 no object drifts |
| Avatar.AvatarEffect.SetGltfFacemeshResolution | src/avatar-effect/index.js:112-118 | appends (boxX/2·W, boxY/2·H) to currentSize |
| Avatar.AvatarEffect.SetGltfPosition | src/avatar-effect/index.js:120-137 | each object's x and y become the NDC of its landmark minus its binding offset; z and everything else are kept |
| Avatar.AvatarEffect.SetGltfScale | src/avatar-effect/index.js:139-151 | each tracked size, and each object's scale on all three axes, is multiplied by that object's scaleParm; nothing else changes |
| Avatar.AvatarEffect.SetGltfRotation | src/avatar-effect/index.js:153-163 | every object's log gains exactly the one call (axis, radian) |
| Avatar.AvatarEffect.ResetRotation | src/avatar-effect/index.js:177-180 | every log gains the undo triple of lastRotation |
| Avatar.AvatarEffect.ApplyRotation | src/avatar-effect/index.js:208-237 | lastRotation becomes the estimate (pitch, yaw, roll), and every log gains its apply triple |
| Avatar.AvatarEffect.UpdateGltfModel | src/avatar-effect/index.js:165-246 | visible iff the frame is accepted; a rejected frame changes nothing else; an accepted frame sets lastRotation to the estimate, rescales every tracked size, and leaves every object undone, scaled, re-rotated and placed, in source order; objects stay drift-free |
| Avatar.AvatarEffect.BuildFaceMeshGeometry | src/avatar-effect/index.js:251-284 | the loop returns the fold of the triangle table, which is the closed-form geometry |
| Avatar.AvatarEffect.BuildFaceMesh | src/avatar-effect/index.js:286-291 | appends one mesh of the part's geometry and adds exactly that mesh to the scene |
| Avatar.AvatarEffect.DisposeFaceMesh | src/avatar-effect/index.js:293-298 | every mesh is marked disposed and removed from the scene; `meshes` keeps its length |
| Avatar.AvatarEffect.BuildRegions | src/avatar-effect/index.js:314-320 | appends the seven region meshes and adds exactly those seven to the scene |
| Avatar.AvatarEffect.UpdateFaceMesh | src/avatar-effect/index.js:300-328 | visible iff the frame is accepted; a rejected frame changes no mesh; an accepted frame disposes every earlier mesh, appends the seven region meshes, and leaves exactly those seven in the scene |
| Construction.Push | src/avatar-effect/index.js:95-108 | Array.prototype.push: it returns iff the slot holds an array, and then appends the value |
| Construction.LoadCallback | src/avatar-effect/index.js:92-109 | no contract; the five pushes of the load callback in source order, stopping at the first that throws; properties in AsWrittenLoadThrows and LoadKeepsParallel |
| Construction.LoadKeepsParallel | src/avatar-effect/index.js:92-109 | on five parallel arrays one load returns, keeps them parallel with one more entry each, and appends the loaded scene to `object` |
| Construction.RotationCall | src/avatar-effect/index.js:153-163 | the rotation forEach returns iff `object` holds an array |
| Construction.AsWrittenLoadThrows | src/avatar-effect/index.js:94-96 | after the constructor as written, the first load throws at `this.object.push`, so no array is ever assigned, and every rotation throws |
| Construction.LoadAll | src/avatar-effect/index.js:90-110 | no contract; load callbacks completing one after another, stopping at the first that throws; properties in LoadsFromParallel and CorrectedLoadsSucceed |
| Construction.LoadsFromParallel | src/avatar-effect/index.js:90-110 | from parallel arrays, every load returns, the arrays stay parallel, and `object` holds the scenes in load order |
| Construction.CorrectedLoadsSucceed | src/avatar-effect/index.js:90-110 | after the corrected constructor, any number of loads return, each array has one entry per object, rotations return |

## Left out

- Rendering: the WebGL renderer, lights, the orthographic camera and its view offset (`setCameraViewPort`), textures and materials (`setTexture`), `computeFaceNormals` and every `renderer.render` call. These are drawing I/O, except for one piece of state the rig reads back. In three.js, `render` refreshes each object's world matrix, and `localToWorld` reads that matrix. The rotation, scale and position calls leave it alone. The model passes the transform in as a parameter and does not track when it was last refreshed.
- The glTF loader: the asynchronous `load` and the file I/O are left out, and so is a load that fails. `LoadGltfModel` is the callback body, run synchronously.
- three.js transforms: `rotateOnWorldAxis` is modelled as one more entry in the object's rotation log, not as matrix or quaternion composition.
- `localToWorld`, `worldToLocal` and `Box3.setFromObject` are parameters. The lemma about placement assumes that moving an object moves its world image by the same amount.
- Math.sqrt and Math.acos are parameters; only the properties in `Exact` are assumed of them.
- Floating point: `real` arithmetic is exact. Rounding that pushes the law-of-cosines quotient out of [-1, 1], NaN confidences and Infinity are not modelled.
- Avatar.AvatarEffect.SetGltfScale: requires every tracked size to be non-zero. The source divides by the size regardless and would produce Infinity or NaN.
- Avatar.AvatarEffect.UpdateGltfModel: on an accepted frame, requires the mesh to reach landmark 454, every tracked size to be non-zero and every landmark index to be in range. The source would throw on a missing landmark.
- Avatar.AvatarEffect.SetGltfPosition: requires every object's landmark index to be in range of the mesh. The source would throw on a missing landmark.
- Avatar.PlaceAll: requires every landmark index to be in range of the mesh, for the same reason as SetGltfPosition.
- Avatar.BindingPointLandsOnLandmark: holds for a `localToWorld` refreshed after this frame's rotate and scale calls. In the source, setGltfPosition (index.js:124-128) reads the world matrix of the previous frame's render (index.js:245). Its offset therefore lags one frame, and the binding point lands on the landmark only when rotation and scale are the same as on the previous frame. AvatarEffect.SetGltfPosition and PlaceAll accept either transform.
- Avatar.AvatarEffect.UpdateFaceMesh: requires every region triangle to index an existing landmark and texture coordinate. The source does no index check.
- The region triangle table and the texture-coordinate table are fixed data files, passed to the constructor. The face-mesh-triangles and coordinate modules are not part of this model.
- Materials of the face meshes: a mesh is its geometry and a disposed flag.
- The detector, the webcam, the animation loop and the static file server live outside the class and are not modelled.

## Findings

| source | as written | input that shows it | evidently intended | confidence | as-written member | corrected member |
|---|---|---|---|---|---|---|
| src/avatar-effect/index.js:25-61 | the constructor never assigns `object`, `bindingPoint`, `currentSize`, `facemeshBindingPointIndex` or `objectIdealRatioWithFacemesh`, so `this.object.push` in the load callback and `this.object.forEach` in setGltfRotation run on undefined and throw a TypeError | the first loadGltfModel of any model file; any accepted frame of updateGltfModel | the five arrays start empty, as the class model's constructor does | high (not executed) | Construction.AsWrittenLoadThrows | Construction.CorrectedLoadsSucceed |

