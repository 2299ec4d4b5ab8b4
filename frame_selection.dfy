/** Choosing the face to rig from one frame of detector results: a left-to-right scan that
    keeps the first strictly greater confidence, starting from index 0 and score 0, and
    accepts the face only when the best score reaches the threshold. */
module FrameSelection {
  import opened ThreeMath

  const ConfidenceThreshold: real := 0.5

  /** One detected face: its landmark points (pixel x, y and depth z) and its confidence. */
  datatype FaceCandidate = FaceCandidate(scaledMesh: seq<Point3>, faceInViewConfidence: real)

  /** The scan's two variables. */
  datatype Choice = Choice(maxScoreId: nat, maxScore: real)

  /** The values of (maxScoreId, maxScore) once the scan has visited `faces` in order. */
  function Scan(faces: seq<FaceCandidate>): (r: Choice)
    ensures 0.0 <= r.maxScore
    ensures r.maxScore == 0.0 ==> r.maxScoreId == 0
    ensures 0.0 < r.maxScore ==>
              r.maxScoreId < |faces| && faces[r.maxScoreId].faceInViewConfidence == r.maxScore
  {
    if faces == [] then Choice(0, 0.0)
    else
      var prev := Scan(faces[..|faces| - 1]);
      var last := faces[|faces| - 1].faceInViewConfidence;
      if last > prev.maxScore then Choice(|faces| - 1, last) else prev
  }

  /** The declarative meaning of the scan: the score is the larger of 0 and every confidence,
      a positive score is reached at the index, every earlier confidence is strictly smaller,
      and with no positive confidence the index stays 0. */
  ghost predicate IsFirstMaximum(faces: seq<FaceCandidate>, c: Choice)
  {
    0.0 <= c.maxScore &&
    (forall j :: 0 <= j < |faces| ==> faces[j].faceInViewConfidence <= c.maxScore) &&
    (forall j :: 0 <= j < c.maxScoreId && j < |faces| ==> faces[j].faceInViewConfidence < c.maxScore) &&
    (0.0 < c.maxScore ==> c.maxScoreId < |faces| && faces[c.maxScoreId].faceInViewConfidence == c.maxScore) &&
    (c.maxScore == 0.0 ==> c.maxScoreId == 0)
  }

  lemma {:induction false} ScanIsFirstMaximum(faces: seq<FaceCandidate>)
    ensures IsFirstMaximum(faces, Scan(faces))
  {
    if faces != [] {
      var init := faces[..|faces| - 1];
      ScanIsFirstMaximum(init);
      assert forall j :: 0 <= j < |init| ==> init[j] == faces[j];
    }
  }

  /** IsFirstMaximum pins the choice down: there is exactly one. */
  lemma FirstMaximumIsScan(faces: seq<FaceCandidate>, c: Choice)
    requires IsFirstMaximum(faces, c)
    ensures c == Scan(faces)
  {
    ScanIsFirstMaximum(faces);
  }

  /** The face is rigged only if the list is non-empty and the best score reaches 0.5. */
  predicate Accepted(faces: seq<FaceCandidate>)
  {
    |faces| > 0 && Scan(faces).maxScore >= ConfidenceThreshold
  }

  /** A frame is accepted exactly when some confidence reaches the threshold. */
  lemma AcceptedIff(faces: seq<FaceCandidate>)
    ensures Accepted(faces) <==>
            exists j :: 0 <= j < |faces| && faces[j].faceInViewConfidence >= ConfidenceThreshold
  {
    ScanIsFirstMaximum(faces);
    var s := Scan(faces);
    if s.maxScore >= ConfidenceThreshold {
      assert faces[s.maxScoreId].faceInViewConfidence >= ConfidenceThreshold;
    }
  }

  /** The face an accepted frame rigs; its confidence is the maximum and is at least 0.5. */
  function Selected(faces: seq<FaceCandidate>): (f: FaceCandidate)
    requires Accepted(faces)
    ensures f.faceInViewConfidence >= ConfidenceThreshold
    ensures forall j :: 0 <= j < |faces| ==> faces[j].faceInViewConfidence <= f.faceInViewConfidence
  {
    ScanIsFirstMaximum(faces);
    faces[Scan(faces).maxScoreId]
  }

  /** The forEach over the detector results that tracks maxScoreId and maxScore. */
  method SelectFace(faces: seq<FaceCandidate>) returns (maxScoreId: nat, maxScore: real)
    ensures Choice(maxScoreId, maxScore) == Scan(faces)
    ensures IsFirstMaximum(faces, Choice(maxScoreId, maxScore))
  {
    maxScoreId, maxScore := 0, 0.0;
    var index := 0;
    while index < |faces|
      invariant index <= |faces|
      invariant Choice(maxScoreId, maxScore) == Scan(faces[..index])
    {
      assert faces[..index + 1][..index] == faces[..index];
      if faces[index].faceInViewConfidence > maxScore {
        maxScoreId := index;
        maxScore := faces[index].faceInViewConfidence;
      }
      index := index + 1;
    }
    assert faces[..index] == faces;
    ScanIsFirstMaximum(faces);
  }

  /** Two candidates scored 0.3 and 0.7: the second is rigged; a tie keeps the first; an empty
      list is rejected. */
  lemma SelectionExamples(m0: seq<Point3>, m1: seq<Point3>)
    ensures var faces := [FaceCandidate(m0, 0.3), FaceCandidate(m1, 0.7)];
            Accepted(faces) && Scan(faces) == Choice(1, 0.7)
    ensures var faces := [FaceCandidate(m0, 0.7), FaceCandidate(m1, 0.7)];
            Accepted(faces) && Scan(faces) == Choice(0, 0.7)
    ensures !Accepted([])
  {
    var faces := [FaceCandidate(m0, 0.3), FaceCandidate(m1, 0.7)];
    assert faces[..1] == [FaceCandidate(m0, 0.3)];
    assert faces[..1][..0] == [];
    var ties := [FaceCandidate(m0, 0.7), FaceCandidate(m1, 0.7)];
    assert ties[..1] == [FaceCandidate(m0, 0.7)];
    assert ties[..1][..0] == [];
  }
}
