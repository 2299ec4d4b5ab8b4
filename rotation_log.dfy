/** Rotations about the world axes, recorded as the sequence of calls an attached object
    receives. The renderer composes each call onto the object's current orientation, so the
    rig undoes last frame's angles before applying the new ones.

    `Reduce` is a normal form for such a log: neighbouring rotations about the same axis are
    merged by adding their angles, and a rotation by 0 is dropped. Both steps keep the
    orientation the log produces, so two logs with the same normal form leave an object
    oriented the same way. */
module RotationLog {

  datatype Axis = X | Y | Z

  datatype AxisRotation = AxisRotation(axis: Axis, radian: real)

  /** The angles applied last frame (`lastRotation`). */
  datatype Angles = Angles(x: real, y: real, z: real)

  const NoRotation: Angles := Angles(0.0, 0.0, 0.0)

  /** The axis name passed to setGltfRotation: 'X', 'Y', and anything else means Z. */
  function AxisOf(name: string): (a: Axis)
    ensures a == X <==> name == "X"
    ensures a == Y <==> name == "Y"
    ensures a == Z <==> name != "X" && name != "Y"
  {
    if name == "X" then X else if name == "Y" then Y else Z
  }

  /** Applying a frame's angles: X, then Y, then Z. */
  function Apply(r: Angles): seq<AxisRotation>
  {
    [AxisRotation(X, r.x), AxisRotation(Y, r.y), AxisRotation(Z, r.z)]
  }

  /** Undoing a frame's angles: the negated angles about Z, then Y, then X. */
  function Undo(r: Angles): seq<AxisRotation>
  {
    [AxisRotation(Z, -r.z), AxisRotation(Y, -r.y), AxisRotation(X, -r.x)]
  }

  function Negate(r: AxisRotation): AxisRotation
  {
    AxisRotation(r.axis, -r.radian)
  }

  /** The inverse of a log: its calls reversed, each negated. */
  function Inverse(w: seq<AxisRotation>): (v: seq<AxisRotation>)
    ensures |v| == |w|
  {
    if w == [] then [] else Inverse(w[1..]) + [Negate(w[0])]
  }

  lemma {:induction false} InverseAt(w: seq<AxisRotation>, k: nat)
    requires k < |w|
    ensures Inverse(w)[k] == Negate(w[|w| - 1 - k])
  {
    if k < |w| - 1 {
      InverseAt(w[1..], k);
    }
  }

  /** Each frame's undo is the inverse of the previous frame's apply. */
  lemma UndoIsInverseOfApply(r: Angles)
    ensures Undo(r) == Inverse(Apply(r))
  {
    var w := Apply(r);
    InverseAt(w, 0);
    InverseAt(w, 1);
    InverseAt(w, 2);
  }

  // ---------------------------------------------------------------------------
  // Normal form

  /** No rotation by 0 and no two neighbours about the same axis. */
  ghost predicate Reduced(st: seq<AxisRotation>)
  {
    (forall k :: 0 <= k < |st| ==> st[k].radian != 0.0) &&
    (forall k :: 0 <= k < |st| - 1 ==> st[k].axis != st[k + 1].axis)
  }

  /** Adding one rotation to a reduced log. */
  function Step(st: seq<AxisRotation>, r: AxisRotation): seq<AxisRotation>
  {
    if r.radian == 0.0 then st
    else if st != [] && st[|st| - 1].axis == r.axis then
      var sum := st[|st| - 1].radian + r.radian;
      if sum == 0.0 then st[..|st| - 1] else st[..|st| - 1] + [AxisRotation(r.axis, sum)]
    else st + [r]
  }

  function ReduceFrom(st: seq<AxisRotation>, w: seq<AxisRotation>): seq<AxisRotation>
    decreases |w|
  {
    if w == [] then st else ReduceFrom(Step(st, w[0]), w[1..])
  }

  function Reduce(w: seq<AxisRotation>): seq<AxisRotation>
  {
    ReduceFrom([], w)
  }

  lemma StepKeepsReduced(st: seq<AxisRotation>, r: AxisRotation)
    requires Reduced(st)
    ensures Reduced(Step(st, r))
  {
    if r.radian != 0.0 && st != [] && st[|st| - 1].axis == r.axis {
      var init := st[..|st| - 1];
      assert forall k :: 0 <= k < |init| ==> init[k] == st[k];
    }
  }

  lemma {:induction false} ReduceFromKeepsReduced(st: seq<AxisRotation>, w: seq<AxisRotation>)
    requires Reduced(st)
    ensures Reduced(ReduceFrom(st, w))
    decreases |w|
  {
    if w != [] {
      StepKeepsReduced(st, w[0]);
      ReduceFromKeepsReduced(Step(st, w[0]), w[1..]);
    }
  }

  /** A rotation followed by its negation cancels on a reduced log. */
  lemma StepCancels(st: seq<AxisRotation>, r: AxisRotation)
    requires Reduced(st)
    ensures Step(Step(st, r), Negate(r)) == st
  {
    if r.radian != 0.0 {
      if st != [] && st[|st| - 1].axis == r.axis {
        var init, last := st[..|st| - 1], st[|st| - 1];
        var sum := last.radian + r.radian;
        if sum == 0.0 {
          assert init != [] ==> init[|init| - 1] == st[|st| - 2];
          assert init + [AxisRotation(r.axis, last.radian)] == st;
        } else {
          var st1 := init + [AxisRotation(r.axis, sum)];
          assert st1[..|st1| - 1] == init;
          assert init + [AxisRotation(r.axis, last.radian)] == st;
        }
      } else {
        assert (st + [r])[..|st|] == st;
      }
    }
  }

  /** Reducing in two parts is reducing the whole. */
  lemma {:induction false} ReduceFromAppend(st: seq<AxisRotation>, s: seq<AxisRotation>, t: seq<AxisRotation>)
    ensures ReduceFrom(st, s + t) == ReduceFrom(ReduceFrom(st, s), t)
    decreases |s|
  {
    if s != [] {
      assert (s + t)[0] == s[0];
      assert (s + t)[1..] == s[1..] + t;
      assert ReduceFrom(st, s + t) == ReduceFrom(Step(st, s[0]), s[1..] + t);
      assert ReduceFrom(st, s) == ReduceFrom(Step(st, s[0]), s[1..]);
      ReduceFromAppend(Step(st, s[0]), s[1..], t);
    } else {
      assert s + t == t;
    }
  }

  /** A log followed by its inverse leaves a reduced log as it was. */
  lemma {:induction false} ReduceFromCancels(st: seq<AxisRotation>, w: seq<AxisRotation>)
    requires Reduced(st)
    ensures ReduceFrom(st, w + Inverse(w)) == st
    decreases |w|
  {
    if w != [] {
      var r, rest := w[0], w[1..];
      var st1 := Step(st, r);
      StepKeepsReduced(st, r);
      assert w + Inverse(w) == [r] + ((rest + Inverse(rest)) + [Negate(r)]);
      calc {
        ReduceFrom(st, w + Inverse(w));
        ReduceFrom(st1, (rest + Inverse(rest)) + [Negate(r)]);
        { ReduceFromAppend(st1, rest + Inverse(rest), [Negate(r)]); }
        ReduceFrom(ReduceFrom(st1, rest + Inverse(rest)), [Negate(r)]);
        { ReduceFromCancels(st1, rest); }
        ReduceFrom(st1, [Negate(r)]);
        Step(st1, Negate(r));
        { StepCancels(st, r); }
        st;
      }
    }
  }

  /** The logs of two histories with the same normal form stay equivalent when both are
      extended by the same calls. */
  lemma ReduceCongruent(u: seq<AxisRotation>, v: seq<AxisRotation>, t: seq<AxisRotation>)
    requires Reduce(u) == Reduce(v)
    ensures Reduce(u + t) == Reduce(v + t)
  {
    ReduceFromAppend([], u, t);
    ReduceFromAppend([], v, t);
  }

  /** No drift: if an object's log is equivalent to applying last frame's angles once, then
      after this frame's undo and apply it is equivalent to applying the new angles once,
      whatever happened before. */
  lemma FrameIsDriftFree(log: seq<AxisRotation>, r0: Angles, r1: Angles)
    requires Reduce(log) == Reduce(Apply(r0))
    ensures Reduce(log + Undo(r0) + Apply(r1)) == Reduce(Apply(r1))
  {
    UndoIsInverseOfApply(r0);
    var w := Apply(r0);
    assert log + Undo(r0) + Apply(r1) == log + (Undo(r0) + Apply(r1));
    ReduceCongruent(log, w, Undo(r0) + Apply(r1));
    assert w + (Undo(r0) + Apply(r1)) == (w + Inverse(w)) + Apply(r1);
    ReduceFromAppend([], w + Inverse(w), Apply(r1));
    ReduceFromCancels([], w);
  }

  /** Applying a frame's angles is the inverse of undoing them. */
  lemma ApplyIsInverseOfUndo(r: Angles)
    ensures Apply(r) == Inverse(Undo(r))
  {
    var w := Undo(r);
    InverseAt(w, 0);
    InverseAt(w, 1);
    InverseAt(w, 2);
  }

  /** A frame whose estimate repeats the previous one leaves the orientation unchanged. */
  lemma RepeatedEstimateIsIdempotent(log: seq<AxisRotation>, r: Angles)
    ensures Reduce(log + Undo(r) + Apply(r)) == Reduce(log)
  {
    var w := Undo(r);
    ApplyIsInverseOfUndo(r);
    assert log + Undo(r) + Apply(r) == log + (w + Inverse(w));
    ReduceFromAppend([], log, w + Inverse(w));
    ReduceFromKeepsReduced([], log);
    ReduceFromCancels(Reduce(log), w);
  }

  /** Before any frame the object is at its loaded orientation. */
  lemma NoRotationIsIdentity()
    ensures Reduce(Apply(NoRotation)) == []
  {
  }

  /** An object attached after a frame with angles r0 receives an undo it never had applied:
      with r0 = (0.5, 0, 0) and a next estimate of (0, 0, 0), its log normalises to a rotation
      by -0.5 about X instead of to the identity. */
  lemma LateAttachmentDrifts()
    ensures var r0, r1 := Angles(0.5, 0.0, 0.0), NoRotation;
            Reduce(Undo(r0) + Apply(r1)) == [AxisRotation(X, -0.5)] &&
            Reduce(Apply(r1)) == []
  {
    var minus := AxisRotation(X, -0.5);
    var w := Undo(Angles(0.5, 0.0, 0.0)) + Apply(NoRotation);
    assert w == [AxisRotation(Z, 0.0), AxisRotation(Y, 0.0), minus,
                 AxisRotation(X, 0.0), AxisRotation(Y, 0.0), AxisRotation(Z, 0.0)];
    calc {
      Reduce(w);
      ReduceFrom([], w[1..]);
      ReduceFrom([], w[2..]);
      ReduceFrom([minus], w[3..]);
      ReduceFrom([minus], w[4..]);
      ReduceFrom([minus], w[5..]);
      ReduceFrom([minus], w[6..]);
      [minus];
    }
  }
}
