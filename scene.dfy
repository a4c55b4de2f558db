/**
 * `update` (script.js): the pointer-driven transforms of the torus, the thin
 * torus and the small disc, the x-scale of every box, and the direction latch
 * with its launched ball tweens.  The module-level meshes and `hasEnteredRight`
 * become the fields of one `Scene` object; the pointer sample `mouseX` is the
 * argument of `Update`.
 */
module SceneUpdate {
  import opened Wrappers
  import Latch

  /** `factor = Math.PI / 2`, as the shortest decimal that rounds to that double. */
  const Factor: real := 1.5707963267948966

  /** createMeshes clones six boxes. */
  const BoxCount: nat := 6

  /** A mesh's Euler rotation. */
  datatype Rotation = Rotation(x: real, y: real, z: real)

  /** New rotation of the torus: only its y angle follows the pointer, by at most
      a quarter turn either way over the normalised range [-1, 1]. */
  function TorusRotation(r: Rotation, mouseX: real): (r2: Rotation)
    ensures r2.x == r.x && r2.z == r.z
    ensures -1.0 <= mouseX <= 1.0 ==> -Factor <= r2.y <= Factor
  {
    r.(y := Factor * mouseX)
  }

  /** New rotation of the thin torus torus2: its y and z angles swing by at most a
      quarter turn around 1.57, in opposite directions. */
  function Torus2Rotation(r: Rotation, mouseX: real): (r2: Rotation)
    ensures r2.x == r.x
    ensures -1.0 <= mouseX <= 1.0 ==> 1.57 - Factor <= r2.y <= 1.57 + Factor && 1.57 - Factor <= r2.z <= 1.57 + Factor
    ensures r2.y - 1.57 == -(r2.z - 1.57)
  {
    r.(y := -Factor * mouseX + 1.57, z := Factor * mouseX + 1.57)
  }

  /** New rotation of the small disc disc2: its y and z angles turn by at most a
      quarter turn, in opposite directions. */
  function Disc2Rotation(r: Rotation, mouseX: real): (r2: Rotation)
    ensures r2.x == r.x
    ensures -1.0 <= mouseX <= 1.0 ==> -Factor <= r2.z <= Factor && -Factor <= r2.y <= Factor
    ensures r2.y == -r2.z
  {
    r.(y := -Factor * mouseX, z := Factor * mouseX)
  }

  /** New x-scale of the box at index i of `boxes`: the top box (index 0) and every
      box under a centred pointer keep scale 1, and the stretch grows with the index
      in the direction of the pointer. */
  function BoxScaleX(i: nat, mouseX: real): (s: real)
    ensures i == 0 || mouseX == 0.0 ==> s == 1.0
    ensures mouseX > 0.0 ==> s >= 1.0
    ensures mouseX < 0.0 ==> s <= 1.0
  {
    1.0 + 0.06 * (i as real) * Factor * mouseX
  }

  /** With the pointer centred every box has scale 1 and the angles are those of rest. */
  lemma CentredPointer(r: Rotation, i: nat)
    ensures BoxScaleX(i, 0.0) == 1.0
    ensures TorusRotation(r, 0.0) == r.(y := 0.0)
    ensures Torus2Rotation(r, 0.0) == r.(y := 1.57, z := 1.57)
    ensures Disc2Rotation(r, 0.0) == r.(y := 0.0, z := 0.0)
  {
  }

  /** The torus's angle is linear in the pointer with slope factor: at the edges
      of the normalised range it is -factor and +factor. */
  lemma TorusLinear(r: Rotation, m1: real, m2: real)
    ensures TorusRotation(r, m2).y - TorusRotation(r, m1).y == Factor * (m2 - m1)
    ensures TorusRotation(r, -1.0).y == -Factor && TorusRotation(r, 1.0).y == Factor
  {
  }

  /** Boxes further down the stack stretch more: for a pointer on the right the
      scales grow with the index, on the left they shrink. */
  lemma BoxScalesOrdered(i: nat, j: nat, mouseX: real)
    requires i < j
    ensures mouseX > 0.0 ==> BoxScaleX(i, mouseX) < BoxScaleX(j, mouseX)
    ensures mouseX < 0.0 ==> BoxScaleX(i, mouseX) > BoxScaleX(j, mouseX)
  {
  }

  /** For a pointer in [-1, 1] box i's scale stays within 0.06 * i * factor of 1,
      so it is positive for each of the six boxes. */
  lemma BoxScaleBounded(i: nat, mouseX: real)
    requires -1.0 <= mouseX <= 1.0
    ensures 1.0 - 0.06 * (i as real) * Factor <= BoxScaleX(i, mouseX) <= 1.0 + 0.06 * (i as real) * Factor
    ensures i < BoxCount ==> BoxScaleX(i, mouseX) > 0.0
  {
    var c := 0.06 * (i as real) * Factor;
    assert BoxScaleX(i, mouseX) == 1.0 + c * mouseX;
    if mouseX >= 0.0 {
      assert c * mouseX <= c * 1.0;
    } else {
      assert c * (-mouseX) <= c * 1.0;
    }
  }

  /** `boxes.forEach((box, i) => box.scale.x = ...)`, on the boxes' x-scales. */
  method ScaleBoxes(scaleX: array<real>, mouseX: real)
    modifies scaleX
    ensures forall i :: 0 <= i < scaleX.Length ==> scaleX[i] == BoxScaleX(i, mouseX)
  {
    for i := 0 to scaleX.Length
      invariant forall k :: 0 <= k < i ==> scaleX[k] == BoxScaleX(k, mouseX)
    {
      scaleX[i] := BoxScaleX(i, mouseX);
    }
  }

  /** The meshes `update` reads and writes, and the latch. */
  class Scene {
    var torus: Option<Rotation>
    var torus2: Option<Rotation>
    var disc2: Option<Rotation>
    /** `boxes[i].scale.x` */
    const boxScaleX: array<real>
    var hasEnteredRight: bool
    /** The tweens launched so far, oldest first. */
    var launched: seq<Latch.Direction>
    /** Every pointer sample `update` has been called with, oldest first. */
    ghost var samples: seq<real>

    /** The latch and the launches are those of running the latch over the samples. */
    ghost predicate Valid()
      reads this
    {
      Latch.Run(false, samples) == Latch.RunResult(hasEnteredRight, launched)
    }

    /** The state createMeshes leaves: torus2 turned by pi/2 about y, six boxes of scale 1. */
    constructor ()
      ensures Valid()
      ensures torus == Some(Rotation(0.0, 0.0, 0.0))
      ensures torus2 == Some(Rotation(0.0, Factor, 0.0))
      ensures disc2 == Some(Rotation(0.0, 0.0, 0.0))
      ensures fresh(boxScaleX) && boxScaleX.Length == BoxCount
      ensures forall i :: 0 <= i < boxScaleX.Length ==> boxScaleX[i] == 1.0
      ensures !hasEnteredRight && launched == [] && samples == []
    {
      torus := Some(Rotation(0.0, 0.0, 0.0));
      torus2 := Some(Rotation(0.0, Factor, 0.0));
      disc2 := Some(Rotation(0.0, 0.0, 0.0));
      boxScaleX := new real[BoxCount](_ => 1.0);
      hasEnteredRight := false;
      launched := [];
      samples := [];
    }

    /** One call of `update` with the current pointer sample. */
    method Update(mouseX: real) returns (launch: Option<Latch.Direction>)
      requires Valid()
      modifies this, boxScaleX
      ensures Valid()
      // the three rotations move together, and only when all three meshes exist
      ensures if old(torus).Some? && old(torus2).Some? && old(disc2).Some?
              then torus == Some(TorusRotation(old(torus).value, mouseX))
                && torus2 == Some(Torus2Rotation(old(torus2).value, mouseX))
                && disc2 == Some(Disc2Rotation(old(disc2).value, mouseX))
              else torus == old(torus) && torus2 == old(torus2) && disc2 == old(disc2)
      // every box is rescaled
      ensures forall i :: 0 <= i < boxScaleX.Length ==> boxScaleX[i] == BoxScaleX(i, mouseX)
      // the latch takes one step and the launched tween is recorded
      ensures Latch.StepResult(hasEnteredRight, launch) == Latch.Step(old(hasEnteredRight), mouseX)
      ensures launched == old(launched) + ToSeq(launch)
      ensures samples == old(samples) + [mouseX]
      // what the whole history of launches looks like afterwards
      ensures Latch.Alternating(launched)
      ensures Latch.Settled(launched).ballX == (if hasEnteredRight then 45.0 else -45.0)
    {
      if torus.Some? && torus2.Some? && disc2.Some? {
        torus := Some(TorusRotation(torus.value, mouseX));
        torus2 := Some(Torus2Rotation(torus2.value, mouseX));
        disc2 := Some(Disc2Rotation(disc2.value, mouseX));
      }

      ScaleBoxes(boxScaleX, mouseX);

      if mouseX > 0.5 && !hasEnteredRight {
        hasEnteredRight := true;
        launch := Some(Latch.Right);
      } else if mouseX < -0.5 && hasEnteredRight {
        hasEnteredRight := false;
        launch := Some(Latch.Left);
      } else {
        launch := None;
      }
      Latch.StepExtendsRun(samples, mouseX, launched, old(hasEnteredRight), Latch.StepResult(hasEnteredRight, launch));
      launched := launched + ToSeq(launch);
      samples := samples + [mouseX];
    }
  }
}
