/**
 * `colorVertices` and `randomValue` (script.js): the big torus's faces are
 * coloured in pairs, one random palette colour per pair.  Each
 * `Math.random()` result is supplied as a real in [0, 1).
 */
module FaceColors {
  import opened Wrappers

  /** A colour as the hexadecimal number given to `Color.set`. */
  type Color = nat

  /** The `colors` palette createMeshes passes to colorVertices. */
  const Palette: seq<Color> := [0xffffff, 0xffee94, 0xffc0dd, 0xff8ac0, 0xbffbcb, 0x9ae3a9, 0x72b8db, 0xa3a3a3, 0x222222, 0x010101]

  /** The index a draw picks in an array of n elements: the draw scaled by n and
      rounded down, always a valid index of a non-empty array. */
  function DrawIndex(u: real, n: nat): (k: int)
    ensures 0.0 <= u < 1.0 && n > 0 ==> 0 <= k < n
  {
    var v := u * (n as real);
    assert 0.0 <= u < 1.0 && n > 0 ==> 0.0 <= v < n as real by {
      if 0.0 <= u < 1.0 && n > 0 {
        assert (n as real) - v == (1.0 - u) * (n as real);
      }
    }
    v.Floor
  }

  /** randomValue(arr): the element at `Math.floor(Math.random() * arr.length)`,
      or `undefined` (None) when that index is outside the array. */
  function RandomValue<T>(arr: seq<T>, u: real): (r: Option<T>)
    requires 0.0 <= u < 1.0
    ensures r.Some? <==> |arr| > 0
    ensures r.Some? ==> r.value in arr
  {
    var k := DrawIndex(u, |arr|);
    if 0 <= k < |arr| then Some(arr[k]) else None
  }

  /** Every element of a non-empty array can be drawn: the draw k / n gives element k. */
  lemma EveryElementDrawable<T>(arr: seq<T>, k: nat)
    requires k < |arr|
    ensures var u := (k as real) / (|arr| as real);
      0.0 <= u < 1.0 && RandomValue(arr, u) == Some(arr[k])
  {
    var n := |arr| as real;
    var u := (k as real) / n;
    assert u * n == k as real;
    assert (k as real).Floor == k;
    assert DrawIndex(u, |arr|) == k;
    assert u < 1.0 by {
      assert (1.0 - u) * n == n - (k as real);
    }
  }

  /** The colour face i gets: that of draw i / 2. */
  function PairColor(palette: seq<Color>, draws: seq<real>, i: nat): (c: Color)
    requires |palette| > 0 && i / 2 < |draws| && 0.0 <= draws[i / 2] < 1.0
    ensures c in palette
  {
    RandomValue(palette, draws[i / 2]).value
  }

  /** colorVertices(geom, palette): faces 2k and 2k + 1 get the colour of the
      k-th draw, so every two consecutive faces from an even index share a colour. */
  method ColorVertices(faces: array<Color>, palette: seq<Color>, draws: seq<real>)
    requires |palette| > 0
    requires |draws| >= (faces.Length + 1) / 2
    requires forall k :: 0 <= k < |draws| ==> 0.0 <= draws[k] < 1.0
    modifies faces
    ensures forall i :: 0 <= i < faces.Length ==> faces[i] == PairColor(palette, draws, i)
    ensures forall i :: 0 <= i < faces.Length ==> faces[i] in palette
    ensures forall k :: 0 <= k && 2 * k + 1 < faces.Length ==> faces[2 * k] == faces[2 * k + 1]
  {
    var sharedColor := false;
    var randomCol: Color := 0;  // not read before the first face assigns it
    var next := 0;  // how many draws have been used
    for i := 0 to faces.Length
      invariant sharedColor <==> i % 2 == 1
      invariant next == (i + 1) / 2
      invariant sharedColor ==> randomCol == PairColor(palette, draws, i - 1)
      invariant forall m :: 0 <= m < i ==> faces[m] == PairColor(palette, draws, m)
    {
      if sharedColor {
        assert i / 2 == (i - 1) / 2;
        faces[i] := randomCol;
        sharedColor := !sharedColor;
      } else {
        assert next == i / 2;
        randomCol := RandomValue(palette, draws[next]).value;
        next := next + 1;
        faces[i] := randomCol;
        sharedColor := !sharedColor;
      }
    }
    forall k | 0 <= k && 2 * k + 1 < faces.Length ensures faces[2 * k] == faces[2 * k + 1] {
      assert (2 * k) / 2 == k && (2 * k + 1) / 2 == k;
    }
  }
}
