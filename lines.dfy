/**
 * The "hairy sphere" of script.js: `createLines` builds 56 lines of 35 dots,
 * each line with a random colour, phase speed, wave, radius and spin, its dots
 * evenly spaced along x from -radius; `updateDots` rewrites the y of every dot
 * of every line from the elapsed time once per frame.  `Math.random()` results
 * are supplied as reals in [0, 1) and `Math.sin` as a function argument.
 */
module HairyLines {

  /** The `params` object: base radius, number of lines, dots per line, the two line colours. */
  const BaseRadius: int := 25
  const LineCount: nat := 56
  const LineDots: nat := 35
  const Hotpink: nat := 0xff1493
  const Pink: nat := 0xff69ba

  /** `Math.PI`, as the shortest decimal that rounds to that double. */
  const Pi: real := 3.141592653589793

  function Abs(x: real): real
  {
    if x < 0.0 then -x else x
  }

  datatype Vector = Vector(x: real, y: real, z: real)

  /** One `THREE.Line` child of the sphere group with the extra fields createLines sets. */
  datatype Line = Line(color: nat, speed: real, wave: real, radius: int, spin: real, vertices: seq<Vector>)

  /** The five `Math.random()` results drawn for one line, in the order createLines draws them. */
  datatype LineDraw = LineDraw(color: real, speed: real, wave: real, radius: real, spin: real)

  predicate InUnit(u: real)
  {
    0.0 <= u < 1.0
  }

  predicate DrawInRange(d: LineDraw)
  {
    InUnit(d.color) && InUnit(d.speed) && InUnit(d.wave) && InUnit(d.radius) && InUnit(d.spin)
  }

  /** The colour of a line: hot pink for a draw above 0.3 (about 70% of the lines),
      the lighter pink otherwise. */
  function LineColor(u: real): (c: nat)
    ensures c == Hotpink || c == Pink
    ensures c == Hotpink <==> u > 0.3
  {
    if u > 0.3 then Hotpink else Pink
  }

  /** The phase speed of a line: the draw scaled to a width of 200 and shifted to start at 520. */
  function LineSpeed(u: real): (s: real)
    ensures InUnit(u) ==> 520.0 <= s < 720.0
  {
    u * 200.0 + 520.0
  }

  /** The radius of a line: the base radius jittered by up to 10% either way and
      rounded down, an integer in [22, 27]. */
  function LineRadius(u: real): (r: int)
    ensures InUnit(u) ==> 22 <= r <= 27
  {
    var jittered := (BaseRadius as real) + (u - 0.5) * ((BaseRadius as real) * 0.2);
    assert InUnit(u) ==> 22.5 <= jittered < 27.5;
    jittered.Floor
  }

  /** The x of dot j of `dots` on a line of the given radius: the dots start at
      -radius and stay short of +radius. */
  function DotX(j: nat, dots: nat, radius: int): (x: real)
    requires dots > 0
    ensures j == 0 ==> x == -(radius as real)
    ensures j < dots && radius > 0 ==> -(radius as real) <= x < (radius as real)
  {
    ((j as real) / (dots as real)) * (radius as real) * 2.0 - (radius as real)
  }

  /** The amplitude factor `1 - (radius - |x|) / radius`; it is |x| / radius, so
      it lies in [0, 1] on the line. */
  function Ratio(x: real, radius: real): (q: real)
    requires radius > 0.0
    ensures q == Abs(x) / radius
    ensures Abs(x) <= radius ==> 0.0 <= q <= 1.0
  {
    1.0 - (radius - Abs(x)) / radius
  }

  /** The phase of dot j at time a: the time scaled by the line's speed, plus a
      stagger of 0.15 per dot along the line. */
  function Phase(a: real, speed: real, j: nat): (p: real)
    requires speed != 0.0
    ensures speed > 0.0 && a >= 0.0 ==> p >= (j as real) * 0.15
  {
    a / speed + (j as real) * 0.15
  }

  /** The new y of a dot, `sin(phase) * 8 * ratio`, given the value s of the sine. */
  function DotY(s: real, x: real, radius: real): (y: real)
    requires radius > 0.0
    ensures -1.0 <= s <= 1.0 && Abs(x) <= radius ==> Abs(y) <= 8.0
  {
    var q := Ratio(x, radius);
    assert -1.0 <= s <= 1.0 && Abs(x) <= radius ==> Abs(s * 8.0 * q) <= 8.0 by {
      if -1.0 <= s <= 1.0 && Abs(x) <= radius {
        AmplitudeBound(s, q);
      }
    }
    s * 8.0 * q
  }

  lemma AmplitudeBound(s: real, q: real)
    requires -1.0 <= s <= 1.0 && 0.0 <= q <= 1.0
    ensures Abs(s * 8.0 * q) <= 8.0
  {
    if s >= 0.0 {
      assert 0.0 <= s * q <= 1.0 * q;
      assert Abs(s * 8.0 * q) == (s * q) * 8.0;
    } else {
      assert 0.0 <= (-s) * q <= 1.0 * q;
      assert Abs(s * 8.0 * q) == ((-s) * q) * 8.0;
    }
  }

  // ----- the dot layout -----

  lemma DotXFirst(dots: nat, radius: int)
    requires dots > 0
    ensures DotX(0, dots, radius) == -(radius as real)
  {
  }

  /** The last dot is at radius - 2 * radius / dots, short of the line's end. */
  lemma DotXLast(dots: nat, radius: int)
    requires dots > 0
    ensures DotX(dots - 1, dots, radius) == (radius as real) - 2.0 * (radius as real) / (dots as real)
  {
  }

  /** Consecutive dots are 2 * radius / dots apart. */
  lemma DotXSpacing(j: nat, dots: nat, radius: int)
    requires dots > 0
    ensures DotX(j + 1, dots, radius) - DotX(j, dots, radius) == 2.0 * (radius as real) / (dots as real)
  {
  }

  /** On a line of positive radius the dots' x strictly increase with the index. */
  lemma DotXIncreasing(j: nat, k: nat, dots: nat, radius: int)
    requires dots > 0 && radius > 0 && j < k
    ensures DotX(j, dots, radius) < DotX(k, dots, radius)
  {
  }

  /** Every dot lies in [-radius, radius). */
  lemma DotXRange(j: nat, dots: nat, radius: int)
    requires j < dots && radius > 0
    ensures -(radius as real) <= DotX(j, dots, radius) < (radius as real)
  {
  }

  /** The amplitude factor is largest at the first dot: it is 1 there and no
      more than 1 anywhere on the line. */
  lemma FirstDotSwingsMost(j: nat, dots: nat, radius: int)
    requires j < dots && radius > 0
    ensures Ratio(DotX(0, dots, radius), radius as real) == 1.0
    ensures Ratio(DotX(j, dots, radius), radius as real) <= 1.0
  {
  }

  /** Along a line the phase advances by 0.15 from one dot to the next, so the
      dots trace a travelling wave. */
  lemma PhaseStagger(a: real, speed: real, j: nat)
    requires speed != 0.0
    ensures Phase(a, speed, j + 1) - Phase(a, speed, j) == 0.15
  {
  }

  /** The amplitude factor of a point c·radius along the line is |c|. */
  lemma RatioOfMultiple(c: real, radius: real)
    requires radius > 0.0
    ensures Ratio(c * radius, radius) == Abs(c)
  {
    assert Abs(c * radius) == Abs(c) * radius;
    assert Abs(c) * radius / radius == Abs(c);
  }

  /** No dot sits at the centre of a 35-dot line: the amplitude factor is at least
      1/35 at every dot, and exactly 1/35 at the middle dot 17. */
  lemma SmallestSwing(j: nat, radius: int)
    requires j < LineDots && radius > 0
    ensures Ratio(DotX(j, LineDots, radius), radius as real) >= 1.0 / 35.0
    ensures Ratio(DotX(17, LineDots, radius), radius as real) == 1.0 / 35.0
  {
    var r := radius as real;
    var c := ((2 * j - 35) as real) / 35.0;
    assert DotX(j, LineDots, radius) == c * r;
    RatioOfMultiple(c, r);
    assert Abs(c) >= 1.0 / 35.0;
    assert DotX(17, LineDots, radius) == (-1.0 / 35.0) * r;
    RatioOfMultiple(-1.0 / 35.0, r);
  }

  // ----- the line group -----

  /** What holds of every line of the group, before and after every frame. */
  ghost predicate WellFormed(l: Line)
  {
    && 22 <= l.radius <= 27
    && 520.0 <= l.speed < 720.0
    && |l.vertices| == LineDots
    && forall j :: 0 <= j < |l.vertices| ==> l.vertices[j].x == DotX(j, LineDots, l.radius) && l.vertices[j].z == 0.0
  }

  /** l2 is l with only the y of some dots changed. */
  ghost predicate SameButY(l: Line, l2: Line)
  {
    && l2.(vertices := l.vertices) == l
    && |l2.vertices| == |l.vertices|
    && forall j :: 0 <= j < |l.vertices| ==> l2.vertices[j] == l.vertices[j].(y := l2.vertices[j].y)
  }

  /** The inner loop of updateDots for one line: the y of each of its dots at time a. */
  method WaveLine(line: Line, a: real, sin: real -> real) returns (vertices: seq<Vector>)
    requires WellFormed(line)
    ensures |vertices| == |line.vertices|
    ensures forall j :: 0 <= j < |vertices| ==>
      vertices[j] == line.vertices[j].(y := DotY(sin(Phase(a, line.speed, j)), line.vertices[j].x, line.radius as real))
  {
    vertices := line.vertices;
    for j := 0 to LineDots
      invariant |vertices| == LineDots
      invariant forall m :: j <= m < LineDots ==> vertices[m] == line.vertices[m]
      invariant forall m :: 0 <= m < j ==>
        vertices[m] == line.vertices[m].(y := DotY(sin(Phase(a, line.speed, m)), line.vertices[m].x, line.radius as real))
    {
      var vector := vertices[j];
      var ratio := Ratio(vector.x, line.radius as real);
      var y := sin(Phase(a, line.speed, j)) * 8.0 * ratio;
      vertices := vertices[j := vector.(y := y)];
    }
  }

  /** The `sphere` group and its line children. */
  class Sphere {
    var lines: seq<Line>

    ghost predicate Valid()
      reads this
    {
      |lines| == LineCount && forall i :: 0 <= i < |lines| ==> WellFormed(lines[i])
    }

    /** createLines, drawing the random values of line i from draws[i]. */
    constructor (draws: seq<LineDraw>)
      requires |draws| == LineCount
      requires forall i :: 0 <= i < |draws| ==> DrawInRange(draws[i])
      ensures Valid() && |lines| == |draws|
      ensures forall i :: 0 <= i < |lines| ==>
        && lines[i].color == LineColor(draws[i].color)
        && lines[i].speed == LineSpeed(draws[i].speed)
        && lines[i].wave == draws[i].wave
        && lines[i].radius == LineRadius(draws[i].radius)
        && lines[i].spin == draws[i].spin * Pi
      ensures forall i, j :: 0 <= i < |lines| && 0 <= j < |lines[i].vertices| ==>
        lines[i].vertices[j] == Vector(DotX(j, LineDots, lines[i].radius), 0.0, 0.0)
    {
      var children: seq<Line> := [];
      for i := 0 to LineCount
        invariant |children| == i
        invariant forall k :: 0 <= k < i ==> WellFormed(children[k])
        invariant forall k :: 0 <= k < i ==>
          && children[k].color == LineColor(draws[k].color)
          && children[k].speed == LineSpeed(draws[k].speed)
          && children[k].wave == draws[k].wave
          && children[k].radius == LineRadius(draws[k].radius)
          && children[k].spin == draws[k].spin * Pi
        invariant forall k, j :: 0 <= k < i && 0 <= j < |children[k].vertices| ==>
          children[k].vertices[j] == Vector(DotX(j, LineDots, children[k].radius), 0.0, 0.0)
      {
        var d := draws[i];
        var radius := LineRadius(d.radius);
        var vertices: seq<Vector> := [];
        for j := 0 to LineDots
          invariant |vertices| == j
          invariant forall m :: 0 <= m < j ==> vertices[m] == Vector(DotX(m, LineDots, radius), 0.0, 0.0)
        {
          var x := ((j as real) / (LineDots as real)) * (radius as real) * 2.0 - (radius as real);
          vertices := vertices + [Vector(x, 0.0, 0.0)];
        }
        children := children + [Line(LineColor(d.color), LineSpeed(d.speed), d.wave, radius, d.spin * Pi, vertices)];
      }
      lines := children;
    }

    /** updateDots(a): every dot of every line gets the y of its phase at time a;
        nothing else changes. */
    method UpdateDots(a: real, sin: real -> real)
      requires Valid()
      modifies this
      ensures Valid()
      ensures |lines| == |old(lines)|
      ensures forall i :: 0 <= i < |lines| ==> SameButY(old(lines)[i], lines[i])
      ensures forall i, j :: 0 <= i < |lines| && 0 <= j < |lines[i].vertices| ==>
        lines[i].vertices[j].y == DotY(sin(Phase(a, lines[i].speed, j)), lines[i].vertices[j].x, lines[i].radius as real)
      ensures (forall t :: -1.0 <= sin(t) <= 1.0) ==>
        forall i, j :: 0 <= i < |lines| && 0 <= j < |lines[i].vertices| ==> Abs(lines[i].vertices[j].y) <= 8.0
    {
      for i := 0 to LineCount
        invariant |lines| == LineCount
        invariant forall k :: 0 <= k < |lines| ==> WellFormed(lines[k]) && SameButY(old(lines)[k], lines[k])
        invariant forall k :: i <= k < |lines| ==> lines[k] == old(lines)[k]
        invariant forall k, j :: 0 <= k < i && 0 <= j < |lines[k].vertices| ==>
          lines[k].vertices[j].y == DotY(sin(Phase(a, lines[k].speed, j)), lines[k].vertices[j].x, lines[k].radius as real)
      {
        var vertices := WaveLine(lines[i], a, sin);
        lines := lines[i := lines[i].(vertices := vertices)];
      }

      if forall t :: -1.0 <= sin(t) <= 1.0 {
        forall i, j | 0 <= i < |lines| && 0 <= j < |lines[i].vertices|
          ensures Abs(lines[i].vertices[j].y) <= 8.0
        {
          DotXRange(j, LineDots, lines[i].radius);
        }
      }
    }
  }
}
