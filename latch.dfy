/**
 * The direction latch of `update` (script.js): the module-level flag
 * `hasEnteredRight` and the two ball tweens it launches.  A sample above 0.5
 * while not entered launches the "right" tween and sets the latch; a sample
 * below -0.5 while entered launches the "left" tween and clears it; every
 * other sample, in particular every sample of the band [-0.5, 0.5], does
 * nothing.
 */
module Latch {
  import opened Wrappers

  /** Which of startAnimationRight / startAnimationLeft was launched. */
  datatype Direction = Right | Left

  /** The x positions of the two balls, `ball` and `ball2`. */
  datatype BallXs = BallXs(ballX: real, ball2X: real)

  /** The positions a tween animates the balls to, and the tween's duration. */
  datatype Tween = Tween(target: BallXs, duration: real)

  /** Where the balls are placed by createMeshes: `ball` at x = -45, `ball2` at x = 45. */
  const InitialBalls: BallXs := BallXs(-45.0, 45.0)

  /** The timeline each launch starts: both balls over 1.9 with elastic easing,
      to opposite sides 45 from the centre, `ball` to the side named by the launch. */
  function StartAnimation(d: Direction): (t: Tween)
    ensures t.duration == 1.9
    ensures t.target.ball2X == -t.target.ballX
    ensures t.target.ballX == 45.0 || t.target.ballX == -45.0
    ensures t.target.ballX > 0.0 <==> d == Right
  {
    match d
    case Right => Tween(BallXs(45.0, -45.0), 1.9)
    case Left => Tween(BallXs(-45.0, 45.0), 1.9)
  }

  /** The new latch and the launched tween (if any) of one call of `update`. */
  datatype StepResult = StepResult(entered: bool, launch: Option<Direction>)

  function Step(entered: bool, mouseX: real): (r: StepResult)
    // a tween is launched exactly when the latch flips ...
    ensures r.launch.Some? <==> r.entered != entered
    // ... and it is the right tween exactly when the latch is set
    ensures r.launch == Some(Right) <==> !entered && r.entered
    ensures r.launch == Some(Left) <==> entered && !r.entered
    // the latch only flips on a sample outside the band [-0.5, 0.5]
    ensures r.entered != entered ==> mouseX > 0.5 || mouseX < -0.5
  {
    if mouseX > 0.5 && !entered then StepResult(true, Some(Right))
    else if mouseX < -0.5 && entered then StepResult(false, Some(Left))
    else StepResult(entered, None)
  }

  /** The latch after a sequence of samples and every tween launched on the way, in order. */
  datatype RunResult = RunResult(entered: bool, launches: seq<Direction>)

  function Run(entered: bool, samples: seq<real>): (r: RunResult)
    // at most one launch per sample, and the latch moves only if something was launched
    ensures |r.launches| <= |samples|
    ensures r.launches == [] ==> r.entered == entered
    decreases |samples|
  {
    if samples == [] then RunResult(entered, [])
    else
      var prev := Run(entered, samples[..|samples| - 1]);
      var s := Step(prev.entered, samples[|samples| - 1]);
      RunResult(s.entered, prev.launches + ToSeq(s.launch))
  }

  /** One more sample takes one more step from where the earlier ones left the latch. */
  lemma RunExtend(entered: bool, samples: seq<real>, x: real)
    ensures var prev := Run(entered, samples);
      var s := Step(prev.entered, x);
      Run(entered, samples + [x]) == RunResult(s.entered, prev.launches + ToSeq(s.launch))
  {
    assert (samples + [x])[..|samples|] == samples;
  }

  /** Launches alternate Right, Left, Right, ..., starting with Right. */
  ghost predicate Alternating(ds: seq<Direction>)
  {
    forall k :: 0 <= k < |ds| ==> ds[k] == if k % 2 == 0 then Right else Left
  }

  function Count(ds: seq<Direction>, d: Direction): nat
    decreases |ds|
  {
    if ds == [] then 0
    else Count(ds[..|ds| - 1], d) + (if ds[|ds| - 1] == d then 1 else 0)
  }

  /** Where the balls come to rest once every launched tween has ended (the later tween wins). */
  function Settled(ds: seq<Direction>): (b: BallXs)
    ensures b.ball2X == -b.ballX
    ensures b.ballX == 45.0 || b.ballX == -45.0
    ensures ds == [] ==> b == InitialBalls
  {
    if ds == [] then InitialBalls else StartAnimation(ds[|ds| - 1]).target
  }

  // ----- one sample -----

  /** From the cleared latch a sample above 0.5 launches the right tween once;
      further samples above 0.5 change nothing. */
  lemma EnterRightOnce(x: real, y: real)
    requires x > 0.5 && y > 0.5
    ensures Step(false, x) == StepResult(true, Some(Right))
    ensures Step(Step(false, x).entered, y) == StepResult(true, None)
  {
  }

  /** From the set latch a sample below -0.5 launches the left tween once;
      below -0.5 with the latch cleared nothing happens. */
  lemma EnterLeftOnce(x: real, y: real)
    requires x < -0.5 && y < -0.5
    ensures Step(true, x) == StepResult(false, Some(Left))
    ensures Step(Step(true, x).entered, y) == StepResult(false, None)
  {
  }

  /** The tween launched on leaving to the left mirrors the one launched on entering the right. */
  lemma MirroredTweens()
    ensures StartAnimation(Left).target.ballX == StartAnimation(Right).target.ball2X
    ensures StartAnimation(Left).target.ball2X == StartAnimation(Right).target.ballX
    ensures StartAnimation(Left).duration == StartAnimation(Right).duration
  {
  }

  // ----- sequences of samples -----

  /** Samples in the band [-0.5, 0.5] never change the latch and never launch. */
  lemma {:induction false} DeadZone(entered: bool, samples: seq<real>)
    requires forall k :: 0 <= k < |samples| ==> -0.5 <= samples[k] <= 0.5
    ensures Run(entered, samples) == RunResult(entered, [])
    decreases |samples|
  {
    if samples != [] {
      DeadZone(entered, samples[..|samples| - 1]);
    }
  }

  /** Holding the pointer on the right launches the right tween at most once:
      exactly once from the cleared latch, never from the set one. */
  lemma {:induction false} HoldRight(entered: bool, samples: seq<real>)
    requires forall k :: 0 <= k < |samples| ==> samples[k] > 0.5
    ensures Run(entered, samples).entered == (entered || samples != [])
    ensures Run(entered, samples).launches == if !entered && samples != [] then [Right] else []
    decreases |samples|
  {
    if samples != [] {
      HoldRight(entered, samples[..|samples| - 1]);
    }
  }

  /** From the initial cleared latch, launches strictly alternate starting with
      Right, and the latch is set exactly when an odd number were launched. */
  lemma {:induction false} RunAlternates(samples: seq<real>)
    ensures Alternating(Run(false, samples).launches)
    ensures Run(false, samples).entered <==> |Run(false, samples).launches| % 2 == 1
    decreases |samples|
  {
    if samples != [] {
      var init := samples[..|samples| - 1];
      RunAlternates(init);
    }
  }

  lemma {:induction false} CountAlternating(ds: seq<Direction>)
    requires Alternating(ds)
    ensures Count(ds, Right) == (|ds| + 1) / 2
    ensures Count(ds, Left) == |ds| / 2
    decreases |ds|
  {
    if ds != [] {
      var init := ds[..|ds| - 1];
      assert Alternating(init) by {
        forall k | 0 <= k < |init| ensures init[k] == if k % 2 == 0 then Right else Left {
          assert init[k] == ds[k];
        }
      }
      CountAlternating(init);
    }
  }

  /** From the initial cleared latch the latch is set exactly when more right
      tweens than left tweens were launched, and then by exactly one. */
  lemma LatchCountsLaunches(samples: seq<real>)
    ensures var r := Run(false, samples);
      && (r.entered <==> Count(r.launches, Right) > Count(r.launches, Left))
      && Count(r.launches, Right) == Count(r.launches, Left) + (if r.entered then 1 else 0)
  {
    RunAlternates(samples);
    CountAlternating(Run(false, samples).launches);
  }

  /** Once the tweens have ended, `ball` rests at x = 45 exactly when the latch
      is set, at -45 otherwise, and `ball2` always opposite it. */
  lemma SettledFollowsLatch(samples: seq<real>)
    ensures var r := Run(false, samples);
      && Settled(r.launches).ballX == (if r.entered then 45.0 else -45.0)
      && Settled(r.launches).ball2X == -Settled(r.launches).ballX
  {
  }

  /** One more call of `update` from a state reached from the initial latch: the new
      state is that of the extended run, launches still alternate, and the balls
      settle on the latch's side. */
  lemma StepExtendsRun(samples: seq<real>, x: real, launches: seq<Direction>, entered: bool, next: StepResult)
    requires Run(false, samples) == RunResult(entered, launches)
    requires next == Step(entered, x)
    ensures Run(false, samples + [x]) == RunResult(next.entered, launches + ToSeq(next.launch))
    ensures Alternating(launches + ToSeq(next.launch))
    ensures Settled(launches + ToSeq(next.launch)).ballX == if next.entered then 45.0 else -45.0
  {
    RunExtend(false, samples, x);
    RunAlternates(samples + [x]);
    SettledFollowsLatch(samples + [x]);
  }

  /** The sequence 0, 0.6, 0.6, 0.6, -0.6 launches right once, then left once. */
  lemma HysteresisExample()
    ensures Run(false, [0.0, 0.6, 0.6, 0.6, -0.6]) == RunResult(false, [Right, Left])
  {
    var xs := [0.0, 0.6, 0.6, 0.6, -0.6];
    assert xs[..1] == [0.0] && [0.0][..0] == [];
    assert Run(false, xs[..1]) == RunResult(false, []);
    assert xs[..2][..1] == xs[..1];
    assert Run(false, xs[..2]) == RunResult(true, [Right]);
    assert xs[..3][..2] == xs[..2];
    assert Run(false, xs[..3]) == RunResult(true, [Right]);
    assert xs[..4][..3] == xs[..3];
    assert Run(false, xs[..4]) == RunResult(true, [Right]);
    assert xs[..4] == xs[..|xs| - 1];
  }
}
