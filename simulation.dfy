/** simulate_world, tryworld, the replay in make_video and the retry loop of the
    program's entry point. Randomness is a stream of draws handed in by the
    caller, and the physics step is an opaque function on the balls. */
module Simulation {
  import opened World
  import opened Projection
  import opened Acceptance
  import opened Frames

  /** One draw is the tuple (randint(-19, 19), choice([0.3, 0.4, 0.5]),
      randint(-15, 15), randint(-15, -5)) taken by one pass of the sampling loop. */
  predicate InRanges(p: BallParams)
  {
    -19 <= p.posx <= 19 && (p.rest == 0.3 || p.rest == 0.4 || p.rest == 0.5)
    && -15 <= p.velx <= 15 && -15 <= p.vely <= -5
  }

  /** The sampling loop keeps a draw only when both velocities are nonzero. */
  predicate Usable(p: BallParams)
  {
    p.velx != 0 && p.vely != 0
  }

  /** Some draw at or after position c is usable. */
  ghost predicate UsableFrom(draws: nat -> BallParams, c: nat)
  {
    exists k: nat :: c <= k && Usable(draws(k))
  }

  /** What the random module provides: every draw is in range, and a usable draw
      always comes eventually. */
  ghost predicate RandomStream(draws: nat -> BallParams)
  {
    (forall k: nat :: InRanges(draws(k))) && (forall c: nat :: UsableFrom(draws, c))
  }

  /** Python truthiness of optional_params: None and the empty list both mean
      "draw new parameters". */
  predicate Supplied(optionalParams: Option<seq<BallParams>>)
  {
    optionalParams.Some? && |optionalParams.value| > 0
  }

  /** Draw k is the first usable draw at or after position from. */
  ghost predicate FirstUsable(draws: nat -> BallParams, from: nat, k: nat)
  {
    from <= k && Usable(draws(k)) && forall j: nat :: from <= j < k ==> !Usable(draws(j))
  }

  /** Where the sampling loop of ball i starts: the cursor for the first ball,
      just past the draw kept for the previous ball otherwise. */
  function Resume(cursor: nat, at: seq<nat>, i: nat): nat
    requires i <= |at|
  {
    if i == 0 then cursor else at[i - 1] + 1
  }

  /** ps are the tuples kept by successive runs of the sampling loop from
      cursor: ps[i] is draw at[i], the first usable draw after the one kept
      before it, and next is the position just past the last kept draw. */
  ghost predicate Sampled(draws: nat -> BallParams, cursor: nat, ps: seq<BallParams>, at: seq<nat>, next: nat)
  {
    |at| == |ps|
    && (forall i {:trigger ps[i]} :: 0 <= i < |at| ==>
          ps[i] == draws(at[i]) && FirstUsable(draws, Resume(cursor, at, i), at[i]))
    && next == Resume(cursor, at, |at|)
  }

  /** The rejection-sampling loop for one ball: draw until both velocities are
      nonzero. The result is the first usable draw at or after the cursor. */
  method SampleParams(draws: nat -> BallParams, cursor: nat) returns (p: BallParams, next: nat)
    requires forall k: nat :: cursor <= k ==> InRanges(draws(k))
    requires UsableFrom(draws, cursor)
    ensures cursor < next && p == draws(next - 1) && FirstUsable(draws, cursor, next - 1)
    ensures Usable(p) && InRanges(p)
  {
    ghost var w: nat :| cursor <= w && Usable(draws(w));
    var i := cursor;
    while true
      invariant cursor <= i <= w
      invariant forall k: nat :: cursor <= k < i ==> !Usable(draws(k))
      decreases w - i
    {
      p := draws(i);
      if p.velx != 0 && p.vely != 0 {
        break;
      }
      i := i + 1;
    }
    next := i + 1;
  }

  /** The first usable draw from a position is unique. */
  lemma FirstUsableUnique(draws: nat -> BallParams, from: nat, k: nat, k': nat)
    requires FirstUsable(draws, from, k) && FirstUsable(draws, from, k')
    ensures k == k'
  {
  }

  /** The parameters drawn for the balls are determined by the stream and the
      cursor: two samplings of the same number of balls from the same place
      keep the same draws and end at the same place. */
  lemma SampledDeterministic(draws: nat -> BallParams, cursor: nat,
                             ps: seq<BallParams>, at: seq<nat>, next: nat,
                             ps': seq<BallParams>, at': seq<nat>, next': nat)
    requires Sampled(draws, cursor, ps, at, next) && Sampled(draws, cursor, ps', at', next')
    requires |ps| == |ps'|
    ensures ps == ps' && at == at' && next == next'
  {
    SampledPrefix(draws, cursor, ps, at, next, ps', at', next', |at|);
    assert at == at'[..|at|];
    assert at' == at'[..|at'|];
  }

  lemma {:induction false} SampledPrefix(draws: nat -> BallParams, cursor: nat,
                                         ps: seq<BallParams>, at: seq<nat>, next: nat,
                                         ps': seq<BallParams>, at': seq<nat>, next': nat, n: nat)
    requires Sampled(draws, cursor, ps, at, next) && Sampled(draws, cursor, ps', at', next')
    requires |ps| == |ps'| && n <= |ps|
    ensures at[..n] == at'[..n]
    ensures forall i :: 0 <= i < n ==> ps[i] == ps'[i]
    decreases n
  {
    if n > 0 {
      SampledPrefix(draws, cursor, ps, at, next, ps', at', next', n - 1);
      assert Resume(cursor, at, n - 1) == Resume(cursor, at', n - 1) by {
        if n - 1 > 0 {
          assert at[n - 2] == at[..n - 1][n - 2] == at'[..n - 1][n - 2] == at'[n - 2];
        }
      }
      assert ps[n - 1] == draws(at[n - 1]) && ps'[n - 1] == draws(at'[n - 1]);
      FirstUsableUnique(draws, Resume(cursor, at, n - 1), at[n - 1], at'[n - 1]);
      assert at[..n] == at[..n - 1] + [at[n - 1]];
      assert at'[..n] == at'[..n - 1] + [at'[n - 1]];
    }
  }

  /** The ball-creation loop of simulate_world followed by the capture of the
      parameters back from the created balls. */
  method CreateBalls(optionalParams: Option<seq<BallParams>>, draws: nat -> BallParams, cursor: nat)
    returns (balls: seq<Ball>, params: seq<BallParams>, next: nat)
    requires Supplied(optionalParams) ==> |optionalParams.value| >= 4
    requires !Supplied(optionalParams) ==> RandomStream(draws)
    ensures |params| == 4 && balls == Launch(params)
    ensures Supplied(optionalParams) ==> params == optionalParams.value[..4] && next == cursor
    ensures !Supplied(optionalParams) ==>
      cursor <= next && forall i :: 0 <= i < 4 ==> Usable(params[i]) && InRanges(params[i])
    ensures !Supplied(optionalParams) ==> exists at :: Sampled(draws, cursor, params, at, next)
  {
    balls := [];
    ghost var used: seq<BallParams> := [];
    ghost var at: seq<nat> := [];
    next := cursor;
    for i := 0 to 4
      invariant |balls| == i && |used| == i && cursor <= next
      invariant forall j :: 0 <= j < i ==> balls[j] == CreateBall(used[j])
      invariant Supplied(optionalParams) ==> used == optionalParams.value[..i] && next == cursor
      invariant !Supplied(optionalParams) ==> forall j :: 0 <= j < i ==> Usable(used[j]) && InRanges(used[j])
      invariant !Supplied(optionalParams) ==> Sampled(draws, cursor, used, at, next)
    {
      var posx, rest, velx, vely;
      if Supplied(optionalParams) {
        var ps := optionalParams.value;
        posx, rest, velx, vely := ps[i].posx, ps[i].rest, ps[i].velx, ps[i].vely;
      } else {
        var p;
        ghost var from := next;
        p, next := SampleParams(draws, next);
        posx, rest, velx, vely := p.posx, p.rest, p.velx, p.vely;
        SampledStep(draws, cursor, used, at, from, p, next - 1);
        at := at + [next - 1];
      }
      var made := BallParams(posx, rest, velx, vely);
      used := used + [made];
      balls := balls + [CreateBall(made)];
    }
    params := seq(|balls|, i requires 0 <= i < |balls| => Capture(balls[i]));
    forall j | 0 <= j < 4
      ensures params[j] == used[j]
    {
      CaptureCreate(used[j]);
    }
    assert params == used;
  }

  /** Appending the next first usable draw extends a sampling. */
  lemma SampledStep(draws: nat -> BallParams, cursor: nat, ps: seq<BallParams>, at: seq<nat>,
                    from: nat, p: BallParams, k: nat)
    requires Sampled(draws, cursor, ps, at, from)
    requires FirstUsable(draws, from, k) && p == draws(k)
    ensures Sampled(draws, cursor, ps + [p], at + [k], k + 1)
  {
    var at', ps' := at + [k], ps + [p];
    forall i | 0 <= i < |at'|
      ensures ps'[i] == draws(at'[i]) && FirstUsable(draws, Resume(cursor, at', i), at'[i])
    {
      if i < |at| {
        assert ps'[i] == ps[i] && at'[i] == at[i];
        assert ps[i] == draws(at[i]) && FirstUsable(draws, Resume(cursor, at, i), at[i]);
        assert Resume(cursor, at', i) == Resume(cursor, at, i);
      } else {
        assert ps'[i] == p && at'[i] == k;
        assert Resume(cursor, at', i) == from;
      }
    }
  }

  /** The callback handed to simulate_world. */
  datatype StepFunction = Counting | Rendering

  /** The frames make_png writes during the first n steps of a run from start. */
  function RenderedFrames(physics: seq<Ball> -> seq<Ball>, start: seq<Ball>, n: nat): (fs: seq<Frame>)
    requires PreservesCount(physics) && 2 <= |start|
    ensures |fs| == n
    ensures forall k :: 0 <= k < n ==> fs[k].index == k + 1 && |fs[k].boxes| == |start|
    decreases n
  {
    if n == 0 then []
    else
      RenderedFrames(physics, start, n - 1)
        + [Frame(n, FrameBoxes(Run(physics, start, n), IsLastFrame(n)))]
  }

  /** The step loop of simulate_world: step the world, call the callback, and
      stop when it says so. */
  method StepUntilStop(stepFunction: StepFunction, physics: seq<Ball> -> seq<Ball>, start: seq<Ball>)
    returns (balls: seq<Ball>, frames: seq<Frame>)
    requires PreservesCount(physics) && 2 <= |start|
    ensures balls == Run(physics, start, 271)
    ensures stepFunction == Counting ==> frames == []
    ensures stepFunction == Rendering ==> frames == RenderedFrames(physics, start, 271)
  {
    balls := start;
    frames := [];
    var data := new FrameCounter();
    while true
      invariant 0 <= data.framecount <= 270
      invariant balls == Run(physics, start, data.framecount)
      invariant stepFunction == Counting ==> frames == []
      invariant stepFunction == Rendering ==> frames == RenderedFrames(physics, start, data.framecount)
      decreases 270 - data.framecount
    {
      balls := physics(balls);
      var stop;
      match stepFunction {
        case Counting =>
          stop := CountFunction(data, balls);
        case Rendering =>
          var saved;
          stop, saved := MakePng(data, balls);
          frames := frames + [saved];
      }
      if stop {
        break;
      }
    }
    assert data.framecount == 271;
    assert balls == Run(physics, start, 271);
  }

  /** simulate_world: create the balls, capture their parameters, then step the
      world and call the callback after every step until it says stop. */
  method SimulateWorld(stepFunction: StepFunction, optionalParams: Option<seq<BallParams>>,
                       physics: seq<Ball> -> seq<Ball>, draws: nat -> BallParams, cursor: nat)
    returns (balls: seq<Ball>, params: seq<BallParams>, next: nat, frames: seq<Frame>)
    requires PreservesCount(physics)
    requires Supplied(optionalParams) ==> |optionalParams.value| >= 4
    requires !Supplied(optionalParams) ==> RandomStream(draws)
    ensures |params| == 4 && |balls| == 4
    ensures balls == Run(physics, Launch(params), 271)
    ensures Supplied(optionalParams) ==> params == optionalParams.value[..4] && next == cursor
    ensures !Supplied(optionalParams) ==>
      cursor <= next && forall i :: 0 <= i < 4 ==> Usable(params[i]) && InRanges(params[i])
    ensures !Supplied(optionalParams) ==> exists at :: Sampled(draws, cursor, params, at, next)
    ensures stepFunction == Counting ==> frames == []
    ensures stepFunction == Rendering ==> frames == RenderedFrames(physics, Launch(params), 271)
  {
    var start;
    start, params, next := CreateBalls(optionalParams, draws, cursor);
    balls, frames := StepUntilStop(stepFunction, physics, start);
  }

  /** tryworld: one counted run with fresh parameters, checked by check_function.
      Python returns (False, False) on failure, modelled as None. */
  method TryWorld(physics: seq<Ball> -> seq<Ball>, draws: nat -> BallParams, cursor: nat)
    returns (success: bool, params: Option<seq<BallParams>>, next: nat, ghost tried: seq<BallParams>)
    requires PreservesCount(physics) && RandomStream(draws)
    ensures cursor <= next && |tried| == 4
    ensures forall i :: 0 <= i < 4 ==> Usable(tried[i]) && InRanges(tried[i])
    ensures exists at :: Sampled(draws, cursor, tried, at, next)
    ensures success <==> Accepts(Run(physics, Launch(tried), 271))
    ensures success ==> params == Some(tried)
    ensures !success ==> params == None
  {
    var balls, ps, frames;
    balls, ps, next, frames := SimulateWorld(Counting, None, physics, draws, cursor);
    tried := ps;
    success := CheckFunction(balls);
    if success {
      return true, Some(ps), next, tried;
    }
    return false, None, next, tried;
  }

  /** A run of tryworld that check_function turned down: four usable,
      in-range tuples whose 271-step world is not accepted. */
  ghost predicate Rejected(physics: seq<Ball> -> seq<Ball>, t: seq<BallParams>)
    requires PreservesCount(physics)
  {
    |t| == 4 && !Accepts(Run(physics, Launch(t), 271))
    && forall i :: 0 <= i < 4 ==> Usable(t[i]) && InRanges(t[i])
  }

  /** The four tuples t were drawn by successive runs of the sampling loop
      starting at position from, which leave the stream at position to. */
  ghost predicate DrawnBetween(draws: nat -> BallParams, from: nat, t: seq<BallParams>, to: nat)
  {
    exists at :: Sampled(draws, from, t, at, to)
  }

  /** The inner loop of the entry point: call tryworld until it succeeds. The
      program loops without bound; here at most maxTries runs are made. The
      parameters of every rejected run, and where in the stream each run
      started, are kept as ghost state: run j drew rejected[j] from starts[j]
      on, and the next run started where it left off. */
  method RetryUntilAccepted(physics: seq<Ball> -> seq<Ball>, draws: nat -> BallParams,
                            cursor: nat, maxTries: nat)
    returns (found: bool, params: seq<BallParams>, next: nat,
             ghost rejected: seq<seq<BallParams>>, ghost starts: seq<nat>)
    requires PreservesCount(physics) && RandomStream(draws)
    ensures cursor <= next
    ensures found ==> |params| == 4 && Accepts(Run(physics, Launch(params), 271))
    ensures found ==> forall i :: 0 <= i < 4 ==> Usable(params[i]) && InRanges(params[i])
    ensures found ==> |rejected| < maxTries
    ensures !found ==> |rejected| == maxTries && params == []
    ensures forall t :: t in rejected ==> Rejected(physics, t)
    ensures |starts| == |rejected| + 1 && starts[0] == cursor
    ensures forall j :: 0 <= j < |rejected| ==> DrawnBetween(draws, starts[j], rejected[j], starts[j + 1])
    ensures !found ==> next == starts[|rejected|]
    ensures found ==> DrawnBetween(draws, starts[|rejected|], params, next)
  {
    next := cursor;
    params := [];
    rejected := [];
    starts := [cursor];
    var tries := 0;
    while tries < maxTries
      invariant cursor <= next && tries <= maxTries && |rejected| == tries
      invariant forall t :: t in rejected ==> Rejected(physics, t)
      invariant |starts| == |rejected| + 1 && starts[0] == cursor && starts[|rejected|] == next
      invariant forall j :: 0 <= j < |rejected| ==> DrawnBetween(draws, starts[j], rejected[j], starts[j + 1])
      decreases maxTries - tries
    {
      var success, result;
      ghost var tried;
      ghost var from := next;
      success, result, next, tried := TryWorld(physics, draws, next);
      assert DrawnBetween(draws, from, tried, next);
      if success {
        return true, result.value, next, rejected, starts;
      }
      ghost var r0, s0 := rejected, starts;
      rejected := rejected + [tried];
      starts := starts + [next];
      tries := tries + 1;
      forall j | 0 <= j < |rejected|
        ensures DrawnBetween(draws, starts[j], rejected[j], starts[j + 1])
      {
        if j < |r0| {
          assert rejected[j] == r0[j] && starts[j] == s0[j] && starts[j + 1] == s0[j + 1];
        } else {
          assert rejected[j] == tried && starts[j] == from && starts[j + 1] == next;
        }
      }
    }
    return false, params, next, rejected, starts;
  }

  /** The replay in make_video: simulate_world with make_png and the accepted
      parameters, of which the first four are used. No random draw is
      consulted when parameters are supplied. */
  method MakeVideo(params: seq<BallParams>, physics: seq<Ball> -> seq<Ball>)
    returns (endballs: seq<Ball>, endparams: seq<BallParams>, frames: seq<Frame>)
    requires PreservesCount(physics) && |params| >= 4
    ensures endparams == params[..4]
    ensures endballs == Run(physics, Launch(params[..4]), 271)
    ensures frames == RenderedFrames(physics, Launch(params[..4]), 271)
  {
    var unused := (k: nat) => BallParams(0, 0.3, 1, -5);
    var next;
    endballs, endparams, next, frames := SimulateWorld(Rendering, Some(params), physics, unused, 0);
  }

  /** One round of the entry point: retry until a world is accepted, then replay
      it to frames. */
  method MakeIdent(physics: seq<Ball> -> seq<Ball>, draws: nat -> BallParams, cursor: nat, maxTries: nat)
    returns (found: bool, params: seq<BallParams>, frames: seq<Frame>, next: nat,
             ghost rejected: seq<seq<BallParams>>, ghost starts: seq<nat>)
    requires PreservesCount(physics) && RandomStream(draws)
    ensures found ==> |params| == 4 && |frames| == 271
    ensures found ==> Accepts(Run(physics, Launch(params), 271))
    ensures found ==> forall i :: 0 <= i < 4 ==> Usable(params[i]) && InRanges(params[i])
    ensures found ==> frames == RenderedFrames(physics, Launch(params), 271)
    ensures !found ==> frames == []
    ensures found ==> |rejected| < maxTries
    ensures !found ==> |rejected| == maxTries
    ensures forall t :: t in rejected ==> Rejected(physics, t)
    ensures |starts| == |rejected| + 1 && starts[0] == cursor
    ensures forall j :: 0 <= j < |rejected| ==> DrawnBetween(draws, starts[j], rejected[j], starts[j + 1])
    ensures found ==> DrawnBetween(draws, starts[|rejected|], params, next)
  {
    found, params, next, rejected, starts := RetryUntilAccepted(physics, draws, cursor, maxTries);
    frames := [];
    if found {
      var endballs, endparams;
      endballs, endparams, frames := MakeVideo(params, physics);
      assert params[..4] == params;
    }
  }

  /** Frame k of a rendered run is the projection of the balls after k steps,
      snapped on frame 271 and drawn where they are before it. */
  lemma {:induction false} RenderedFrameAt(physics: seq<Ball> -> seq<Ball>, start: seq<Ball>, n: nat, k: nat)
    requires PreservesCount(physics) && 2 <= |start| && 1 <= k <= n
    ensures RenderedFrames(physics, start, n)[k - 1]
      == Frame(k, FrameBoxes(Run(physics, start, k), IsLastFrame(k)))
    decreases n
  {
    if k < n {
      RenderedFrameAt(physics, start, n - 1, k);
    }
  }

  /** Every frame before the last draws each ball where the physics put it
      after that many steps. */
  lemma RenderedBeforeLastFaithful(physics: seq<Ball> -> seq<Ball>, start: seq<Ball>, n: nat, k: nat, i: int)
    requires PreservesCount(physics) && 2 <= |start| && 1 <= k <= n && k < 271 && 0 <= i < |start|
    ensures BoxCentre(RenderedFrames(physics, start, n)[k - 1].boxes[i]) == Run(physics, start, k)[i].position
  {
    RenderedFrameAt(physics, start, n, k);
    OrdinaryFrameFaithful(Run(physics, start, k), i);
  }

  /** The replay of an accepted world: its last frame, file 271, draws balls 1
      to 3 with ball 0's horizontal extent, so neither where the physics put
      them nor at the evenly spaced places that made the world acceptable. */
  lemma AcceptedReplayLastFrame(physics: seq<Ball> -> seq<Ball>, params: seq<BallParams>, i: int)
    requires PreservesCount(physics) && |params| == 4 && 1 <= i < 4
    requires Accepts(Run(physics, Launch(params), 271))
    ensures RenderedFrames(physics, Launch(params), 271)[270].index == 271
    ensures RenderedFrames(physics, Launch(params), 271)[270].boxes[i]
      != GetBallPosition(Run(physics, Launch(params), 271)[i].position)
    ensures RenderedFrames(physics, Launch(params), 271)[270].boxes[i]
      != SnappedBox(Run(physics, Launch(params), 271), i, i)
  {
    var start := Launch(params);
    RenderedFrameAt(physics, start, 271, 271);
    AcceptedLastFrameCollapses(Run(physics, start, 271));
  }
}
