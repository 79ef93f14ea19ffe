# Falling-balls ident: the trial loop, the acceptance test and the frame geometry

This project models the logic of `calculateballs_realb2.py`, a script that makes a short
video ident from a physics simulation. Four balls are dropped from height 20 into a
40 × 20 box with random horizontal positions, restitutions and velocities. The world is
stepped at 60 steps per second until a shared frame counter passes 4.5 × 60. The trial is
kept only if, after the last step, every ball is within 0.1 of ball 0's height, the balls
are evenly spaced, and they are away from the walls. Velocities are not looked at, so a
kept trial may still be moving.
Otherwise a new random trial is run. The accepted parameters are then replayed
deterministically, and every step is drawn into a numbered PNG frame.

The model is in five modules:

- `World` (world.dfy) holds:
  - the fixed sizes;
  - the ball state (position, linear velocity, restitution);
  - the per-ball parameter tuple `(posx, rest, velx, vely)`;
  - Python's `int()` truncation;
  - creating a ball from a tuple and capturing the tuple back from a ball;
  - `Run`, which iterates an opaque physics step.
- `Acceptance` (acceptance.dfy) models `check_function`:
  - the predicate `Accepts` and its three parts;
  - the method `CheckFunction`, with the program's loops and early returns, proved equal to it;
  - lemmas on what acceptance means.
- `Projection` (projection.dfy) models `get_ball_position`: from a world position to the pixel box `(tx, ty, bx, by)`.
- `Frames` (frames.dfy) models the `data` dictionary and the two step callbacks:
  - the dictionary is a class `FrameCounter` with the field `framecount`;
  - `count_function` and `make_png` are methods that update that field in place;
  - the last-frame snap of `make_png` is included.
- `Simulation` (simulation.dfy) models:
  - `simulate_world`: the rejection-sampling loop, ball creation, parameter capture, and the step loop driven by the callback's stop flag;
  - `tryworld`;
  - the replay inside `make_video`;
  - the retry loop of the entry point.

Randomness is a stream of draws handed in by the caller, with a cursor. One draw is one
pass of the sampling loop's `(randint, choice, randint, randint)`. The physics step is a
function parameter that keeps the number of balls. Written PNG files are returned as
`Frame(index, boxes)` values.

Facts about the code that shape the model:

- The step loop runs 271 steps. Both callbacks increment the counter before testing
  `framecount > 4.5 * 60`, and 271 is the first value that passes that test. So
  `make_png` writes frames 1 to 271.
- The comment at calculateballs_realb2.py:118 says "make all balls the same distance
  apart", but `ballcount` is set to 0 at line 114 and never incremented. On frame 271
  every ball is therefore drawn with ball 0's horizontal extent and its own vertical
  extent. `Frames.AcceptedLastFrameCollapses` shows that for every accepted trial this
  draws balls 1 to 3 away from both their true places and the evenly spaced places.

## Model

| member | source | states |
|---|---|---|
| `World.Trunc` | calculateballs_realb2.py:40-41 | `int()` on a float truncates toward zero: the result is within one of the argument, on the argument's side of zero |
| `World.CaptureCreate` | calculateballs_realb2.py:34-42 | reading position, restitution and velocity back from a freshly created ball gives exactly the tuple it was created from |
| `World.Launch` | calculateballs_realb2.py:21-42 | creating one ball per tuple and capturing them back returns the tuples, in order |
| `World.Run` | calculateballs_realb2.py:48-50 | stepping the world any number of times keeps every ball when one step does |
| `Acceptance.Min` | calculateballs_realb2.py:75 | `min` over a non-empty list is an element of it and no larger than any element |
| `Acceptance.Max` | calculateballs_realb2.py:86 | `max` over a non-empty list is an element of it and no smaller than any element |
| `Acceptance.Sort` | calculateballs_realb2.py:76 | `sorted` returns an ascending list with exactly the same elements (a permutation) |
| `Acceptance.CheckFunction` | calculateballs_realb2.py:69-87 | the loops with early returns give True exactly when all three tests of `Accepts` hold, so the order of the tests does not change the result |
| `Acceptance.AcceptsIff` | calculateballs_realb2.py:69-87 | acceptance holds if and only if every ball is within 0.1 of ball 0's height, every gap between successive sorted x positions lies in [4.0, 4.2], and every x lies in [-16, 16] |
| `Acceptance.SameHeightIff` | calculateballs_realb2.py:71-73 | the height test holds if and only if every y is within [-0.1, 0.1] of ball 0's y |
| `Acceptance.HeightBoundary` | calculateballs_realb2.py:71-73 | a ball more than 0.1 above or below ball 0 makes the result False; balls at ball 0's height or exactly 0.1 above it pass the height test |
| `Acceptance.XDeltasAreSortedPositions` | calculateballs_realb2.py:75-77 | `xdeltas` is the sorted x positions minus the leftmost one, so `xdeltadiffs` are the gaps between the sorted x positions |
| `Acceptance.SortShift` | calculateballs_realb2.py:75-76 | sorting the offsets from the leftmost ball gives the sorted positions, offset |
| `Acceptance.EvenlySpacedIff` | calculateballs_realb2.py:77-83 | the spacing test holds if and only if each of the three gaps between sorted x positions lies in [4.0, 4.2] |
| `Acceptance.EvenlySpacedOrderIndependent` | calculateballs_realb2.py:75-83 | two ball lists with the same x positions in any order pass or fail the spacing test together |
| `Acceptance.AcceptedSpacing` | calculateballs_realb2.py:75-83 | for an accepted trial, `xdeltas` is sorted, non-negative and starts at 0, each gap lies in [4.0, 4.2], and max x − min x lies in [12.0, 12.6] |
| `Acceptance.AcceptedBallsApart` | calculateballs_realb2.py:75-83 | in an accepted trial no two balls share an x position |
| `Acceptance.AwayFromWallsIff` | calculateballs_realb2.py:85-86 | the wall test holds if and only if every x lies in [-16, 16] |
| `Acceptance.AcceptedWithinWalls` | calculateballs_realb2.py:85-86 | every ball of an accepted trial lies in [-16, 16] |
| `Acceptance.RowAccepted` | calculateballs_realb2.py:69-87 | a left-to-right row of four balls is accepted exactly when each gap is in [4.0, 4.2], ball 1 is within 0.1 of the others' height, and the row lies within [-16, 16] |
| `Acceptance.BoundaryExamples` | calculateballs_realb2.py:71-83 | gaps of exactly 4.0 and 4.2 and a height difference of exactly ±0.1 are accepted; gaps of 3.99 or 4.21 and a height difference of 0.1001 are rejected |
| `Projection.GetBallPosition` | calculateballs_realb2.py:89-102 | tx ≤ bx and ty ≤ by; bx − tx = by − ty = 2 × 1.9 × 20 = 76; the box centre is (20x + 400, 400 − 20y) |
| `Projection.ProjectionRoundTrip` | calculateballs_realb2.py:89-102 | the centre of the box, mapped back to world units, is the ball's position |
| `Projection.ProjectionInjective` | calculateballs_realb2.py:89-102 | two balls get the same box only when they are at the same position |
| `Projection.LeftEdgeDistance` | calculateballs_realb2.py:94-98 | the distance between two boxes' left edges is 20 times the distance between the balls' x positions |
| `Frames.IsLastFrame` | calculateballs_realb2.py:65 | `framecount > 4.5 * 60` holds exactly from 271 on |
| `Frames.FrameCounter.constructor` | calculateballs_realb2.py:47 | the counter starts at 0 |
| `Frames.CountFunction` | calculateballs_realb2.py:63-67 | the counter grows by exactly one, and the result is True exactly when the new counter is at least 271 |
| `Frames.SnappedBox` | calculateballs_realb2.py:113-121 | the snapped box keeps ball i's own vertical extent and has ball 0's left edge moved by `deltax * ballcount`, where `deltax` is 20 × (x₁ − x₀) |
| `Frames.FrameBoxes` | calculateballs_realb2.py:114-122 | one box per ball, in ball order: its own projection on ordinary frames and the snapped box with `ballcount` 0 on the last |
| `Frames.MakePng` | calculateballs_realb2.py:104-128 | the counter grows by one; the saved frame's index is the new counter; the boxes are `FrameBoxes` of the balls; the result is True exactly when the counter is at least 271 |
| `Frames.OrdinaryFrameFaithful` | calculateballs_realb2.py:115-116 | on every frame but the last, each ball's box is centred on the ball |
| `Frames.LastFrameSnap` | calculateballs_realb2.py:112-121 | on the last frame every ball has ball 0's tx and bx and keeps its own ty and by |
| `Frames.SnapSpacedOnlyWhenCoincident` | calculateballs_realb2.py:113-121 | the last frame places ball i ≥ 1 at `i × deltax` from ball 0 if and only if balls 0 and 1 have the same x |
| `Frames.AcceptedLastFrameCollapses` | calculateballs_realb2.py:112-121 | for every accepted set of four balls, the last frame draws balls 1 to 3 neither where they are nor at the evenly spaced places |
| `Simulation.SampleParams` | calculateballs_realb2.py:28-33 | the kept draw is the first one from the cursor with both velocities nonzero (`FirstUsable`), and it lies in the sampled ranges (posx in [-19, 19], rest in {0.3, 0.4, 0.5}, velx in [-15, 15] and nonzero, vely in [-15, -5]) |
| `Simulation.SampledDeterministic` | calculateballs_realb2.py:28-33 | the tuples drawn for the balls are a function of the random stream and the cursor: two samplings of the same number of balls from the same place keep the same draws and stop at the same place |
| `Simulation.CreateBalls` | calculateballs_realb2.py:21-42 | four balls are created; supplied parameters are used verbatim with no draw consumed; otherwise the tuples are the draws kept by four successive runs of the sampling loop from the cursor (`Sampled`); the captured parameters are the ones the balls were created from |
| `Simulation.RenderedFrames` | calculateballs_realb2.py:104-128 | the first n frames written by `make_png` are numbered 1 to n, and each holds one box per ball |
| `Simulation.StepUntilStop` | calculateballs_realb2.py:47-53 | stepping and calling the callback until it says stop gives the balls after exactly 271 steps; with `make_png` the frames are exactly frames 1 to 271 of that run, with `count_function` none |
| `Simulation.SimulateWorld` | calculateballs_realb2.py:10-54 | the returned balls are the created balls after exactly 271 physics steps; the parameters are the first four supplied tuples, or the successive usable draws from the cursor; with `make_png` the frames are exactly frames 1 to 271 of that run |
| `Simulation.RenderedFrameAt` | calculateballs_realb2.py:47-53 | frame k of a run is the boxes of the balls after k steps, snapped exactly when k is the last frame |
| `Simulation.RenderedBeforeLastFaithful` | calculateballs_realb2.py:104-122 | every frame before 271 draws each ball centred on where the physics put it after that many steps |
| `Simulation.TryWorld` | calculateballs_realb2.py:56-61 | success holds exactly when the world created from the successive usable draws from the cursor, stepped 271 times, passes `check_function`; the parameters are returned only on success |
| `Simulation.RetryUntilAccepted` | calculateballs_realb2.py:152-155 | the runs are successive `tryworld` samplings: run j draws `rejected[j]` from stream position `starts[j]`, and run j + 1 starts where run j stopped, beginning at the cursor; every rejected run has four usable, in-range tuples that are not accepted; on success the returned tuples are the next run's draws and are accepted, so they are the first accepted world, found after fewer than `maxTries` rejections; on failure exactly `maxTries` runs were rejected |
| `Simulation.MakeVideo` | calculateballs_realb2.py:136 | replaying accepted parameters uses the first four of them verbatim, consumes no random draw, and reproduces the same final balls and frames 1 to 271 |
| `Simulation.MakeIdent` | calculateballs_realb2.py:151-156 | one round of the entry point: the world it finds is the first accepted one among the successive `tryworld` runs from the cursor (the same `starts`/`rejected` chain as `RetryUntilAccepted`), and its replay writes frames 1 to 271 of that same world; without a find, exactly `maxTries` runs were rejected and no frame is written |
| `Simulation.AcceptedReplayLastFrame` | calculateballs_realb2.py:112-136 | frame 271 of the replay of an accepted trial draws balls 1 to 3 neither where they landed nor evenly spaced |

## Left out

- Box2D is not modelled:
  - world construction, the static edges, fixtures, density, radius 2, `world.Step` and `ClearForces` are all left out;
  - one physics step is an opaque function on the balls, assumed only to keep the number of balls;
  - nothing is proved about where the balls land.
- Box2D stores values as 32-bit floats, and that storage is not modelled. `World.CaptureCreate` states that the captured tuple equals the created one. In the program the restitution is read back as a float32 (0.3 comes back as 0.30000001…).
- IEEE-754 doubles are not modelled: positions, velocities, 4.2 − 0.2 and the scale factors are exact reals.
- PIL drawing is left out: image creation, `draw.ellipse` and `im.save`. A written file is its number and the list of boxes drawn on it.
- Most of `make_video` is left out:
  - the `rm` and `gst-launch-1.0` shell commands;
  - the timestamped output name;
  - `print` and `time.sleep`.

  Only the replay call of `simulate_world` is modelled, in `Simulation.MakeVideo`.
- The random module is not modelled:
  - draws come from a stream given by the caller;
  - `randint`/`choice` staying in their ranges, and a usable draw always arriving, are assumptions on that stream (`RandomStream`), not facts derived here.
- `Simulation.SampleParams` terminates because of the assumption that a usable draw arrives. The program's loop has no bound.
- `Simulation.RetryUntilAccepted`: the program retries `tryworld` without bound. The model stops after `maxTries` rejected runs and then reports failure, which the program never does.
- `Simulation.MakeIdent`: the entry point repeats forever, making a new video each round. The model is one round.
- `check_function` is only given lists of at least four balls (`simulate_world` always creates four), and this is a precondition in the model. In the program an empty list raises ValueError from `min` at line 75. A list of one to three balls raises IndexError at line 77, unless the height test has already returned False.
- Supplied parameters must hold at least four tuples, a precondition of `Simulation.SimulateWorld` and `Simulation.MakeVideo`. In the program a non-empty list of one to three tuples raises IndexError at line 23.
- `tryworld` returns `(False, False)` on failure. The model returns `None` in place of the second `False`.
