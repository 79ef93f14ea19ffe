/** The two step callbacks of the simulation loop, count_function and make_png,
    and the dictionary {"framecount": ...} they share. */
module Frames {
  import opened World
  import opened Projection
  import opened Acceptance

  /** The frame at which both callbacks stop: the counter has passed 4.5 * 60,
      which first happens at 271. */
  function IsLastFrame(framecount: int): (last: bool)
    ensures last <==> framecount >= 271
  {
    framecount as real > 4.5 * 60.0
  }

  /** The shared `data` dictionary, whose only key is the frame counter. */
  class FrameCounter {
    var framecount: int

    constructor()
      ensures framecount == 0
    {
      framecount := 0;
    }
  }

  /** One image file written by make_png: the number in its name and the
      ellipse boxes drawn on it, in the order of the balls. */
  datatype Frame = Frame(index: int, boxes: seq<Box>)

  /** count_function: bump the counter and stop once it is past 4.5 * 60. */
  method CountFunction(data: FrameCounter, balls: seq<Ball>) returns (stop: bool)
    modifies data
    ensures data.framecount == old(data.framecount) + 1
    ensures stop <==> data.framecount >= 271
  {
    data.framecount := data.framecount + 1;
    if data.framecount as real > 4.5 * 60.0 {
      return true;
    }
    return false;
  }

  /** The box drawn for ball i on the last frame, where the horizontal extent is
      ball 0's shifted by deltax * ballcount, deltax being the distance between
      the left edges of balls 0 and 1. */
  function SnappedBox(balls: seq<Ball>, i: int, ballcount: int): (b: Box)
    requires 2 <= |balls| && 0 <= i < |balls|
    ensures b.top == GetBallPosition(balls[i].position).top
    ensures b.bottom == GetBallPosition(balls[i].position).bottom
    ensures b.left == 20.0 * balls[0].position.x + 362.0
      + 20.0 * (balls[1].position.x - balls[0].position.x) * ballcount as real
    ensures b.right - b.left == 76.0
  {
    var base := GetBallPosition(balls[0].position);
    var own := GetBallPosition(balls[i].position);
    var deltax := GetBallPosition(balls[1].position).left - base.left;
    LeftEdgeDistance(balls[0].position, balls[1].position);
    Box(base.left + deltax * ballcount as real, own.top,
        base.right + deltax * ballcount as real, own.bottom)
  }

  /** The box make_png draws for ball i: its own box, except on the last frame,
      where ballcount is still 0 for every ball. */
  function DrawnBox(balls: seq<Ball>, i: int, last: bool): Box
    requires 0 <= i < |balls| && (last ==> 2 <= |balls|)
  {
    if last then SnappedBox(balls, i, 0) else GetBallPosition(balls[i].position)
  }

  /** Every box make_png draws for one frame. */
  function FrameBoxes(balls: seq<Ball>, last: bool): (r: seq<Box>)
    requires last ==> 2 <= |balls|
    ensures |r| == |balls|
    ensures forall i :: 0 <= i < |balls| ==> r[i] == DrawnBox(balls, i, last)
  {
    seq(|balls|, i requires 0 <= i < |balls| => DrawnBox(balls, i, last))
  }

  /** make_png: bump the counter, draw every ball, and save the image under the
      new counter value; stop once the counter is past 4.5 * 60. */
  method MakePng(data: FrameCounter, balls: seq<Ball>) returns (stop: bool, saved: Frame)
    requires IsLastFrame(data.framecount + 1) ==> 2 <= |balls|
    modifies data
    ensures data.framecount == old(data.framecount) + 1
    ensures stop <==> data.framecount >= 271
    ensures saved == Frame(data.framecount, FrameBoxes(balls, stop))
  {
    data.framecount := data.framecount + 1;
    var lastframe := false;
    if data.framecount as real > 4.5 * 60.0 {
      lastframe := true;
    }
    var deltax := 0.0;
    if lastframe {
      deltax := GetBallPosition(balls[1].position).left - GetBallPosition(balls[0].position).left;
    }
    var ballcount := 0;
    var drawn: seq<Box> := [];
    for i := 0 to |balls|
      invariant |drawn| == i
      invariant forall j :: 0 <= j < i ==> drawn[j] == DrawnBox(balls, j, lastframe)
    {
      var own := GetBallPosition(balls[i].position);
      var tx, ty, bx, bby := own.left, own.top, own.right, own.bottom;
      if lastframe {
        var base := GetBallPosition(balls[0].position);
        tx := base.left + deltax * ballcount as real;
        bx := base.right + deltax * ballcount as real;
      }
      drawn := drawn + [Box(tx, ty, bx, bby)];
    }
    saved := Frame(data.framecount, drawn);
    return lastframe, saved;
  }

  /** On every frame but the last, each ball is drawn where it is. */
  lemma OrdinaryFrameFaithful(balls: seq<Ball>, i: int)
    requires 0 <= i < |balls|
    ensures BoxCentre(FrameBoxes(balls, false)[i]) == balls[i].position
  {
    ProjectionRoundTrip(balls[i].position);
  }

  /** On the last frame every ball gets ball 0's horizontal extent and keeps its
      own vertical extent. */
  lemma LastFrameSnap(balls: seq<Ball>, i: int)
    requires 2 <= |balls| && 0 <= i < |balls|
    ensures FrameBoxes(balls, true)[i].left == GetBallPosition(balls[0].position).left
    ensures FrameBoxes(balls, true)[i].right == GetBallPosition(balls[0].position).right
    ensures FrameBoxes(balls, true)[i].top == GetBallPosition(balls[i].position).top
    ensures FrameBoxes(balls, true)[i].bottom == GetBallPosition(balls[i].position).bottom
  {
    var base := GetBallPosition(balls[0].position);
    var b := FrameBoxes(balls, true)[i];
    assert b == SnappedBox(balls, i, 0);
    assert b.right - b.left == base.right - base.left;
  }

  /** The last frame puts ball i (i >= 1) at i steps of deltax from ball 0, as
      the comment beside the snap describes, exactly when balls 0 and 1 stand
      at the same x. */
  lemma SnapSpacedOnlyWhenCoincident(balls: seq<Ball>, i: int)
    requires 2 <= |balls| && 1 <= i < |balls|
    ensures FrameBoxes(balls, true)[i] == SnappedBox(balls, i, i)
      <==> balls[1].position.x == balls[0].position.x
  {
    var d := balls[1].position.x - balls[0].position.x;
    var snapped := FrameBoxes(balls, true)[i];
    var spaced := SnappedBox(balls, i, i);
    assert snapped == SnappedBox(balls, i, 0);
    assert spaced.left - snapped.left == 20.0 * d * i as real;
    if d != 0.0 {
      assert 20.0 * d * i as real != 0.0;
    }
  }

  /** For a set of balls that check_function accepts, the last frame draws
      balls 1, 2 and 3 away from where they are and not evenly spaced either:
      all four share ball 0's horizontal extent. */
  lemma AcceptedLastFrameCollapses(balls: seq<Ball>)
    requires |balls| == 4 && Accepts(balls)
    ensures forall i :: 1 <= i < 4 ==> FrameBoxes(balls, true)[i] != GetBallPosition(balls[i].position)
    ensures forall i :: 1 <= i < 4 ==> FrameBoxes(balls, true)[i] != SnappedBox(balls, i, i)
  {
    AcceptedBallsApart(balls);
    forall i | 1 <= i < 4
      ensures FrameBoxes(balls, true)[i] != GetBallPosition(balls[i].position)
      ensures FrameBoxes(balls, true)[i] != SnappedBox(balls, i, i)
    {
      LastFrameSnap(balls, i);
      LeftEdgeDistance(balls[0].position, balls[i].position);
      SnapSpacedOnlyWhenCoincident(balls, i);
    }
  }
}
