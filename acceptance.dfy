/** The acceptance test applied to the final ball positions of a trial:
    same height, even spacing, and away from the walls. */
module Acceptance {
  import opened World

  /** Largest allowed gap between neighbouring balls (DIFF). */
  const Diff: real := 4.2
  /** Allowed vertical distance from ball 0. */
  const HeightTolerance: real := 0.1
  /** Leftmost and rightmost allowed x: four units inside each wall. */
  const LeftLimit: real := (-(WorldWidth / 2) + 4) as real
  const RightLimit: real := ((WorldWidth / 2) - 4) as real

  function Abs(r: real): real
  {
    if r < 0.0 then -r else r
  }

  function Xs(balls: seq<Ball>): seq<real>
  {
    seq(|balls|, i requires 0 <= i < |balls| => balls[i].position.x)
  }

  /** Python's min over a non-empty list. */
  function Min(s: seq<real>): (m: real)
    requires |s| > 0
    ensures m in s
    ensures forall i :: 0 <= i < |s| ==> m <= s[i]
  {
    if |s| == 1 then s[0]
    else
      var rest := Min(s[1..]);
      if s[0] <= rest then s[0] else rest
  }

  /** Python's max over a non-empty list. */
  function Max(s: seq<real>): (m: real)
    requires |s| > 0
    ensures m in s
    ensures forall i :: 0 <= i < |s| ==> s[i] <= m
  {
    if |s| == 1 then s[0]
    else
      var rest := Max(s[1..]);
      if s[0] >= rest then s[0] else rest
  }

  predicate SortedSeq(s: seq<real>)
  {
    forall i, j :: 0 <= i < j < |s| ==> s[i] <= s[j]
  }

  /** Inserts x in front of the first element of s that is not smaller; into
      a sorted list, this keeps it sorted. */
  function Insert(x: real, s: seq<real>): (r: seq<real>)
    ensures |r| == |s| + 1
    ensures SortedSeq(s) ==> SortedSeq(r)
    ensures multiset(r) == multiset(s) + multiset{x}
  {
    if s == [] || x <= s[0] then [x] + s
    else
      var t := Insert(x, s[1..]);
      assert s == [s[0]] + s[1..];
      assert SortedSeq(s) ==> SortedSeq([s[0]] + t) by {
        if SortedSeq(s) {
          LowerBoundKept(s[0], s[1..], x, t);
          ConsSorted(s[0], t);
        }
      }
      [s[0]] + t
  }

  /** Every element of t is at least a when t holds the elements of u, each at
      least a, and one more element x, also at least a. */
  lemma LowerBoundKept(a: real, u: seq<real>, x: real, t: seq<real>)
    requires forall k :: 0 <= k < |u| ==> a <= u[k]
    requires a <= x && multiset(t) == multiset(u) + multiset{x}
    ensures forall k :: 0 <= k < |t| ==> a <= t[k]
  {
    forall k | 0 <= k < |t| ensures a <= t[k] {
      assert t[k] in multiset(t);
      if t[k] != x {
        assert t[k] in multiset(u);
        var j :| 0 <= j < |u| && u[j] == t[k];
      }
    }
  }

  lemma ConsSorted(a: real, t: seq<real>)
    requires SortedSeq(t) && forall k :: 0 <= k < |t| ==> a <= t[k]
    ensures SortedSeq([a] + t)
  {
    var r := [a] + t;
    forall i, j | 0 <= i < j < |r| ensures r[i] <= r[j] {
      assert r[j] == t[j - 1];
      if i > 0 {
        assert r[i] == t[i - 1];
      }
    }
  }

  /** Python's sorted over a list of floats. */
  function Sort(s: seq<real>): (r: seq<real>)
    ensures |r| == |s|
    ensures SortedSeq(r)
    ensures multiset(r) == multiset(s)
  {
    if s == [] then []
    else
      assert s == [s[0]] + s[1..];
      Insert(s[0], Sort(s[1..]))
  }

  /** Subtracts c from every element of s. */
  function Shift(s: seq<real>, c: real): (r: seq<real>)
    ensures |r| == |s|
  {
    if s == [] then [] else [s[0] - c] + Shift(s[1..], c)
  }

  /** The x-offsets of the balls from the leftmost one, sorted (xdeltas). */
  function XDeltas(balls: seq<Ball>): seq<real>
    requires |balls| > 0
  {
    Sort(Shift(Xs(balls), Min(Xs(balls))))
  }

  /** The three differences between consecutive entries of the first four
      (xdeltadiffs). */
  function Gaps(d: seq<real>): seq<real>
    requires |d| >= 4
  {
    [d[1] - d[0], d[2] - d[1], d[3] - d[2]]
  }

  /** One gap passes the spacing test when it is neither above DIFF nor
      below DIFF - 0.2. */
  predicate GapOk(g: real)
  {
    !(g > Diff) && !(g < Diff - 0.2)
  }

  predicate SameHeight(balls: seq<Ball>)
    requires |balls| > 0
  {
    forall i :: 0 <= i < |balls| ==>
      !(Abs(balls[i].position.y - balls[0].position.y) > HeightTolerance)
  }

  /** The three gaps between the first four sorted offsets pass the test. */
  predicate EvenlySpaced(balls: seq<Ball>)
    requires |balls| >= 4
  {
    forall xd :: xd in Gaps(XDeltas(balls)) ==> GapOk(xd)
  }

  predicate AwayFromWalls(balls: seq<Ball>)
    requires |balls| > 0
  {
    !(Min(Xs(balls)) < LeftLimit) && !(Max(Xs(balls)) > RightLimit)
  }

  predicate Accepts(balls: seq<Ball>)
    requires |balls| >= 4
  {
    SameHeight(balls) && EvenlySpaced(balls) && AwayFromWalls(balls)
  }

  /** check_function: the three tests in the program's order, each returning
      False as soon as one item fails. */
  method CheckFunction(balls: seq<Ball>) returns (ok: bool)
    requires |balls| >= 4
    ensures ok == Accepts(balls)
  {
    // confirm the balls are all on the ground
    var i := 0;
    while i < |balls|
      invariant 0 <= i <= |balls|
      invariant forall j :: 0 <= j < i ==>
        !(Abs(balls[j].position.y - balls[0].position.y) > HeightTolerance)
    {
      var vertdiff := balls[i].position.y - balls[0].position.y;
      if Abs(vertdiff) > HeightTolerance {
        return false;
      }
      i := i + 1;
    }
    // confirm they are all next to one another
    var leftmost := Min(Xs(balls));
    var xdeltas := Sort(Shift(Xs(balls), leftmost));
    assert xdeltas == XDeltas(balls);
    var xdeltadiffs := Gaps(xdeltas);
    var k := 0;
    while k < 3
      invariant 0 <= k <= 3
      invariant forall j :: 0 <= j < k ==> GapOk(xdeltadiffs[j])
    {
      var xd := xdeltadiffs[k];
      assert xd in xdeltadiffs;
      if xd > Diff {
        return false;
      }
      if xd < Diff - 0.2 {
        return false;
      }
      k := k + 1;
    }
    // confirm they are not right at the edge
    if Min(Xs(balls)) < LeftLimit {
      return false;
    }
    if Max(Xs(balls)) > RightLimit {
      return false;
    }
    return true;
  }

  // ----- Facts about sorting, used by the lemmas below -----

  /** The first element of a sorted permutation of s is Min(s), the last Max(s). */
  lemma SortedEnds(d: seq<real>, s: seq<real>)
    requires |s| > 0 && SortedSeq(d) && multiset(d) == multiset(s)
    ensures |d| == |s|
    ensures d[0] == Min(s) && d[|d| - 1] == Max(s)
  {
    assert |d| == |multiset(d)| == |multiset(s)| == |s|;
    SortedFirst(d, s);
    SortedLast(d, s);
  }

  lemma SortedFirst(d: seq<real>, s: seq<real>)
    requires |s| > 0 && |d| == |s| && SortedSeq(d) && multiset(d) == multiset(s)
    ensures d[0] == Min(s)
  {
    assert d[0] in multiset(s) && Min(s) in multiset(d);
    var i :| 0 <= i < |d| && d[i] == Min(s);
    var a :| 0 <= a < |s| && s[a] == d[0];
  }

  lemma SortedLast(d: seq<real>, s: seq<real>)
    requires |s| > 0 && |d| == |s| && SortedSeq(d) && multiset(d) == multiset(s)
    ensures d[|d| - 1] == Max(s)
  {
    assert d[|d| - 1] in multiset(s) && Max(s) in multiset(d);
    var j :| 0 <= j < |d| && d[j] == Max(s);
    var b :| 0 <= b < |s| && s[b] == d[|d| - 1];
  }

  /** Two non-empty sorted sequences with the same elements start alike. */
  lemma SortedHeads(a: seq<real>, b: seq<real>)
    requires SortedSeq(a) && SortedSeq(b) && multiset(a) == multiset(b) && a != []
    ensures |b| == |a| && a[0] == b[0]
  {
    assert |a| == |multiset(a)| == |multiset(b)| == |b|;
    assert a[0] in multiset(b) && b[0] in multiset(a);
    var j :| 0 <= j < |b| && b[j] == a[0];
    var i :| 0 <= i < |a| && a[i] == b[0];
  }

  /** Two sorted sequences with the same elements are equal. */
  lemma {:induction false} SortedUnique(a: seq<real>, b: seq<real>)
    requires SortedSeq(a) && SortedSeq(b) && multiset(a) == multiset(b)
    ensures a == b
    decreases |a|
  {
    if a == [] {
      assert |b| == |multiset(b)| == 0;
    } else {
      SortedHeads(a, b);
      assert a == [a[0]] + a[1..];
      assert b == [b[0]] + b[1..];
      assert multiset(a[1..]) == multiset(a) - multiset{a[0]};
      assert multiset(b[1..]) == multiset(b) - multiset{b[0]};
      SortedUnique(a[1..], b[1..]);
    }
  }

  /** Each element of the shifted list is the original one minus c. */
  lemma {:induction false} ShiftIndex(s: seq<real>, c: real)
    ensures forall i :: 0 <= i < |s| ==> Shift(s, c)[i] == s[i] - c
  {
    if s != [] {
      ShiftIndex(s[1..], c);
      assert Shift(s, c) == [s[0] - c] + Shift(s[1..], c);
    }
  }

  lemma ShiftAt(s: seq<real>, c: real, i: int)
    requires 0 <= i < |s|
    ensures Shift(s, c)[i] == s[i] - c
  {
    ShiftIndex(s, c);
  }

  lemma ShiftSorted(s: seq<real>, c: real)
    requires SortedSeq(s)
    ensures SortedSeq(Shift(s, c))
  {
    ShiftIndex(s, c);
  }

  /** The value v occurs in the shifted list as often as v + c occurs in the
      original. */
  lemma {:induction false} ShiftCount(a: seq<real>, c: real, v: real)
    ensures multiset(Shift(a, c))[v] == multiset(a)[v + c]
  {
    if a == [] {
      assert Shift(a, c) == [];
    } else {
      var s, t := Shift(a, c), Shift(a[1..], c);
      ShiftCount(a[1..], c, v);
      HeadCount(a, v + c);
      assert s == [a[0] - c] + t;
      assert s[1..] == t;
      HeadCount(s, v);
    }
  }

  /** Counting v in a non-empty list: the head, then the rest. */
  lemma HeadCount(a: seq<real>, w: real)
    requires a != []
    ensures multiset(a)[w] == (if a[0] == w then 1 else 0) + multiset(a[1..])[w]
  {
    assert a == [a[0]] + a[1..];
    assert multiset(a) == multiset{a[0]} + multiset(a[1..]);
  }

  /** Sorting commutes with subtracting the same constant from every element. */
  lemma SortShift(s: seq<real>, c: real)
    ensures Sort(Shift(s, c)) == Shift(Sort(s), c)
  {
    var q := Sort(s);
    forall v ensures multiset(Shift(q, c))[v] == multiset(Shift(s, c))[v] {
      ShiftCount(s, c, v);
      ShiftCount(q, c, v);
    }
    assert multiset(Shift(q, c)) == multiset(Shift(s, c));
    ShiftSorted(q, c);
    SortedUnique(Sort(Shift(s, c)), Shift(q, c));
  }

  // ----- Properties of the acceptance test -----

  /** xdeltas is the sorted x positions measured from the leftmost ball, so the
      spacing test is a test on the gaps between the sorted x positions. */
  lemma XDeltasAreSortedPositions(balls: seq<Ball>)
    requires |balls| > 0
    ensures XDeltas(balls) == Shift(Sort(Xs(balls)), Min(Xs(balls)))
    ensures |balls| >= 4 ==> Gaps(XDeltas(balls)) == Gaps(Sort(Xs(balls)))
  {
    var xs := Xs(balls);
    var m := Min(xs);
    SortShift(xs, m);
    if |balls| >= 4 {
      ShiftGaps(Sort(xs), m, XDeltas(balls));
    }
  }

  /** Subtracting a constant from every element keeps the gaps. */
  lemma ShiftGaps(q: seq<real>, m: real, d: seq<real>)
    requires |q| >= 4 && d == Shift(q, m)
    ensures Gaps(d) == Gaps(q)
  {
    ShiftAt(q, m, 0);
    ShiftAt(q, m, 1);
    ShiftAt(q, m, 2);
    ShiftAt(q, m, 3);
  }

  /** The spacing test looks only at where the balls are, not at which ball is
      where: two lists of balls with the same x positions in any order are
      both accepted or both rejected by it. */
  lemma EvenlySpacedOrderIndependent(a: seq<Ball>, b: seq<Ball>)
    requires |a| >= 4 && |b| >= 4
    requires multiset(Xs(a)) == multiset(Xs(b))
    ensures EvenlySpaced(a) == EvenlySpaced(b)
  {
    SortedUnique(Sort(Xs(a)), Sort(Xs(b)));
    SortedEnds(Sort(Xs(a)), Xs(a));
    SortedEnds(Sort(Xs(b)), Xs(b));
    XDeltasAreSortedPositions(a);
    XDeltasAreSortedPositions(b);
  }

  lemma SameHeightIff(balls: seq<Ball>)
    requires |balls| > 0
    ensures SameHeight(balls) <==> forall i :: 0 <= i < |balls| ==>
      -0.1 <= balls[i].position.y - balls[0].position.y <= 0.1
  {
  }

  lemma EvenlySpacedIff(balls: seq<Ball>)
    requires |balls| >= 4
    ensures EvenlySpaced(balls) <==> forall xd :: xd in Gaps(Sort(Xs(balls))) ==> 4.0 <= xd <= 4.2
  {
    XDeltasAreSortedPositions(balls);
  }

  lemma AwayFromWallsIff(balls: seq<Ball>)
    requires |balls| > 0
    ensures AwayFromWalls(balls) <==> forall i :: 0 <= i < |balls| ==>
      -16.0 <= balls[i].position.x <= 16.0
  {
    var xs := Xs(balls);
    assert forall i :: 0 <= i < |balls| ==> xs[i] == balls[i].position.x;
  }

  /** The acceptance test holds exactly when every ball is within 0.1 of ball
      0's height, the gaps between the sorted x positions all lie in
      [4.0, 4.2], and every ball lies in [-16, 16]. */
  lemma AcceptsIff(balls: seq<Ball>)
    requires |balls| >= 4
    ensures Accepts(balls) <==>
      (forall i :: 0 <= i < |balls| ==>
         -0.1 <= balls[i].position.y - balls[0].position.y <= 0.1) &&
      (forall xd :: xd in Gaps(Sort(Xs(balls))) ==> 4.0 <= xd <= 4.2) &&
      (forall i :: 0 <= i < |balls| ==> -16.0 <= balls[i].position.x <= 16.0)
  {
    SameHeightIff(balls);
    EvenlySpacedIff(balls);
    AwayFromWallsIff(balls);
  }

  /** A ball more than 0.1 above or below ball 0 makes the test fail; a
      difference of exactly 0.1 does not fail the height test. */
  lemma HeightBoundary(balls: seq<Ball>, i: int)
    requires |balls| >= 4 && 0 <= i < |balls|
    ensures Abs(balls[i].position.y - balls[0].position.y) > 0.1 ==> !Accepts(balls)
    ensures (forall j :: 0 <= j < |balls| ==>
               balls[j].position.y == balls[0].position.y + 0.1 ||
               balls[j].position.y == balls[0].position.y) ==> SameHeight(balls)
  {
  }

  /** What an accepted list of four balls looks like: xdeltas is sorted, non-
      negative and starts at 0, its gaps lie in [4.0, 4.2], and the balls span
      between 12.0 and 12.6 units from leftmost to rightmost. */
  lemma AcceptedSpacing(balls: seq<Ball>)
    requires |balls| == 4 && Accepts(balls)
    ensures var d := XDeltas(balls);
      |d| == 4 && SortedSeq(d) && d[0] == 0.0 &&
      (forall k :: 0 <= k < 4 ==> d[k] >= 0.0) &&
      (forall xd :: xd in Gaps(d) ==> 4.0 <= xd <= 4.2) &&
      12.0 <= Max(Xs(balls)) - Min(Xs(balls)) <= 12.6
  {
    var xs := Xs(balls);
    XDeltasAreSortedPositions(balls);
    XDeltasEnds(xs, Sort(xs), XDeltas(balls));
    SpanOfGaps(XDeltas(balls));
  }

  /** The sorted offsets from the smallest element run from 0 to max - min. */
  lemma XDeltasEnds(xs: seq<real>, q: seq<real>, d: seq<real>)
    requires |xs| > 0 && SortedSeq(q) && multiset(q) == multiset(xs)
    requires d == Shift(q, Min(xs))
    ensures |d| == |xs| && d[0] == 0.0 && d[|d| - 1] == Max(xs) - Min(xs)
  {
    SortedEnds(q, xs);
    ShiftAt(q, Min(xs), 0);
    ShiftAt(q, Min(xs), |q| - 1);
  }

  /** Four sorted values whose three gaps pass the test span 12.0 to 12.6. */
  lemma SpanOfGaps(d: seq<real>)
    requires |d| == 4 && forall xd :: xd in Gaps(d) ==> GapOk(xd)
    ensures forall xd :: xd in Gaps(d) ==> 4.0 <= xd <= 4.2
    ensures 12.0 <= d[3] - d[0] <= 12.6
  {
    var g := Gaps(d);
    assert g[0] in g && g[1] in g && g[2] in g;
  }

  /** No two balls of an accepted list of four share an x position: the
      sorted positions are at least 4.0 apart. */
  lemma AcceptedBallsApart(balls: seq<Ball>)
    requires |balls| == 4 && Accepts(balls)
    ensures forall i, j :: 0 <= i < j < 4 ==> balls[i].position.x != balls[j].position.x
  {
    var xs := Xs(balls);
    var q := Sort(xs);
    assert EvenlySpaced(balls);
    EvenlySpacedIff(balls);
    assert forall xd :: xd in Gaps(Sort(Xs(balls))) ==> 4.0 <= xd <= 4.2;
    assert q == Sort(Xs(balls));
    IncreasingFromGaps(q);
    DistinctSorted(xs, q);
    assert forall i :: 0 <= i < 4 ==> xs[i] == balls[i].position.x;
  }

  /** Four values whose successive gaps are all at least 4 strictly increase. */
  lemma IncreasingFromGaps(q: seq<real>)
    requires |q| == 4 && forall xd :: xd in Gaps(q) ==> 4.0 <= xd <= 4.2
    ensures q[0] < q[1] < q[2] < q[3]
  {
    var g := Gaps(q);
    assert g[0] in g && g[1] in g && g[2] in g;
  }

  /** A list with the same elements as four strictly increasing values has no
      repeated element. */
  lemma DistinctSorted(xs: seq<real>, q: seq<real>)
    requires |q| == 4 && q[0] < q[1] < q[2] < q[3] && multiset(q) == multiset(xs)
    ensures |xs| == 4
    ensures forall i, j :: 0 <= i < j < 4 ==> xs[i] != xs[j]
  {
    assert |xs| == |multiset(xs)| == |multiset(q)| == 4;
    forall i, j | 0 <= i < j < 4 ensures xs[i] != xs[j] {
      if xs[i] == xs[j] {
        RepeatCounts(xs, i, j);
        IncreasingCounts(q, xs[i]);
      }
    }
  }

  lemma RepeatCounts(xs: seq<real>, i: int, j: int)
    requires 0 <= i < j < |xs| && xs[i] == xs[j]
    ensures multiset(xs)[xs[i]] >= 2
  {
    assert xs == xs[..i] + [xs[i]] + xs[i + 1..j] + [xs[j]] + xs[j + 1..];
  }

  lemma IncreasingCounts(q: seq<real>, v: real)
    requires |q| == 4 && q[0] < q[1] < q[2] < q[3]
    ensures multiset(q)[v] <= 1
  {
    assert q == [q[0]] + [q[1]] + [q[2]] + [q[3]];
  }

  /** Every ball of an accepted list lies at least four units from each wall. */
  lemma AcceptedWithinWalls(balls: seq<Ball>)
    requires |balls| >= 4 && Accepts(balls)
    ensures forall i :: 0 <= i < |balls| ==> -16.0 <= balls[i].position.x <= 16.0
  {
    var xs := Xs(balls);
    assert forall i :: 0 <= i < |balls| ==> xs[i] == balls[i].position.x;
  }

  /** Sorting an already sorted list changes nothing. */
  lemma {:induction false} SortSorted(s: seq<real>)
    requires SortedSeq(s)
    ensures Sort(s) == s
  {
    if s != [] {
      SortSorted(s[1..]);
      assert s == [s[0]] + s[1..];
    }
  }

  function Resting(x: real, y: real): Ball
  {
    Ball(Vec2(x, y), Vec2(0.0, 0.0), 0.3)
  }

  /** Four resting balls in a row from left to right, starting at x = a, with
      gaps g0, g1, g2; ball 1 lies dh above the others. */
  function Row(a: real, g0: real, g1: real, g2: real, h: real, dh: real): seq<Ball>
  {
    [Resting(a, h), Resting(a + g0, h + dh), Resting(a + g0 + g1, h), Resting(a + g0 + g1 + g2, h)]
  }

  lemma RowSortedGaps(a: real, g0: real, g1: real, g2: real, h: real, dh: real)
    requires g0 >= 0.0 && g1 >= 0.0 && g2 >= 0.0
    ensures Gaps(Sort(Xs(Row(a, g0, g1, g2, h, dh)))) == [g0, g1, g2]
  {
    var xs := [a, a + g0, a + g0 + g1, a + g0 + g1 + g2];
    var balls := Row(a, g0, g1, g2, h, dh);
    assert Xs(balls) == xs;
    SortSorted(xs);
    GapsOfRow(Sort(Xs(balls)), a, g0, g1, g2);
  }

  lemma GapsOfRow(q: seq<real>, a: real, g0: real, g1: real, g2: real)
    requires q == [a, a + g0, a + g0 + g1, a + g0 + g1 + g2]
    ensures Gaps(q) == [g0, g1, g2]
  {
  }

  lemma RowSpacing(a: real, g0: real, g1: real, g2: real, h: real, dh: real)
    requires g0 >= 0.0 && g1 >= 0.0 && g2 >= 0.0
    ensures EvenlySpaced(Row(a, g0, g1, g2, h, dh)) <==>
      4.0 <= g0 <= 4.2 && 4.0 <= g1 <= 4.2 && 4.0 <= g2 <= 4.2
  {
    RowSortedGaps(a, g0, g1, g2, h, dh);
    EvenlySpacedIff(Row(a, g0, g1, g2, h, dh));
    var g := [g0, g1, g2];
    assert g[0] in g && g[1] in g && g[2] in g;
  }

  lemma RowHeight(a: real, g0: real, g1: real, g2: real, h: real, dh: real)
    ensures SameHeight(Row(a, g0, g1, g2, h, dh)) <==> -0.1 <= dh <= 0.1
  {
    var balls := Row(a, g0, g1, g2, h, dh);
    SameHeightIff(balls);
    assert balls[1].position.y - balls[0].position.y == dh;
  }

  lemma RowWalls(a: real, g0: real, g1: real, g2: real, h: real, dh: real)
    requires g0 >= 0.0 && g1 >= 0.0 && g2 >= 0.0
    ensures AwayFromWalls(Row(a, g0, g1, g2, h, dh)) <==> -16.0 <= a && a + g0 + g1 + g2 <= 16.0
  {
    var balls := Row(a, g0, g1, g2, h, dh);
    AwayFromWallsIff(balls);
    assert balls[0].position.x == a && balls[3].position.x == a + g0 + g1 + g2;
  }

  /** A row of four balls is accepted exactly when each gap lies in
      [4.0, 4.2], ball 1 is at most 0.1 above or below the others, and the
      row lies within [-16, 16]. */
  lemma RowAccepted(a: real, g0: real, g1: real, g2: real, h: real, dh: real)
    requires g0 >= 0.0 && g1 >= 0.0 && g2 >= 0.0
    ensures Accepts(Row(a, g0, g1, g2, h, dh)) <==>
      4.0 <= g0 <= 4.2 && 4.0 <= g1 <= 4.2 && 4.0 <= g2 <= 4.2 &&
      -0.1 <= dh <= 0.1 && -16.0 <= a && a + g0 + g1 + g2 <= 16.0
  {
    RowSpacing(a, g0, g1, g2, h, dh);
    RowHeight(a, g0, g1, g2, h, dh);
    RowWalls(a, g0, g1, g2, h, dh);
  }

  /** Gaps of exactly 4.0 and 4.2 and a height difference of exactly 0.1 are
      accepted; a gap of 3.99 or 4.21, or a height difference of 0.1001, is
      rejected. */
  lemma BoundaryExamples(h: real)
    ensures Accepts(Row(-6.0, 4.0, 4.2, 4.2, h, 0.1))
    ensures Accepts(Row(-6.0, 4.0, 4.2, 4.2, h, -0.1))
    ensures !Accepts(Row(-6.0, 3.99, 4.2, 4.2, h, 0.0))
    ensures !Accepts(Row(-6.0, 4.0, 4.21, 4.2, h, 0.0))
    ensures !Accepts(Row(-6.0, 4.0, 4.2, 4.2, h, 0.1001))
  {
    RowAccepted(-6.0, 4.0, 4.2, 4.2, h, 0.1);
    RowAccepted(-6.0, 4.0, 4.2, 4.2, h, -0.1);
    RowAccepted(-6.0, 3.99, 4.2, 4.2, h, 0.0);
    RowAccepted(-6.0, 4.0, 4.21, 4.2, h, 0.0);
    RowAccepted(-6.0, 4.0, 4.2, 4.2, h, 0.1001);
  }
}
