/** Tail sizing, spine extent and the spine, head, problem label and tail fin
    drawn by `draw_spine`. */
module Geometry {
  import opened Primitives

  /** The tail extension for a diagram with `nCat` categories: a step
      function of the category count. */
  function TailOffset(nCat: int): (r: real)
    ensures -5.5 <= r <= -2.0
  {
    if nCat < 3 then -2.0
    else if nCat < 5 then -4.0
    else -5.5
  }

  lemma TailOffsetSteps(nCat: int)
    ensures nCat < 3 ==> TailOffset(nCat) == -2.0
    ensures 3 <= nCat <= 4 ==> TailOffset(nCat) == -4.0
    ensures 5 <= nCat ==> TailOffset(nCat) == -5.5
  {
  }

  lemma TailOffsetNonIncreasing(m: int, n: int)
    requires m <= n
    ensures TailOffset(n) <= TailOffset(m)
  {
  }

  /** `math.ceil(nCat / 2) - 1`: the number of extra spine units beyond one
      top/bottom pair of bones. `r + 1` is the least integer whose double
      reaches `nCat`, which is what the ceiling of `nCat / 2` is. */
  function SpineLength(nCat: nat): (r: int)
    ensures 2 * r < nCat <= 2 * r + 2
  {
    (nCat + 1) / 2 - 1
  }

  /** Left end of the spine proper (the tail fin's apex). */
  function XTail(nCat: nat): real {
    TailOffset(nCat) - SpineLength(nCat) as real
  }

  /** Right end of the spine (the head's centre). */
  function XHead(nCat: nat): real {
    2.0 + SpineLength(nCat) as real
  }

  /** More categories never make the fish narrower. */
  lemma WidthNonDecreasing(m: nat, n: nat)
    requires m <= n
    ensures XHead(m) - XTail(m) <= XHead(n) - XTail(n)
  {
    TailOffsetNonIncreasing(m, n);
  }

  /** One or two categories: no extra spine, tail at -2, head at 2. */
  lemma FewCategories(nCat: nat)
    requires 1 <= nCat <= 2
    ensures SpineLength(nCat) == 0 && XTail(nCat) == -2.0 && XHead(nCat) == 2.0
  {
  }

  /** The four primitives `draw_spine` adds, in order: spine line, head
      wedge, problem label, tail fin. */
  function SpinePrimitives(xTail: real, xHead: real, headRadius: real,
                           mainProblem: string, problemFontSize: real): seq<Primitive>
  {
    [ SpineLine(Point(xTail - 0.1, 0.0), Point(xHead, 0.0)),
      HeadWedge(Point(xHead, 0.0), headRadius, 270, 90),
      ProblemText(Point(xHead + headRadius / 6.0, -0.05), Upper(mainProblem), problemFontSize),
      TailPolygon([Point(xTail - 0.8, 0.8), Point(xTail - 0.8, -0.8), Point(xTail, 0.0)]) ]
  }

  method DrawSpine(ax: seq<Primitive>, xTail: real, xHead: real, headRadius: real,
                   mainProblem: string, problemFontSize: real)
    returns (out: seq<Primitive>)
    ensures out == ax + SpinePrimitives(xTail, xHead, headRadius, mainProblem, problemFontSize)
  {
    out := ax + [SpineLine(Point(xTail - 0.1, 0.0), Point(xHead, 0.0))];
    out := out + [HeadWedge(Point(xHead, 0.0), headRadius, 270, 90)];
    out := out + [ProblemText(Point(xHead + headRadius / 6.0, -0.05), Upper(mainProblem), problemFontSize)];
    var tail := [Point(xTail - 0.8, 0.8), Point(xTail - 0.8, -0.8), Point(xTail, 0.0)];
    out := out + [TailPolygon(tail)];
  }

  /** How the spine pieces fit together: the spine is horizontal on y = 0 and
      ends at the head's centre; the head is the right-facing half disc
      (270 to 90 degrees); the label starts between the head's centre and
      its rim, 0.05 below the spine; the tail fin is a triangle symmetric about the spine whose apex
      is at `xTail` and whose back edge is 0.8 further left, so the spine's
      left end (0.1 left of the apex) lies inside the fin. */
  lemma SpineLayout(xTail: real, xHead: real, headRadius: real,
                    mainProblem: string, problemFontSize: real)
    requires headRadius > 0.0
    ensures var s := SpinePrimitives(xTail, xHead, headRadius, mainProblem, problemFontSize);
      && |s| == 4
      && s[0].SpineLine? && s[0].tailEnd.y == 0.0 && s[0].headEnd.y == 0.0
      && s[0].tailEnd.x == xTail - 0.1 && s[0].headEnd.x == xHead
      && s[1].HeadWedge? && s[1].center == s[0].headEnd && s[1].radius == headRadius
      && s[1].theta1 == 270 && s[1].theta2 == 90
      && s[2].ProblemText? && s[2].text == Upper(mainProblem) && s[2].fontSize == problemFontSize
      && xHead < s[2].at.x < xHead + headRadius && s[2].at.y == -0.05
      && s[3].TailPolygon? && |s[3].vertices| == 3
      && s[3].vertices[2] == Point(xTail, 0.0)
      && s[3].vertices[0] == Point(xTail - 0.8, 0.8)
      && s[3].vertices[1] == Point(s[3].vertices[0].x, -s[3].vertices[0].y)
      && s[3].vertices[0].x < s[0].tailEnd.x < s[3].vertices[2].x
  {
  }

  /** A point lies in the head drawn at `center` with radius `r`: the
      right-facing half disc swept from 270 to 90 degrees. */
  predicate InHead(p: Point, center: Point, r: real) {
    center.x <= p.x && (p.x - center.x) * (p.x - center.x) + (p.y - center.y) * (p.y - center.y) < r * r
  }

  /** The label's anchor is inside the head exactly when the radius is
      positive and `35 r^2 > 0.09` (about `r > 0.0507`); in particular for
      every radius of at least 0.1. */
  lemma LabelInHead(xTail: real, xHead: real, headRadius: real,
                    mainProblem: string, problemFontSize: real)
    ensures var s := SpinePrimitives(xTail, xHead, headRadius, mainProblem, problemFontSize);
      InHead(s[2].at, s[1].center, headRadius) <==> headRadius > 0.0 && 35.0 * headRadius * headRadius > 0.09
    ensures headRadius >= 0.1 ==>
      InHead(SpinePrimitives(xTail, xHead, headRadius, mainProblem, problemFontSize)[2].at, Point(xHead, 0.0), headRadius)
  {
    var dx := headRadius / 6.0;
    var rr := headRadius * headRadius;
    assert dx * dx == rr / 36.0;
    assert dx * dx + 0.05 * 0.05 < rr <==> 35.0 * rr > 0.09;
    assert 0.0 <= dx <==> 0.0 <= headRadius;
    assert headRadius == 0.0 ==> rr == 0.0;
    if headRadius >= 0.1 {
      assert headRadius * headRadius >= 0.01;
    }
  }
}
