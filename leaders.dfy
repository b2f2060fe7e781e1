/** The cause leader placer (`causes`): blank causes are dropped, at most six
    are kept, and each kept cause gets a leader whose anchor walks the fixed
    offset table from the category's cause origin. */
module Leaders {
  import opened Primitives

  /** The `(dx, dy)` offset table; its length is the cap on causes. */
  const Offsets: seq<(real, real)> :=
    [(0.02, 0.0), (0.23, 0.5), (-0.46, -1.0), (0.69, 1.5), (-0.92, -2.0), (1.15, 2.5)]

  /** Text offset of every cause label, in offset points. */
  const LeaderTextOffset: Offset := Offset(-20.0, -0.3)

  /** Sum of the first `k` horizontal offsets. */
  function SumDx(k: nat): real
    requires k <= |Offsets|
  {
    if k == 0 then 0.0 else SumDx(k - 1) + Offsets[k - 1].0
  }

  /** Sum of the first `k` vertical offsets. */
  function SumDy(k: nat): real
    requires k <= |Offsets|
  {
    if k == 0 then 0.0 else SumDy(k - 1) + Offsets[k - 1].1
  }

  /** The causes that survive the blank filter, as text, in their original
      order. */
  function NonBlank(items: seq<Option<string>>): (kept: seq<string>)
    ensures |kept| <= |items|
    ensures forall s :: s in kept <==> Some(s) in items && !IsBlankText(s)
  {
    if items == [] then []
    else
      assert items == [items[0]] + items[1..];
      if IsBlank(items[0]) then NonBlank(items[1..])
      else [items[0].value] + NonBlank(items[1..])
  }

  /** The causes that get a leader: the first six non-blank ones. */
  function Retained(items: seq<Option<string>>): seq<string> {
    var kept := NonBlank(items);
    kept[..Min(|kept|, |Offsets|)]
  }

  /** The leader of the `k`-th retained cause: its anchor is the origin
      moved left by the first `k + 1` horizontal offsets and away from the
      spine (up when `top`, down otherwise) by the first `k + 1` vertical
      offsets. */
  function Leader(text: string, k: nat, cX: real, cY: real, top: bool): Primitive
    requires k < |Offsets|
  {
    var y := if top then cY + SumDy(k + 1) else cY - SumDy(k + 1);
    CauseAnnotation(text, Point(cX - SumDx(k + 1), y), LeaderTextOffset)
  }

  /** Every leader `causes` emits for one category, in order. */
  function CauseLeaders(items: seq<Option<string>>, cX: real, cY: real, top: bool): seq<Primitive> {
    var kept := Retained(items);
    seq(|kept|, k requires 0 <= k < |kept| => Leader(kept[k], k, cX, cY, top))
  }

  /** `causes(ax, items, c_x, c_y, top)`: filter, cap, then walk the offset
      table with running `x`/`y` accumulators, appending one leader per
      retained cause. */
  method Causes(ax: seq<Primitive>, items: seq<Option<string>>, cX: real, cY: real, top: bool)
    returns (out: seq<Primitive>)
    ensures out == ax + CauseLeaders(items, cX, cY, top)
  {
    var kept := NonBlank(items);
    kept := kept[..Min(|kept|, |Offsets|)];
    ghost var leaders := CauseLeaders(items, cX, cY, top);
    out := ax;
    var x, y := cX, cY;
    for idx := 0 to |kept|
      invariant x == cX - SumDx(idx)
      invariant y == if top then cY + SumDy(idx) else cY - SumDy(idx)
      invariant out == ax + leaders[..idx]
    {
      x := x - Offsets[idx].0;
      y := if top then y + Offsets[idx].1 else y - Offsets[idx].1;
      out := out + [CauseAnnotation(kept[idx], Point(x, y), LeaderTextOffset)];
      assert leaders[..idx + 1] == leaders[..idx] + [leaders[idx]];
    }
    assert leaders[..|kept|] == leaders;
  }

  /** Filtering distributes over concatenation: blank cells are dropped
      where they stand and the other causes keep their relative order. */
  lemma {:induction false} NonBlankAppend(a: seq<Option<string>>, b: seq<Option<string>>)
    ensures NonBlank(a + b) == NonBlank(a) + NonBlank(b)
  {
    if a != [] {
      assert (a + b)[0] == a[0] && (a + b)[1..] == a[1..] + b;
      NonBlankAppend(a[1..], b);
      if IsBlank(a[0]) {
        calc {
          NonBlank(a + b);
          NonBlank(a[1..] + b);
          NonBlank(a[1..]) + NonBlank(b);
        }
      } else {
        calc {
          NonBlank(a + b);
          [a[0].value] + NonBlank(a[1..] + b);
          [a[0].value] + (NonBlank(a[1..]) + NonBlank(b));
          ([a[0].value] + NonBlank(a[1..])) + NonBlank(b);
        }
      }
    } else {
      assert a + b == b;
    }
  }

  /** Without blank cells the filter keeps every cause, in order. */
  lemma {:induction false} NoBlanks(texts: seq<string>)
    requires forall k :: 0 <= k < |texts| ==> !IsBlankText(texts[k])
    ensures NonBlank(seq(|texts|, k requires 0 <= k < |texts| => Some(texts[k]))) == texts
  {
    var cells := seq(|texts|, k requires 0 <= k < |texts| => Some(texts[k]));
    if texts != [] {
      assert cells[1..] == seq(|texts[1..]|, k requires 0 <= k < |texts[1..]| => Some(texts[1..][k]));
      NoBlanks(texts[1..]);
      assert texts == [texts[0]] + texts[1..];
    }
  }

  /** There are `min(6, #non-blank)` leaders, the `k`-th one carrying the
      `k`-th non-blank cause's text unchanged, at the fixed text offset. */
  lemma LeaderTexts(items: seq<Option<string>>, cX: real, cY: real, top: bool)
    ensures var leaders := CauseLeaders(items, cX, cY, top);
      && |leaders| == Min(|NonBlank(items)|, 6)
      && forall k :: 0 <= k < |leaders| ==>
           leaders[k].CauseAnnotation? && leaders[k].text == NonBlank(items)[k]
           && leaders[k].textOffset == Offset(-20.0, -0.3)
  {
  }

  /** No leader at all exactly when every cause is blank (this includes the
      empty list). */
  lemma NoLeadersIffAllBlank(items: seq<Option<string>>, cX: real, cY: real, top: bool)
    ensures CauseLeaders(items, cX, cY, top) == [] <==> forall k :: 0 <= k < |items| ==> IsBlank(items[k])
  {
    var kept := NonBlank(items);
    if CauseLeaders(items, cX, cY, top) == [] {
      assert |Retained(items)| == 0;
      assert kept == [];
    } else {
      var s := kept[0];
      assert s in kept;
      var j :| 0 <= j < |items| && items[j] == Some(s);
      assert !IsBlank(items[j]);
    }
  }

  /** Causes after the sixth non-blank one are ignored: appending anything
      to such a list does not change its leaders. */
  lemma {:induction false} CapAtSix(a: seq<Option<string>>, b: seq<Option<string>>, cX: real, cY: real, top: bool)
    requires |NonBlank(a)| >= 6
    ensures CauseLeaders(a + b, cX, cY, top) == CauseLeaders(a, cX, cY, top)
  {
    NonBlankAppend(a, b);
    assert Retained(a + b) == Retained(a);
  }

  /** With no blank cell, the leaders carry the first six causes in order
      (seven causes "A" to "G" give six leaders and "G" is dropped). */
  lemma KeepsFirstSix(texts: seq<string>, cX: real, cY: real, top: bool)
    requires forall k :: 0 <= k < |texts| ==> !IsBlankText(texts[k])
    ensures var leaders := CauseLeaders(seq(|texts|, k requires 0 <= k < |texts| => Some(texts[k])), cX, cY, top);
      && |leaders| == Min(|texts|, 6)
      && forall k :: 0 <= k < |leaders| ==> leaders[k].text == texts[k]
  {
    NoBlanks(texts);
  }

  lemma PrefixSums()
    ensures SumDx(1) == 0.02 && SumDx(2) == 0.25 && SumDx(3) == -0.21
    ensures SumDx(4) == 0.48 && SumDx(5) == -0.44 && SumDx(6) == 0.71
    ensures SumDy(1) == 0.0 && SumDy(2) == 0.5 && SumDy(3) == -0.5
    ensures SumDy(4) == 1.0 && SumDy(5) == -1.0 && SumDy(6) == 1.5
  {
  }

  /** The walk never moves more than 0.44 right of, or 0.71 left of, the
      origin, and never more than 1.0 towards or 1.5 away from the spine. */
  lemma SumBounds(k: nat)
    requires k <= |Offsets|
    ensures -0.44 <= SumDx(k) <= 0.71
    ensures -1.0 <= SumDy(k) <= 1.5
  {
    PrefixSums();
    assert k == 0 || k == 1 || k == 2 || k == 3 || k == 4 || k == 5 || k == 6;
  }

  /** Leaders started from the top origin `1.7` stay in `[0.7, 3.2]`, those
      started from the bottom origin `-1.7` in `[-3.2, -0.7]`: they never
      reach the spine and stay well inside the axis' `[-6, 6]` limits. Every
      anchor lies within `[cX - 0.71, cX + 0.44]`. */
  lemma LeadersInBand(items: seq<Option<string>>, cX: real, top: bool)
    ensures var leaders := CauseLeaders(items, cX, if top then 1.7 else -1.7, top);
      forall k :: 0 <= k < |leaders| ==>
        && leaders[k].CauseAnnotation?
        && cX - 0.71 <= leaders[k].anchor.x <= cX + 0.44
        && (if top then 0.7 <= leaders[k].anchor.y <= 3.2
            else -3.2 <= leaders[k].anchor.y <= -0.7)
  {
    var leaders := CauseLeaders(items, cX, if top then 1.7 else -1.7, top);
    forall k | 0 <= k < |leaders|
      ensures cX - 0.71 <= leaders[k].anchor.x <= cX + 0.44
      ensures if top then 0.7 <= leaders[k].anchor.y <= 3.2 else -3.2 <= leaders[k].anchor.y <= -0.7
    {
      SumBounds(k + 1);
    }
  }

  /** Top and bottom leaders are vertical mirrors: the same causes from
      origins `cY` and `-cY` give the same texts and x, and opposite y. */
  lemma LeadersMirror(items: seq<Option<string>>, cX: real, cY: real)
    ensures var up := CauseLeaders(items, cX, cY, true);
            var down := CauseLeaders(items, cX, -cY, false);
      && |up| == |down|
      && forall k :: 0 <= k < |up| ==>
           up[k].text == down[k].text && up[k].anchor.x == down[k].anchor.x
           && up[k].anchor.y == -down[k].anchor.y && up[k].textOffset == down[k].textOffset
  {
  }
}
