/** The category placer (`problems` and `draw_body`): the spine first, then
    for each category in table order a bone label, alternating above and
    below the spine, followed by that category's cause leaders. */
module Body {
  import opened Primitives
  import opened Geometry
  import opened Leaders

  /** One table column: the category label and its cause cells, in order. */
  datatype Category = Category(name: string, causes: seq<Option<string>>)

  /** Horizontal distance between successive top/bottom pairs of bones. */
  const BoneSpacing: real := 4.0
  /** `anchor_xy`: bone label anchor and cause origin, before `length` and
      the running offset are added. */
  const BoneAnchorX: real := 1.55
  const CauseAnchorX: real := 0.5
  /** Vertical start of the cause walk, above (+) or below (-) the spine. */
  const CauseStartY: real := 1.7

  /** Even indices go above the spine, odd ones below. */
  predicate IsUpper(i: nat) {
    i % 2 == 0
  }

  function AngleY(upper: bool): int {
    if upper then 16 else -16
  }

  /** Only the sign of `angleY` matters: the bone arrow is at +52 or -52
      degrees. */
  function FixedAngle(angleY: int): int {
    if angleY > 0 then 52 else -52
  }

  /** `problems(ax, label, p_x, p_y, angle_y, bone_length)`: one upper-cased
      bone label anchored at `(pX, pY)`. */
  method Problems(ax: seq<Primitive>, text: string, pX: real, pY: real, angleY: int, boneLength: real)
    returns (out: seq<Primitive>)
    ensures out == ax + [BoneAnnotation(Upper(text), Point(pX, pY), FixedAngle(angleY), boneLength)]
  {
    var fixedAngleDegrees := if angleY > 0 then 52 else -52;
    out := ax + [BoneAnnotation(Upper(text), Point(pX, pY), fixedAngleDegrees, boneLength)];
  }

  /** The running `offset` before category `i` is placed: it starts at 0
      and drops by `BoneSpacing` right after each odd (bottom) category. */
  function RunningOffset(i: nat): real {
    if i == 0 then 0.0
    else RunningOffset(i - 1) - (if IsUpper(i - 1) then 0.0 else BoneSpacing)
  }

  /** Closed form of the running offset: one spacing per completed
      top/bottom pair. */
  lemma {:induction false} RunningOffsetClosedForm(i: nat)
    ensures RunningOffset(i) == -BoneSpacing * ((i / 2) as real)
  {
    if i > 0 {
      RunningOffsetClosedForm(i - 1);
      if IsUpper(i - 1) {
        assert i / 2 == (i - 1) / 2;
      } else {
        assert i / 2 == (i - 1) / 2 + 1;
      }
    }
  }

  function BoneX(length: int, i: nat): real {
    BoneAnchorX + length as real + RunningOffset(i)
  }

  function CauseX(length: int, i: nat): real {
    CauseAnchorX + length as real + RunningOffset(i)
  }

  function CauseY(i: nat): real {
    if IsUpper(i) then CauseStartY else -CauseStartY
  }

  /** The bone label of category `c` placed at index `i`. */
  function Bone(c: Category, length: int, boneLength: real, i: nat): Primitive {
    BoneAnnotation(Upper(c.name), Point(BoneX(length, i), 0.0), FixedAngle(AngleY(IsUpper(i))), boneLength)
  }

  /** One iteration of the category loop applied to the plan so far: the
      bone, then the leaders when the cause list is non-empty. */
  function AddCategory(plan: seq<Primitive>, c: Category, length: int, boneLength: real, i: nat): seq<Primitive> {
    var withBone := plan + [Bone(c, length, boneLength, i)];
    if c.causes != [] then withBone + CauseLeaders(c.causes, CauseX(length, i), CauseY(i), IsUpper(i))
    else withBone
  }

  /** The plan after the first `n` iterations of the category loop, started
      from `plan`. */
  function PlaceCategories(plan: seq<Primitive>, cats: seq<Category>, length: int, boneLength: real, n: nat): seq<Primitive>
    requires n <= |cats|
  {
    if n == 0 then plan
    else AddCategory(PlaceCategories(plan, cats, length, boneLength, n - 1), cats[n - 1], length, boneLength, n - 1)
  }

  /** Everything `draw_body` adds to the axis. */
  function Plan(cats: seq<Category>, headRadius: real, problemFontSize: real,
                mainProblem: string, boneLength: real): seq<Primitive>
  {
    var n := |cats|;
    PlaceCategories(SpinePrimitives(XTail(n), XHead(n), headRadius, mainProblem, problemFontSize),
                    cats, SpineLength(n), boneLength, n)
  }

  /** `draw_body(ax, categories, head_radius, problem_fontsize, main_problem,
      bone_length)`. */
  method DrawBody(ax: seq<Primitive>, cats: seq<Category>, headRadius: real, problemFontSize: real,
                  mainProblem: string, boneLength: real)
    returns (out: seq<Primitive>)
    ensures out == ax + Plan(cats, headRadius, problemFontSize, mainProblem, boneLength)
  {
    var nCat := |cats|;
    var length := (nCat + 1) / 2 - 1;
    var xTail := TailOffset(nCat) - length as real;
    var xHead := 2.0 + length as real;

    out := DrawSpine(ax, xTail, xHead, headRadius, mainProblem, problemFontSize);
    ghost var spine := out;

    var offset := 0.0;
    for idx := 0 to nCat
      invariant offset == RunningOffset(idx)
      invariant out == PlaceCategories(spine, cats, length, boneLength, idx)
    {
      var upper := idx % 2 == 0;
      var causeY := if upper then 1.7 else -1.7;
      var angleY := if upper then 16 else -16;

      var pX := BoneAnchorX + length as real + offset;
      var cX := CauseAnchorX + length as real + offset;
      assert pX == BoneX(length, idx) && cX == CauseX(length, idx);
      if !upper {
        offset := offset - BoneSpacing;
      }

      out := Problems(out, cats[idx].name, pX, 0.0, angleY, boneLength);
      if cats[idx].causes != [] {
        out := Causes(out, cats[idx].causes, cX, causeY, upper);
      }
    }
    PlanPrefix(ax, SpinePrimitives(xTail, xHead, headRadius, mainProblem, problemFontSize), cats, length, boneLength, nCat);
  }

  /** What is already on the axis is kept and the categories are appended
      after it. */
  lemma {:induction false} PlanPrefix(ax: seq<Primitive>, plan: seq<Primitive>, cats: seq<Category>,
                                      length: int, boneLength: real, n: nat)
    requires n <= |cats|
    ensures PlaceCategories(ax + plan, cats, length, boneLength, n) == ax + PlaceCategories(plan, cats, length, boneLength, n)
  {
    if n > 0 {
      PlanPrefix(ax, plan, cats, length, boneLength, n - 1);
      var c := cats[n - 1];
      var p := PlaceCategories(plan, cats, length, boneLength, n - 1);
      var b := [Bone(c, length, boneLength, n - 1)];
      assert (ax + p) + b == ax + (p + b);
      if c.causes != [] {
        var leaders := CauseLeaders(c.causes, CauseX(length, n - 1), CauseY(n - 1), IsUpper(n - 1));
        assert (ax + (p + b)) + leaders == ax + ((p + b) + leaders);
      }
    }
  }

  /** Bone `i`: anchored on the spine at `1.55 + length - 4 * (i div 2)`,
      its cause origin 1.05 to the left of that, the label upper-cased, the
      arrow `boneLength` long at +52 degrees for even `i` (top) and -52 for
      odd `i` (bottom). */
  lemma BoneFacts(c: Category, length: int, boneLength: real, i: nat)
    ensures var b := Bone(c, length, boneLength, i);
      && b.BoneAnnotation?
      && b.anchor == Point(1.55 + length as real - 4.0 * ((i / 2) as real), 0.0)
      && CauseX(length, i) == b.anchor.x - 1.05
      && b.text == Upper(c.name) && b.arrowLength == boneLength
      && b.angleDeg == (if i % 2 == 0 then 52 else -52)
  {
    RunningOffsetClosedForm(i);
  }

  /** A top bone and the bottom bone after it share their x: categories
      `2k` and `2k + 1` sit at the same distance from the head, and the next
      pair is one spacing further from it. */
  lemma {:induction false} PairsShareX(length: int, k: nat)
    ensures BoneX(length, 2 * k) == BoneX(length, 2 * k + 1)
    ensures CauseX(length, 2 * k) == CauseX(length, 2 * k + 1)
    ensures BoneX(length, 2 * k + 2) == BoneX(length, 2 * k) - BoneSpacing
  {
    RunningOffsetClosedForm(2 * k);
    RunningOffsetClosedForm(2 * k + 1);
    RunningOffsetClosedForm(2 * k + 2);
  }

  /** A category whose causes are all blank (or which has none) gets its
      bone and nothing else. */
  lemma BoneOnly(plan: seq<Primitive>, c: Category, length: int, boneLength: real, i: nat)
    requires forall k :: 0 <= k < |c.causes| ==> IsBlank(c.causes[k])
    ensures AddCategory(plan, c, length, boneLength, i) == plan + [Bone(c, length, boneLength, i)]
  {
    NoLeadersIffAllBlank(c.causes, CauseX(length, i), CauseY(i), IsUpper(i));
  }

  /** One iteration adds exactly one bone label: leaders are not bones. */
  lemma AddCategoryBones(plan: seq<Primitive>, c: Category, length: int, boneLength: real, i: nat)
    ensures BonesOf(AddCategory(plan, c, length, boneLength, i)) == BonesOf(plan) + [Bone(c, length, boneLength, i)]
  {
    var b := Bone(c, length, boneLength, i);
    BonesOfAppend(plan, [b]);
    assert BonesOf([b]) == [b];
    if c.causes != [] {
      var leaders := CauseLeaders(c.causes, CauseX(length, i), CauseY(i), IsUpper(i));
      BonesOfNone(leaders);
      BonesOfAppend(plan + [b], leaders);
      assert BonesOf(plan + [b]) + [] == BonesOf(plan + [b]);
    }
  }

  /** The bone labels of the first `n` categories, in order. */
  function Bones(cats: seq<Category>, length: int, boneLength: real, n: nat): seq<Primitive>
    requires n <= |cats|
  {
    if n == 0 then [] else Bones(cats, length, boneLength, n - 1) + [Bone(cats[n - 1], length, boneLength, n - 1)]
  }

  lemma {:induction false} BonesAt(cats: seq<Category>, length: int, boneLength: real, n: nat)
    requires n <= |cats|
    ensures |Bones(cats, length, boneLength, n)| == n
    ensures forall i :: 0 <= i < n ==> Bones(cats, length, boneLength, n)[i] == Bone(cats[i], length, boneLength, i)
  {
    if n > 0 {
      BonesAt(cats, length, boneLength, n - 1);
    }
  }

  lemma {:induction false} PlacedBones(plan: seq<Primitive>, cats: seq<Category>, length: int, boneLength: real, n: nat)
    requires n <= |cats|
    ensures BonesOf(PlaceCategories(plan, cats, length, boneLength, n)) == BonesOf(plan) + Bones(cats, length, boneLength, n)
  {
    if n == 0 {
      assert BonesOf(plan) + [] == BonesOf(plan);
    } else {
      PlacedBones(plan, cats, length, boneLength, n - 1);
      var p := PlaceCategories(plan, cats, length, boneLength, n - 1);
      var earlier := Bones(cats, length, boneLength, n - 1);
      var b := Bone(cats[n - 1], length, boneLength, n - 1);
      AddCategoryBones(p, cats[n - 1], length, boneLength, n - 1);
      assert (BonesOf(plan) + earlier) + [b] == BonesOf(plan) + (earlier + [b]);
    }
  }

  /** Exactly one bone label per category, in table order. */
  lemma OneBonePerCategory(cats: seq<Category>, headRadius: real, problemFontSize: real,
                           mainProblem: string, boneLength: real)
    ensures var n := |cats|;
            var bones := BonesOf(Plan(cats, headRadius, problemFontSize, mainProblem, boneLength));
      && |bones| == n
      && forall i :: 0 <= i < n ==> bones[i] == Bone(cats[i], SpineLength(n), boneLength, i)
  {
    var n := |cats|;
    var spine := SpinePrimitives(XTail(n), XHead(n), headRadius, mainProblem, problemFontSize);
    BonesOfNone(spine);
    PlacedBones(spine, cats, SpineLength(n), boneLength, n);
    BonesAt(cats, SpineLength(n), boneLength, n);
    assert BonesOf(spine) + Bones(cats, SpineLength(n), boneLength, n) == Bones(cats, SpineLength(n), boneLength, n);
  }

  /** Where a bone label or a cause leader may be anchored: left of the head
      `xHead`; a bone on the spine, a leader between 0.7 and 3.2 away from it
      on either side, and hence inside the axis' fixed `[-6, 6]` vertical
      limits. */
  predicate WellPlaced(p: Primitive, xHead: real) {
    && (p.BoneAnnotation? ==> p.anchor.x < xHead && p.anchor.y == 0.0)
    && (p.CauseAnnotation? ==>
          p.anchor.x < xHead
          && (0.7 <= p.anchor.y <= 3.2 || -3.2 <= p.anchor.y <= -0.7))
  }

  lemma {:induction false} PlacedWellPlaced(plan: seq<Primitive>, cats: seq<Category>, length: int, boneLength: real, n: nat)
    requires n <= |cats|
    requires forall p :: p in plan ==> WellPlaced(p, 2.0 + length as real)
    ensures forall p :: p in PlaceCategories(plan, cats, length, boneLength, n) ==> WellPlaced(p, 2.0 + length as real)
  {
    if n > 0 {
      PlacedWellPlaced(plan, cats, length, boneLength, n - 1);
      var i := n - 1;
      var c := cats[i];
      RunningOffsetClosedForm(i);
      if c.causes != [] {
        LeadersInBand(c.causes, CauseX(length, i), IsUpper(i));
      }
    }
  }

  /** Every anchor of the plan is left of the head, bones sit on the spine
      and no leader touches it. */
  lemma AnchorsWellPlaced(cats: seq<Category>, headRadius: real, problemFontSize: real,
                          mainProblem: string, boneLength: real)
    ensures forall p :: p in Plan(cats, headRadius, problemFontSize, mainProblem, boneLength) ==>
              WellPlaced(p, XHead(|cats|))
  {
    var n := |cats|;
    var spine := SpinePrimitives(XTail(n), XHead(n), headRadius, mainProblem, problemFontSize);
    PlacedWellPlaced(spine, cats, SpineLength(n), boneLength, n);
  }

  /** The anchors are not all right of the tail: the last bone lies left of
      `xTail` exactly from nine categories on, and left of the axis' left
      limit `xTail - 2` exactly from eleven. */
  lemma {:induction false} BonePastTail(n: nat)
    requires n >= 1
    ensures BoneX(SpineLength(n), n - 1) < XTail(n) <==> n >= 9
    ensures BoneX(SpineLength(n), n - 1) < XTail(n) - 2.0 <==> n >= 11
  {
    RunningOffsetClosedForm(n - 1);
    var m := n / 2;
    if n % 2 == 1 {
      assert SpineLength(n) == m && (n - 1) / 2 == m;
    } else {
      assert SpineLength(n) == m - 1 && (n - 1) / 2 == m - 1;
    }
  }

  /** The last category's cause origin reaches `xTail` exactly from seven
      categories on; its first leader is then 0.02 further left. */
  lemma {:induction false} CauseOriginPastTail(n: nat)
    requires n >= 1
    ensures CauseX(SpineLength(n), n - 1) <= XTail(n) <==> n >= 7
  {
    RunningOffsetClosedForm(n - 1);
    var m := n / 2;
    if n % 2 == 1 {
      assert SpineLength(n) == m && (n - 1) / 2 == m;
    } else {
      assert SpineLength(n) == m - 1 && (n - 1) / 2 == m - 1;
    }
  }
}
