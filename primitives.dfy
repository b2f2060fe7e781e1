/** The drawing primitives the layout planner hands to a renderer, and the
    small value helpers (optional cells, blank test, upper-casing) that the
    planner's steps share. A renderer's axis is modelled as the sequence of
    primitives it has received, in order. */
module Primitives {

  datatype Option<T> = None | Some(value: T)

  /** A point of the data-space plane (the axis' data coordinates). */
  datatype Point = Point(x: real, y: real)

  /** A displacement in screen-space offset points, not data coordinates. */
  datatype Offset = Offset(dx: real, dy: real)

  /** One call on the axis. Coordinates are data-space; `angleDeg`,
      `arrowLength` and `textOffset` are in screen-space offset points and are
      carried as given, never converted. */
  datatype Primitive =
    | SpineLine(tailEnd: Point, headEnd: Point)
    | HeadWedge(center: Point, radius: real, theta1: int, theta2: int)
    | ProblemText(at: Point, text: string, fontSize: real)
    | TailPolygon(vertices: seq<Point>)
    | BoneAnnotation(text: string, anchor: Point, angleDeg: int, arrowLength: real)
    | CauseAnnotation(text: string, anchor: Point, textOffset: Offset)

  function Min(a: int, b: int): int {
    if a <= b then a else b
  }

  /** The code points for which Python's `str.isspace` holds, i.e. what
      `str.strip()` removes. */
  predicate IsSpace(c: char) {
    var k := c as int;
    (9 <= k <= 13) || (28 <= k <= 32) || k == 0x85 || k == 0xA0 || k == 0x1680
    || (0x2000 <= k <= 0x200A) || k == 0x2028 || k == 0x2029 || k == 0x202F
    || k == 0x205F || k == 0x3000
  }

  /** `str(s).strip() == ''`. */
  predicate IsBlankText(s: string) {
    forall i :: 0 <= i < |s| ==> IsSpace(s[i])
  }

  /** A spreadsheet cell is blank when it is missing (`pd.notna` fails) or
      holds only whitespace. */
  predicate IsBlank(cell: Option<string>) {
    cell.None? || IsBlankText(cell.value)
  }

  function UpperChar(c: char): char {
    if 'a' <= c <= 'z' then (c as int - 32) as char else c
  }

  /** `str.upper()` restricted to the ASCII letters. */
  function Upper(s: string): string {
    seq(|s|, i requires 0 <= i < |s| => UpperChar(s[i]))
  }

  /** The bone annotations of a plan, in the order they were emitted. */
  function BonesOf(plan: seq<Primitive>): seq<Primitive> {
    if plan == [] then []
    else (if plan[0].BoneAnnotation? then [plan[0]] else []) + BonesOf(plan[1..])
  }

  lemma {:induction false} BonesOfAppend(a: seq<Primitive>, b: seq<Primitive>)
    ensures BonesOf(a + b) == BonesOf(a) + BonesOf(b)
  {
    if a != [] {
      assert (a + b)[0] == a[0] && (a + b)[1..] == a[1..] + b;
      BonesOfAppend(a[1..], b);
    } else {
      assert a + b == b;
    }
  }

  lemma {:induction false} BonesOfNone(plan: seq<Primitive>)
    requires forall k :: 0 <= k < |plan| ==> !plan[k].BoneAnnotation?
    ensures BonesOf(plan) == []
  {
    if plan != [] {
      BonesOfNone(plan[1..]);
    }
  }
}
