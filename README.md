# Fishbone layout planner

A Dafny model of the layout planner of a fishbone (Ishikawa) diagram
generator. Given an ordered list of categories, each with an ordered list of
cause cells, a main problem and three style numbers (head radius, problem
font size, bone length), the planner emits the drawing calls that make the
diagram: a horizontal spine, a half-disc head with the upper-cased problem, a
triangular tail fin sized by the number of categories, one bone label per
category alternating above and below the spine, and a leader per cause that
walks a fixed table of six offsets away from the bone.

The plotting axis is modelled as the sequence of primitives it has received
(`Primitives.Primitive`: `SpineLine`, `HeadWedge`, `ProblemText`,
`TailPolygon`, `BoneAnnotation`, `CauseAnnotation`). Every drawing routine is
a method that takes the axis so far and returns it with its primitives
appended; coordinates are exact `real`s.

- `primitives.dfy` — the primitives, optional cells, the blank-cell test
  (exactly the code points Python's `str.isspace` accepts), ASCII
  upper-casing.
- `geometry.dfy` — `tail_offset`, the spine extent (`length`, `x_tail`,
  `x_head`) and `draw_spine`.
- `leaders.dfy` — `causes`: filter blank cells, keep at most six, walk the
  offset table with running `c_x`/`c_y`. The method's loop invariants tie the
  accumulators to the prefix sums `SumDx`/`SumDy` of the table.
- `body.dfy` — `problems` and `draw_body`: the category loop with its running
  `offset`, whose invariant ties it to `RunningOffset`, proved equal to
  `-4 * (i div 2)`.

The planner does not keep every anchor right of the tail. From seven
categories on, the last category's cause origin lies on or left of `x_tail`
(`Body.CauseOriginPastTail`). From nine on, the last bone lies left of
`x_tail`, and from eleven on it lies left of the axis' left limit
`x_tail - 2` (`Body.BonePastTail`). The model follows the code here.

## Model

| member | source | states |
|---|---|---|
| Geometry.TailOffset | app.py:19-25 | the tail offset is defined for every category count and lies between -5.5 and -2 |
| Geometry.TailOffsetSteps | app.py:19-25 | -2 below three categories, -4 for three or four, -5.5 from five on |
| Geometry.TailOffsetNonIncreasing | app.py:19-25 | more categories never shorten the tail |
| Geometry.SpineLength | app.py:72 | `length + 1` is the ceiling of `n / 2`: `2 * length < n <= 2 * length + 2` |
| Geometry.WidthNonDecreasing | app.py:72-74 | `x_head - x_tail` never decreases as the category count grows |
| Geometry.FewCategories | app.py:72-74 | with one or two categories `length = 0`, `x_tail = -2`, `x_head = 2` |
| Geometry.DrawSpine | app.py:62-68 | appends exactly the spine line, head wedge, problem label and tail fin, in that order |
| Geometry.SpineLayout | app.py:62-68 | spine from `x_tail - 0.1` to the head centre `(x_head, 0)`; wedge of radius `head_radius` from 270 to 90 degrees; upper-cased label at `(x_head + head_radius / 6, -0.05)`, between the head's centre and its rim; tail fin `(x_tail - 0.8, ±0.8)`, `(x_tail, 0)`, symmetric about the spine and containing the spine's left end |
| Geometry.LabelInHead | app.py:64-66 | the label's anchor lies inside the right-facing half-disc head exactly when `head_radius > 0` and `35 head_radius² > 0.09`; so it does for every radius the page accepts (at least 0.1, app.py:102) |
| Leaders.NonBlank | app.py:50 | the filtered causes are exactly the non-blank texts of the cells, never more than there were cells |
| Leaders.NonBlankAppend | app.py:50 | filtering distributes over concatenation, so surviving causes keep their relative order |
| Leaders.NoBlanks | app.py:50 | without blank cells every cause is kept, text unchanged, in order |
| Leaders.Causes | app.py:45-60 | appends one leader per retained cause; the k-th is anchored at `(c_x - Σ_{j≤k} dx_j, c_y ± Σ_{j≤k} dy_j)` (+ for top) with text offset `(-20, -0.3)` |
| Leaders.LeaderTexts | app.py:50-57 | there are `min(6, #non-blank)` leaders and the k-th carries the k-th non-blank cause's text, not upper-cased, at offset `(-20, -0.3)` |
| Leaders.NoLeadersIffAllBlank | app.py:50-53 | a cause list yields no leader exactly when every cell is blank, the empty list included |
| Leaders.CapAtSix | app.py:52 | once six non-blank causes are present, further causes change nothing |
| Leaders.KeepsFirstSix | app.py:50-52 | with no blank cell the leaders carry the first six causes in order (seven causes: the seventh is dropped) |
| Leaders.PrefixSums | app.py:46-47 | the running sums of the offset table: dx 0.02, 0.25, -0.21, 0.48, -0.44, 0.71 and dy 0, 0.5, -0.5, 1, -1, 1.5 |
| Leaders.SumBounds | app.py:46-47 | every dx prefix sum lies in [-0.44, 0.71] and every dy prefix sum in [-1, 1.5] |
| Leaders.LeadersInBand | app.py:54-57 | leaders started at 1.7 stay in y ∈ [0.7, 3.2], at -1.7 in [-3.2, -0.7], and x ∈ [c_x - 0.71, c_x + 0.44] |
| Leaders.LeadersMirror | app.py:54-57 | top leaders from `c_y` and bottom leaders from `-c_y` have the same texts and x and opposite y |
| Body.Problems | app.py:30-43 | appends one bone label: upper-cased text, anchor `(p_x, p_y)`, angle +52 when `angle_y > 0` and -52 otherwise, arrow length `bone_length` |
| Body.RunningOffsetClosedForm | app.py:78-89 | the running offset before category i is `-4 * (i div 2)`: it drops by 4 only after odd categories |
| Body.DrawBody | app.py:70-93 | appends the spine, then for each category in order its bone label and, if its cause list is non-empty, its leaders from `(c_x, ±1.7)`; offset kept equal to the running-offset fold |
| Body.PlanPrefix | app.py:70-93 | the category loop only appends: what was already on the axis is kept in front |
| Body.BoneFacts | app.py:81-91 | bone i is anchored at `(1.55 + length - 4 * (i div 2), 0)` with cause origin 1.05 to its left, upper-cased label, arrow `bone_length`, +52 for even i and -52 for odd i |
| Body.PairsShareX | app.py:86-89 | categories 2k and 2k+1 share their bone and cause x; the next pair is 4 closer to the tail |
| Body.BoneOnly | app.py:92-93 | a category with no or only blank causes adds its bone and nothing else |
| Body.AddCategoryBones | app.py:91-93 | one loop iteration adds exactly one bone label |
| Body.BonesAt | app.py:81-91 | the bones of the first n categories are n, the i-th being category i's |
| Body.PlacedBones | app.py:81-93 | the bone labels after n iterations are those before followed by the n categories' bones, in order |
| Body.OneBonePerCategory | app.py:81-91 | the plan holds exactly one bone label per category, in table order |
| Body.PlacedWellPlaced | app.py:81-93 | each iteration keeps every anchor left of `x_head`, bones on the spine and leaders 0.7 to 3.2 off it |
| Body.AnchorsWellPlaced | app.py:72-93 | in the whole plan every bone and cause anchor has x < `x_head`, bones have y = 0 and leaders y in [0.7, 3.2] or [-3.2, -0.7], which implies they stay inside the fixed ±6 vertical limits |
| Body.BonePastTail | app.py:72-89 | the last bone's anchor lies left of `x_tail` exactly when there are at least nine categories, and left of the axis limit `x_tail - 2` (app.py:135) exactly when there are at least eleven |
| Body.CauseOriginPastTail | app.py:72-89 | the last category's cause origin lies on or left of `x_tail` exactly when there are at least seven categories |

## Left out

- The Streamlit page, its widgets, buttons and error stops (app.py:96-179): user interface, not layout.
- Spreadsheet reading with pandas (app.py:109-126): a foreign library. Its result enters the model as a `seq<Category>`, each an ordered list of `Option<string>` cells, where `None` is a missing cell.
- The `str(item)` conversion of non-text cells (app.py:50): cells are modelled as text already.
- Unicode case mapping: `Upper` maps only the ASCII letters, while Python's `str.upper` also maps other scripts and may change a string's length.
- The arrow offsets `x_off`/`y_off` computed with `cos`/`sin` (app.py:34-36): floating-point trigonometry. A bone label carries its angle (±52) and arrow length instead.
- Colours, font weights, boxes, arrow styles and text alignment (app.py:13, 38-43, 56-60, 63-68): they do not affect geometry. The problem font size is carried as given.
- PNG and slide-deck export (app.py:143-174): I/O.
- The unused `scale` parameters (app.py:30, 45).
- IEEE-754 rounding: coordinates are exact rationals, so sums such as `0.02 + 0.23` are exact here.
- The axis limits `[x_tail - 2, x_head + head_radius + 2] × [-6, 6]` (app.py:135-136) belong to the page code. The model does not check anchors against them. `Body.AnchorsWellPlaced` keeps every leader within ±3.2, which implies the ±6 limits. `Body.BonePastTail` shows where bones leave the left limit.
