# PieChartView, modelled in Dafny

`PieChartView` is an Android custom view that draws a donut chart of spending
per category. It keeps a dataset `category -> amount` in insertion order.
It turns that dataset into one arc per category, whose sweep is
`360 * amount / total`, laid end to end clockwise from angle 0. It shows the
total in the centre. A tap on the ring calls a listener with the name of the
category under the tap. The view also negotiates its size in `onMeasure`,
keeps the shorter side as the chart's square in `onLayout`, and saves and
restores its dataset across recreation.

The model has five modules:

- `Dataset` (`Dataset.dfy`): the view's `mutableMapOf<String, Int>()`, a
  LinkedHashMap, as an `OrderedMap` of a key order and a map. `putAll` is a
  fold of single `put`s. Lemmas give its closed form: the argument wins on
  shared keys, old keys keep their place, and new keys are appended in the
  argument's order. `Sum` is the total shown in the centre.
- `Arcs` (`Arcs.dfy`): `BuildArcs`, the specification of what `populate`
  leaves in `categoriesToDraw`. The lemmas prove that for a dataset with
  non-negative amounts and its own total, the arcs tile the full turn. The
  first arc starts at 0, each arc starts where the previous one ended, no
  sweep is negative, the last arc ends at 360, and the arcs do not overlap.
- `HitTest` (`HitTest.dfy`): `isChartCategoryUnderTouch` and the tap
  handler's scan over the arcs. `atan` is a parameter tied to the tap offset
  by `IsAtanDegrees`.
  - The view's test uses the quadrant table exactly as the code writes it.
    That table gives the clockwise screen angle of the textbook `atan2`
    everywhere except on the positive x-axis, where it gives 180 instead
    of 0 (see "## Findings").
  - A corrected table and the test built on it sit beside the view's. They
    are proved to be exact membership in polar coordinates, and to agree
    with the view's test off the positive x-axis.
  - The squared-distance band test is proved equal to
    `inner < distance < outer`.
  - On arcs that tile the turn, the listener is called at most once per
    tap. A tap inside the ring and off the arc boundaries selects exactly
    one category.
- `Layout` (`Layout.dfy`): the `onMeasure` decision table, the two radii,
  and the rectangle the arcs are drawn on. For one layout, the stroke drawn
  on that rectangle is proved to cover exactly the band the hit test
  accepts. This holds only while the view keeps the size it had when the
  arcs were last rebuilt (see "## Left out").
- `PieChart` (`PieChartView.dfy`): the view as a class with its mutable
  fields, and the handlers `updateData`, `populate`, `onLayout`,
  `onSingleTapUp`, `setOnCategoryClickListener` and save/restore.
  - `doOnLayout` is modelled by a `laidOut` flag and the held-back argument.
  - `populate` is a loop proved equal to the forward pass `ArcsFrom` that
    `BuildArcs` names.
  - The tap handler runs the view's test as written. On the chart
    `{a: 1, b: 2, c: 1}`, a tap straight to the right of the centre calls
    the listener with `b` (`PieChart.RightwardTapCallsOppositeCategory`).
  - Every handler keeps the invariant `Valid()`: the arcs on show tile the
    turn.

A behaviour the model makes visible: `updateData` merges its argument into
the view's dataset, but it takes the total and draws the arcs from the
argument alone. The saved state is the merged dataset. So after two updates
`{a: 1}` and `{b: 2}`, the view shows a total of 2 and one sector. The same
view recreated from its saved state shows a total of 3 and two sectors
(`PieChart.RecreationShowsMergedTotal`). It is not clear from the code which
of the two the authors meant, so it is modelled as written and not listed
as a finding.

All paths below are relative to the repository root.

## Model

| member | source | states |
|---|---|---|
| `Dataset.Put` | app/src/main/java/otus/homework/customview/PieChartView.kt:147 | LinkedHashMap `put`: an existing key keeps its place and takes the new value, and a new key is appended. This is a definition without a contract; `Dataset.PutValid` proves it keeps the map well formed. |
| `Dataset.PutAll` | app/src/main/java/otus/homework/customview/PieChartView.kt:147 | `putAll` as one `put` per entry in the argument's iteration order. This is a definition without a contract; its closed form is `Dataset.PutAllMerges`. |
| `Dataset.PutValid` | app/src/main/java/otus/homework/customview/PieChartView.kt:147 | One `put` keeps the keys distinct and the order matching the mapped keys. |
| `Dataset.Sum` | app/src/main/java/otus/homework/customview/PieChartView.kt:148 | `data.map { it.value }.sum()` over the map's entries. This is a definition without a contract; `Dataset.SumOfBoundsEntry` and `Dataset.PutAllKeepsAdmissible` state its properties. |
| `Dataset.PutAllMerges` | app/src/main/java/otus/homework/customview/PieChartView.kt:147 | `data.putAll(arg)` leaves a well-formed map. Its values are the old values overridden by the argument's. Keys not in the argument keep their values and their place. The argument's new keys are appended in the argument's iteration order. |
| `Dataset.PutAllValues` | app/src/main/java/otus/homework/customview/PieChartView.kt:147 | The values after `putAll` are the map union in which the argument wins, whether or not the receiver is well formed. |
| `Dataset.PutKeysOrder` | app/src/main/java/otus/homework/customview/PieChartView.kt:147 | After a sequence of `put`s of distinct keys, the iteration order is the old order followed by the keys that were not yet present, in put order. |
| `Dataset.PutAllIntoEmpty` | app/src/main/java/otus/homework/customview/PieChartView.kt:249-252 | Copying a well-formed map into an empty one reproduces it exactly, order included. This is what the saved state's copy of `data` relies on. |
| `Dataset.PutAllIdempotent` | app/src/main/java/otus/homework/customview/PieChartView.kt:147 | Merging the same argument twice gives the same map as merging it once. |
| `Dataset.PutAllKeepsAdmissible` | app/src/main/java/otus/homework/customview/PieChartView.kt:146-148 | Merging a well-formed, non-negative dataset with a positive total into another one keeps all three properties. So the merged `data` can always be replayed through `updateData`. |
| `Dataset.SumOfBoundsEntry` | app/src/main/java/otus/homework/customview/PieChartView.kt:148 | With non-negative amounts, every amount is at most the total `data.map { it.value }.sum()`. |
| `Arcs.Sweep` | app/src/main/java/otus/homework/customview/PieChartView.kt:224 | `TOTAL_DEGREES * categoryAmount / totalAmount`, in exact arithmetic. This is a definition without a contract; `Arcs.SweepNonNegative` and `Arcs.ArcsFromEnd` state its properties. |
| `Arcs.ArcsFrom` | app/src/main/java/otus/homework/customview/PieChartView.kt:168-176 | The forward pass of `populate`: each category's arc starts at the running angle, ends at start + sweep (line 233), and the next starts there. This is a definition without a contract; the lemmas below state its properties. |
| `Arcs.BuildArcs` | app/src/main/java/otus/homework/customview/PieChartView.kt:164-177 | What `populate(m)` leaves in `categoriesToDraw`: the forward pass from angle 0 over `m` in its iteration order. This is a definition without a contract; `Arcs.BuildArcsFollowDataset` and `Arcs.BuildArcsTileTheCircle` state its properties. |
| `Arcs.ArcsFromEntries` | app/src/main/java/otus/homework/customview/PieChartView.kt:169-176 | The forward pass makes one arc per category, in iteration order. Each arc carries that category's name and the sweep `360 * amount / total`, and ends one sweep after it starts. |
| `Arcs.ArcsFromContiguous` | app/src/main/java/otus/homework/customview/PieChartView.kt:168-174 | The running start angle lays the arcs end to end from the initial angle. |
| `Arcs.ArcsFromEnd` | app/src/main/java/otus/homework/customview/PieChartView.kt:224-233 | The last arc ends at `start + 360 * (sum of the listed amounts) / total`. |
| `Arcs.BuildArcsFollowDataset` | app/src/main/java/otus/homework/customview/PieChartView.kt:164-177 | After `populate(m)` the categories to draw are exactly the keys of `m` in its iteration order, each with its share of the turn. |
| `Arcs.BuildArcsTileTheCircle` | app/src/main/java/otus/homework/customview/PieChartView.kt:164-177 | For a non-negative dataset with its own positive total, the arcs start at 0, are contiguous, have non-negative sweeps, and the last one ends at exactly 360. |
| `Arcs.SweepNonNegative` | app/src/main/java/otus/homework/customview/PieChartView.kt:224 | A non-negative amount over a positive total gives a non-negative sweep. |
| `Arcs.ArcsOrdered` | app/src/main/java/otus/homework/customview/PieChartView.kt:168-174 | Arcs laid end to end with forward sweeps do not overlap: an earlier arc ends no later than a later arc starts. |
| `Arcs.ArcsCover` | app/src/main/java/otus/homework/customview/PieChartView.kt:168-174 | Every angle from the first start up to the last end lies in the half-open range of some arc. |
| `HitTest.DeltaX` | app/src/main/java/otus/homework/customview/PieChartView.kt:189 | The tap's horizontal offset from the centre `width / 2`, taken in integer division. This is a definition without a contract. |
| `HitTest.DeltaY` | app/src/main/java/otus/homework/customview/PieChartView.kt:190 | The tap's vertical offset from the centre `height / 2`, flipped so that up is positive. This is a definition without a contract. |
| `HitTest.ScreenAngleAsWritten` | app/src/main/java/otus/homework/customview/PieChartView.kt:191-199 | The quadrant table exactly as written, including the `else` row (line 198) that the positive x-axis falls into. A tap at the exact centre, whose angle is NaN, gets no angle. This is a definition without a contract; the lemmas below state its properties. |
| `HitTest.ScreenAngle` | app/src/main/java/otus/homework/customview/PieChartView.kt:193-199 | The corrected quadrant table. It differs from the code only in that the `-angleDegree` row also takes `deltaY == 0`, so the positive x-axis gets 0, not the 180 of line 198. This is a definition without a contract; it is used only by the corrected test. |
| `HitTest.ScreenAngleAsWrittenIsClockwiseAtan2` | app/src/main/java/otus/homework/customview/PieChartView.kt:189-199 | The table as written gives no angle exactly at the centre. Everywhere else it gives an angle in [0, 360): the clockwise screen angle of the textbook `atan2`, except 180 on the positive x-axis. |
| `HitTest.ScreenAngleQuadrants` | app/src/main/java/otus/homework/customview/PieChartView.kt:193-199 | The table as written maps each of the four quadrants into its own open quarter turn. It maps the downward, leftward and upward half-axes to 90, 180 and 270, and the rightward half-axis to 180 as well. |
| `HitTest.ScreenAngleIsClockwiseAtan2` | app/src/main/java/otus/homework/customview/PieChartView.kt:189-199 | The corrected table gives no angle exactly at the centre. Everywhere else it gives exactly the clockwise screen angle of the textbook `atan2`, in [0, 360). |
| `HitTest.RightwardTapAsWritten` | app/src/main/java/otus/homework/customview/PieChartView.kt:198 | As written, a tap straight to the right of the centre (dy = 0, dx > 0) falls to the `else` row and gets angle 180. Its true clockwise angle is 0, which the corrected table gives. |
| `HitTest.ScreenAngleCorrectionIsLocal` | app/src/main/java/otus/homework/customview/PieChartView.kt:193-199 | The corrected table agrees with the table as written everywhere except on the positive x-axis. |
| `HitTest.InBand` | app/src/main/java/otus/homework/customview/PieChartView.kt:200-202 | `inner < sqrt(dx^2 + dy^2) < outer`, decided on the squared distance. This is a definition without a contract; `HitTest.InBandIsDistanceTest` proves the equivalence. |
| `HitTest.SquaresOrdered` | app/src/main/java/otus/homework/customview/PieChartView.kt:200-202 | For non-negative reals, comparing the values is the same as comparing their squares. |
| `HitTest.InBandIsDistanceTest` | app/src/main/java/otus/homework/customview/PieChartView.kt:200-202 | The band test on the squared distance holds exactly when `inner < sqrt(dx^2 + dy^2) < outer`, as the view tests it. |
| `HitTest.IsChartCategoryUnderTouch` | app/src/main/java/otus/homework/customview/PieChartView.kt:181-206 | The view's test, on the table as written. A tap is accepted only for an arc of positive sweep and an outer radius above 0, and never at the exact centre. |
| `HitTest.IsChartCategoryUnderTouchCorrected` | app/src/main/java/otus/homework/customview/PieChartView.kt:181-206 | The same test on the corrected table. The same guarantees hold: positive sweep, positive outer radius, never the centre. |
| `HitTest.UnderTouchIsPolarMembership` | app/src/main/java/otus/homework/customview/PieChartView.kt:181-206 | The view's test is polar membership with the angle as written. A tap is under a category exactly when it is off the centre, its distance is strictly between the radii, and its angle lies strictly between the arc's start and end. That angle is the clockwise angle of the tap, except 180 on the positive x-axis. |
| `HitTest.CorrectedUnderTouchIsPolarMembership` | app/src/main/java/otus/homework/customview/PieChartView.kt:181-206 | The corrected test is exact polar membership: off the centre, distance strictly between the radii, and clockwise angle strictly between the arc's start and end. |
| `HitTest.UnderTouchCorrectionIsLocal` | app/src/main/java/otus/homework/customview/PieChartView.kt:181-206 | Off the positive x-axis, the view's test and the corrected test give the same answer. |
| `HitTest.Hits` | app/src/main/java/otus/homework/customview/PieChartView.kt:57-70 | The names the tap handler passes to the listener: every arc under the tap, in the arcs' order. The scan does not stop at a match, because `return@forEach` moves on to the next arc. This is a definition without a contract; the lemmas below state its properties. |
| `HitTest.HitsEmptyWithoutMatch` | app/src/main/java/otus/homework/customview/PieChartView.kt:57-70 | When no arc is under the tap, the scan calls the listener with nothing. |
| `HitTest.HitsIsTheMatch` | app/src/main/java/otus/homework/customview/PieChartView.kt:57-70 | On arcs laid end to end, an arc under the tap is the only one. The scan calls the listener exactly once, with that arc's category. |
| `HitTest.HitsAtMostOne` | app/src/main/java/otus/homework/customview/PieChartView.kt:57-70 | On arcs laid end to end, one tap calls the listener at most once. |
| `HitTest.RingTapSelectsOneCategory` | app/src/main/java/otus/homework/customview/PieChartView.kt:56-72 | On arcs that tile the full turn, a tap strictly inside the ring whose angle (as written) is not an arc boundary selects exactly one category. |
| `HitTest.QuarterChartArcs` | app/src/main/java/otus/homework/customview/PieChartView.kt:164-177 | The chart `{a: 1, b: 2, c: 1}`, with total 4, gives the arcs a: (0, 90), b: (90, 270) and c: (270, 360). |
| `HitTest.RightwardTapSelectsOppositeSector` | app/src/main/java/otus/homework/customview/PieChartView.kt:193-199 | Take a 400 by 400 view at density 1, where the ring runs from radius 144 to 192. A tap at (370, 200) lies on the ring straight to the right of the centre, on the a/c boundary. The view's scan over the arcs of `{a: 1, b: 2, c: 1}` reports `["b"]`, the sector on the opposite side. The corrected test puts the tap under no arc. |
| `Layout.MinPx` | app/src/main/java/otus/homework/customview/PieChartView.kt:86 | `MIN_SIZE.dp.toInt()`: 240 dp in pixels, truncated. This is a definition without a contract. |
| `Layout.OnMeasure` | app/src/main/java/otus/homework/customview/PieChartView.kt:83-111 | The `when` table of `onMeasure`. It gives no size when neither row matches, that is when either mode is UNSPECIFIED. This is a definition without a contract; `Layout.OnMeasurePerDimension` states its properties. |
| `Layout.OnMeasurePerDimension` | app/src/main/java/otus/homework/customview/PieChartView.kt:83-111 | A size is set exactly when neither mode is UNSPECIFIED. Each side is then decided by its own mode alone: EXACTLY gives the size raised to the minimum, AT_MOST gives the minimum. Neither side is ever below the minimum. |
| `Layout.AtMostIgnoresTheLimit` | app/src/main/java/otus/homework/customview/PieChartView.kt:84-89 | Under AT_MOST in both dimensions the parent's sizes are not consulted: the result is the minimum square whatever the limits. |
| `Layout.OuterRadius` | app/src/main/java/otus/homework/customview/PieChartView.kt:64 | `chartSide / 2 - CONTENT_PADDING.dp`. This is a definition without a contract; `Layout.StrokeCoversHitBand` and `Layout.RadiiPositiveAtMinimumSize` state its properties. |
| `Layout.InnerRadius` | app/src/main/java/otus/homework/customview/PieChartView.kt:63 | `chartSide / 2 - CONTENT_PADDING.dp - SECTOR_WIDTH.dp`. This is a definition without a contract; it is covered by the same two lemmas. |
| `Layout.ArcRect` | app/src/main/java/otus/homework/customview/PieChartView.kt:217-223 | The rectangle each arc is drawn on: the chart's square about the integer centre, inset by the padding and half a sector width. This is a definition without a contract; `Layout.StrokeCoversHitBand` states its properties. |
| `Layout.StrokeCoversHitBand` | app/src/main/java/otus/homework/customview/PieChartView.kt:217-231 | For one and the same layout, the arc rectangle is a square centred where the tap offsets are measured from. A stroke SECTOR_WIDTH wide along its circle reaches exactly from the tap handler's inner radius to its outer radius (lines 63-64). |
| `Layout.RadiiPositiveAtMinimumSize` | app/src/main/java/otus/homework/customview/PieChartView.kt:63-64 | At a side of at least MIN_SIZE dp, truncated to pixels, both radii are positive and the inner one is smaller. This holds for any density of 0.75 or more. |
| `PieChart.PieChartView.constructor` | app/src/main/java/otus/homework/customview/PieChartView.kt:42-46 | A new view has an empty dataset, a total of 0, no categories to draw and no listener, and satisfies the view invariant. |
| `PieChart.PieChartView.Populate` | app/src/main/java/otus/homework/customview/PieChartView.kt:164-177 | For any ordered map whose listed keys are all mapped, with sweeps taken against the view's current `totalAmount`, the clear-then-forward-pass loop leaves exactly the forward pass `ArcsFrom` from angle 0 in the categories to draw. For a well-formed map, whose keys are distinct as in a LinkedHashMap, that is `BuildArcs`. A key listed twice would give two arcs. |
| `PieChart.PieChartView.UpdateData` | app/src/main/java/otus/homework/customview/PieChartView.kt:146-153 | The argument is merged into `data` and the total becomes the argument's own sum. If the view is laid out, the arcs are rebuilt from the argument at once. Otherwise the rebuild is held until layout and the arcs on show stay as they were. The view invariant is kept. |
| `PieChart.PieChartView.OnLayout` | app/src/main/java/otus/homework/customview/PieChartView.kt:114-116 | The chart side becomes the shorter of width and height. A held-back rebuild (line 149) then runs with the held argument and its own total. Dataset and total are unchanged, and the view invariant is kept. |
| `PieChart.PieChartView.SetOnCategoryClickListener` | app/src/main/java/otus/homework/customview/PieChartView.kt:155-159 | After the call a listener is registered. |
| `PieChart.PieChartView.OnSingleTapUp` | app/src/main/java/otus/homework/customview/PieChartView.kt:56-72 | The scan over the categories calls the listener (if any) with exactly the categories under the tap, in order. That is at most one call. When some arc is under the tap, the one call names that arc. |
| `PieChart.PieChartView.SaveState` | app/src/main/java/otus/homework/customview/PieChartView.kt:251-253 | The saved map starts empty and takes the merged dataset with `putAll`. By `Dataset.PutAllIntoEmpty` the result equals the dataset, order included. |
| `PieChart.PieChartView.RestoreState` | app/src/main/java/otus/homework/customview/PieChartView.kt:134-140 | Restoring replays the saved dataset through `updateData`. It is merged in and the total becomes its sum. If the view is laid out, the arcs are rebuilt from it at once and nothing is held back. Otherwise the rebuild is held until layout and the arcs on show stay as they were. Size, chart side, layout state and listener are unchanged, and the view invariant is kept. |
| `PieChart.RightwardTapCallsOppositeCategory` | app/src/main/java/otus/homework/customview/PieChartView.kt:56-72 | Take a laid-out 400 by 400 view at density 1, with a listener, showing a chart whose arcs are those of `{a: 1, b: 2, c: 1}` (`PieChart.QuarterChartOnView`). A tap at (370, 200), straight to the right of the centre, calls the listener once, with `b`. |
| `PieChart.QuarterChartOnView` | app/src/main/java/otus/homework/customview/PieChartView.kt:146-153 | `{a: 1, b: 2, c: 1}` can be passed to `updateData`, and its arcs against its own total are a: (0, 90), b: (90, 270) and c: (270, 360). |
| `PieChart.MergeScenario` | app/src/main/java/otus/homework/customview/PieChartView.kt:146-148 | `{a: 1}` then `{b: 2}` merge to `{a: 1, b: 2}` with total 3, while the last argument's total is 2. Replaying the merged map into an empty one gives it back. |
| `PieChart.RecreationShowsMergedTotal` | app/src/main/java/otus/homework/customview/PieChartView.kt:134-153 | After `{a: 1}` then `{b: 2}`, the view shows total 2 and one sector. The same view recreated from its saved state shows total 3 and two sectors. |

## Left out

- Drawing is not modelled: `onDraw`, `Path`/`Paint`/`RectF` objects, the text paint, and the random colour of each sector. The model keeps only each arc's angles. It does not store the rectangle each arc is drawn on; `Layout.ArcRect` computes it for a given layout.
- Floating point is not modelled. Angles, radii and offsets are exact reals, so `Float` rounding is not captured, nor whether the last arc of a float sum ends exactly at 360.
- `atan` and `sqrt` are not computed. `atan`'s result is a parameter constrained by `HitTest.IsAtanDegrees`. The square root is replaced by a comparison of squares, proved equivalent in `HitTest.InBandIsDistanceTest`.
- The display density (`Resources.getSystem().displayMetrics.density`) is a constructor parameter.
- 32-bit `Int` wrap-around of the total `data.map { it.value }.sum()` is not modelled. Amounts and totals are unbounded integers.
- PieChart.PieChartView.UpdateData: requires the argument to be admissible: well formed, no negative amounts, and a positive total when non-empty. The code accepts any map. A zero total makes every sweep a float division by zero (NaN or infinite angles), and negative amounts give backward arcs. Neither has a meaning the chart promises.
- PieChart.PieChartView.RestoreState: requires an admissible saved dataset, for the same reason. The branch for a state of another class, which only defers to the superclass, is left out.
- PieChart.PieChartView.OnLayout: the `doOnLayout` deferral is reduced to its outcome. The code queues one layout callback per `updateData` call made before layout. Each callback rebuilds the arcs with the total of the latest call, and the last callback's rebuild replaces the others. The model keeps only the last argument. It does not model the intermediate rebuilds, which can use another argument's total, nor a layout that is requested again after the first.
- The listener is modelled as a flag plus the list of names the tap handler calls it with. Which lambda is registered, and what it does, are outside the view.
- PieChart.PieChartView.UpdateData: the held-back rebuild keeps a copy of the argument's value. The code's `doOnLayout` closure (lines 149-150) keeps a reference to the caller's `Map`. A caller that changes its map after `updateData` and before the first layout therefore gets arcs built from the new contents but divided by the total taken at call time (line 148). Those arcs need not tile the circle. The model does not capture this aliasing.
- Layout.StrokeCoversHitBand: holds for one layout only. The code fixes each arc's drawing rectangle when `populate` builds it (lines 217-223). The tap handler instead takes its centre and radii from the current `width`, `height` and `chartSide` (lines 63-64, 189-190). `onLayout` (line 115) updates `chartSide` but does not rebuild the arcs, and `doOnLayout` runs its rebuild only once. So after a resize that leaves the arcs in place, the ring as drawn and the band the tap handler accepts can differ. The model does not store the rectangle in the arcs, so it does not capture this mismatch.
- `GestureDetector` is not modelled. The tap handler is entered directly with the tap's coordinates and the `atan` of its offset. `onDown` and `onTouchEvent` only forward to it.
- Parcel writing and reading of the saved state (`writeToParcel`, `CREATOR`) are left out. The saved state is modelled as the copied map.
- `Layout.OnMeasure` returns no size for the UNSPECIFIED cases, where the code calls nothing. The framework requires `onMeasure` to call `setMeasuredDimension`, and `View.measure` throws `IllegalStateException` when it does not. So these cases, such as the UNSPECIFIED height a vertical `ScrollView` passes down, crash the app. The framework's side is not modelled.

## Findings

| source | as written | input that shows it | evidently intended | confidence | as-written member | corrected member |
|---|---|---|---|---|---|---|
| app/src/main/java/otus/homework/customview/PieChartView.kt:193-199 | A tap with `deltaY == 0` and `deltaX > 0` matches no quadrant row and falls to `else -> 180f + angleDegree`, which gives angle 180 (`atan(0) = 0`). | A chart `{a: 1, b: 2, c: 1}` and a tap on the ring straight to the right of the centre. The tap lies on the a/c boundary at angle 0, but it is reported as being in b, the sector on the opposite side. | Angle 0 (the `-angleDegree` row extended to `deltaY <= 0`), the clockwise angle of the tap, as for every other direction. | not executed | `HitTest.RightwardTapSelectsOppositeSector` | `HitTest.CorrectedUnderTouchIsPolarMembership` |
