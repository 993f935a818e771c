/** The hit tester of the chart view: `isChartCategoryUnderTouch` turns a tap
    into an offset from the view's centre (y pointing up), recovers its angle
    from `atan(dy/dx)` with a quadrant table, and accepts the tap for one
    category when the distance lies strictly inside the ring and the angle
    strictly inside the category's arc; the tap handler asks this of every
    category in turn. The view runs the quadrant table as written; the
    corrected table, which differs on the positive x-axis only, gives the
    corrected test beside it.

    `atan` itself is not computed here: its result, in degrees, is a parameter
    `a` that `IsAtanDegrees` ties to the offset. A tap at the exact centre
    divides 0 by 0, and the NaN angle it gives fails every comparison; the
    model gives it no angle (`None`). */
module HitTest {
  import opened Optional
  import opened Dataset
  import opened Arcs
  import opened Layout

  /** What `atan(dy / dx) * 180 / PI` is, in exact arithmetic, for the offset (dx, dy). */
  predicate IsAtanDegrees(dx: real, dy: real, a: real) {
    if dx != 0.0 && dy != 0.0 then
      -90.0 < a < 90.0 && a != 0.0 && (0.0 < a <==> (0.0 < dx <==> 0.0 < dy))
    else if dx != 0.0 then
      a == 0.0
    else if dy != 0.0 then
      a == if dy > 0.0 then 90.0 else -90.0
    else
      true
  }

  /** The horizontal offset from the centre; the centre is `width / 2` in integer division. */
  function DeltaX(touchX: real, width: nat): real {
    touchX - (width / 2) as real
  }

  /** The vertical offset from the centre, flipped so that up is positive. */
  function DeltaY(touchY: real, height: nat): real {
    (height / 2) as real - touchY
  }

  /** The quadrant table exactly as the view writes it (None: the NaN of a tap at the centre). */
  function ScreenAngleAsWritten(dx: real, dy: real, a: real): Option<real> {
    if dx == 0.0 && dy == 0.0 then None
    else if dx > 0.0 && dy > 0.0 then Some(360.0 - a)
    else if dx > 0.0 && dy < 0.0 then Some(-a)
    else if dx < 0.0 && dy < 0.0 then Some(180.0 - a)
    else if dx < 0.0 && dy > 0.0 then Some(180.0 - a)
    else Some(180.0 + a)
  }

  /** The quadrant table with the positive x-axis (dy == 0, dx > 0) given to the
      `-a` row, so that it gets angle 0 instead of 180. */
  function ScreenAngle(dx: real, dy: real, a: real): Option<real> {
    if dx == 0.0 && dy == 0.0 then None
    else if dx > 0.0 && dy > 0.0 then Some(360.0 - a)
    else if dx > 0.0 && dy <= 0.0 then Some(-a)
    else if dx < 0.0 && dy < 0.0 then Some(180.0 - a)
    else if dx < 0.0 && dy > 0.0 then Some(180.0 - a)
    else Some(180.0 + a)
  }

  /** The textbook two-argument arctangent, in degrees: counter-clockwise from
      the positive x-axis with y up, in (-180, 180], built from `atan`. */
  function Atan2Degrees(dx: real, dy: real, a: real): real {
    if dx > 0.0 then a
    else if dx < 0.0 && dy >= 0.0 then a + 180.0
    else if dx < 0.0 then a - 180.0
    else if dy > 0.0 then 90.0
    else -90.0
  }

  /** The same direction measured as `Path.addArc` measures it: clockwise on a
      y-down screen, in [0, 360). */
  function ClockwiseDegrees(theta: real): real {
    if theta <= 0.0 then -theta else 360.0 - theta
  }

  /** The corrected quadrant table is the clockwise screen angle of the tap,
      in [0, 360), for every tap except the centre. */
  lemma ScreenAngleIsClockwiseAtan2(dx: real, dy: real, a: real)
    requires IsAtanDegrees(dx, dy, a)
    ensures ScreenAngle(dx, dy, a).None? <==> dx == 0.0 && dy == 0.0
    ensures ScreenAngle(dx, dy, a).Some? ==>
              ScreenAngle(dx, dy, a).value == ClockwiseDegrees(Atan2Degrees(dx, dy, a))
              && 0.0 <= ScreenAngle(dx, dy, a).value < 360.0
  {
  }

  /** The table as written gives the clockwise screen angle of every tap off
      the centre, except on the positive x-axis, where it gives 180. */
  lemma ScreenAngleAsWrittenIsClockwiseAtan2(dx: real, dy: real, a: real)
    requires IsAtanDegrees(dx, dy, a)
    ensures ScreenAngleAsWritten(dx, dy, a).None? <==> dx == 0.0 && dy == 0.0
    ensures ScreenAngleAsWritten(dx, dy, a).Some? ==>
              ScreenAngleAsWritten(dx, dy, a).value
              == (if dx > 0.0 && dy == 0.0 then 180.0 else ClockwiseDegrees(Atan2Degrees(dx, dy, a)))
              && 0.0 <= ScreenAngleAsWritten(dx, dy, a).value < 360.0
  {
    ScreenAngleIsClockwiseAtan2(dx, dy, a);
    if !(dx > 0.0 && dy == 0.0) {
      ScreenAngleCorrectionIsLocal(dx, dy, a);
    }
  }

  /** The table as written: the four quadrants land in the four open quarter
      turns, the downward, leftward and upward half-axes on 90, 180 and 270,
      and the rightward half-axis on 180 as well. */
  lemma ScreenAngleQuadrants(dx: real, dy: real, a: real)
    requires IsAtanDegrees(dx, dy, a)
    ensures dx > 0.0 && dy > 0.0 ==> 270.0 < ScreenAngleAsWritten(dx, dy, a).value < 360.0
    ensures dx > 0.0 && dy < 0.0 ==> 0.0 < ScreenAngleAsWritten(dx, dy, a).value < 90.0
    ensures dx < 0.0 && dy < 0.0 ==> 90.0 < ScreenAngleAsWritten(dx, dy, a).value < 180.0
    ensures dx < 0.0 && dy > 0.0 ==> 180.0 < ScreenAngleAsWritten(dx, dy, a).value < 270.0
    ensures dx > 0.0 && dy == 0.0 ==> ScreenAngleAsWritten(dx, dy, a) == Some(180.0)
    ensures dx == 0.0 && dy < 0.0 ==> ScreenAngleAsWritten(dx, dy, a) == Some(90.0)
    ensures dx < 0.0 && dy == 0.0 ==> ScreenAngleAsWritten(dx, dy, a) == Some(180.0)
    ensures dx == 0.0 && dy > 0.0 ==> ScreenAngleAsWritten(dx, dy, a) == Some(270.0)
  {
  }

  /** As written, a tap straight to the right of the centre gets angle 180,
      the direction straight to the left, while its true angle is 0. */
  lemma RightwardTapAsWritten(dx: real)
    requires dx > 0.0
    ensures IsAtanDegrees(dx, 0.0, 0.0)
    ensures ScreenAngleAsWritten(dx, 0.0, 0.0) == Some(180.0)
    ensures ClockwiseDegrees(Atan2Degrees(dx, 0.0, 0.0)) == 0.0
    ensures ScreenAngle(dx, 0.0, 0.0) == Some(0.0)
  {
  }

  /** The two tables differ only on the positive x-axis. */
  lemma ScreenAngleCorrectionIsLocal(dx: real, dy: real, a: real)
    requires !(dx > 0.0 && dy == 0.0)
    ensures ScreenAngle(dx, dy, a) == ScreenAngleAsWritten(dx, dy, a)
  {
  }

  /** `inner < sqrt(d2) < outer`, decided on squares. */
  predicate InBand(d2: real, inner: real, outer: real) {
    (inner < 0.0 || inner * inner < d2) && 0.0 < outer && d2 < outer * outer
  }

  lemma SquaresOrdered(x: real, y: real)
    requires 0.0 <= x && 0.0 <= y
    ensures x < y <==> x * x < y * y
  {
    if x < y {
      var g := y - x;
      assert y * y == x * x + x * g + g * y;
      assert x * g >= 0.0;
      assert g * y > 0.0;
    } else {
      assert y * y <= y * x;
      assert y * x <= x * x;
    }
  }

  /** Comparing squares is the view's distance test: for the true distance d,
      the band test holds exactly when inner < d < outer. */
  lemma InBandIsDistanceTest(d: real, d2: real, inner: real, outer: real)
    requires 0.0 <= d && d * d == d2
    ensures InBand(d2, inner, outer) <==> inner < d < outer
  {
    if 0.0 <= inner {
      SquaresOrdered(inner, d);
    }
    if 0.0 <= outer {
      SquaresOrdered(d, outer);
    }
  }

  /** A tap offset whose squared distance lies inside the band and whose
      angle lies strictly inside the arc's angles. */
  predicate InRingSector(dx: real, dy: real, angle: Option<real>,
                         startAngle: real, endAngle: real, innerRadius: real, outerRadius: real)
  {
    InBand(dx * dx + dy * dy, innerRadius, outerRadius)
    && angle.Some? && startAngle < angle.value && angle.value < endAngle
  }

  /** `isChartCategoryUnderTouch`, with the quadrant table as written:
      strictly inside the ring and strictly inside the arc's angles. A tap at
      the centre, on a radius boundary or on an angle boundary is never under
      a category, and neither is any tap for an arc of zero sweep. */
  function IsChartCategoryUnderTouch(
    touchX: real, touchY: real, width: nat, height: nat, atan: real,
    startAngle: real, endAngle: real, innerRadius: real, outerRadius: real): (r: bool)
    ensures r ==> startAngle < endAngle && 0.0 < outerRadius
    ensures r ==> DeltaX(touchX, width) != 0.0 || DeltaY(touchY, height) != 0.0
  {
    var dx := DeltaX(touchX, width);
    var dy := DeltaY(touchY, height);
    InRingSector(dx, dy, ScreenAngleAsWritten(dx, dy, atan), startAngle, endAngle, innerRadius, outerRadius)
  }

  /** The same test on the corrected quadrant table. */
  function IsChartCategoryUnderTouchCorrected(
    touchX: real, touchY: real, width: nat, height: nat, atan: real,
    startAngle: real, endAngle: real, innerRadius: real, outerRadius: real): (r: bool)
    ensures r ==> startAngle < endAngle && 0.0 < outerRadius
    ensures r ==> DeltaX(touchX, width) != 0.0 || DeltaY(touchY, height) != 0.0
  {
    var dx := DeltaX(touchX, width);
    var dy := DeltaY(touchY, height);
    InRingSector(dx, dy, ScreenAngle(dx, dy, atan), startAngle, endAngle, innerRadius, outerRadius)
  }

  /** The view's test is membership in polar coordinates, with the angle the
      table as written gives: for the tap's true distance d from the centre,
      inner < d < outer, and the clockwise angle (180 on the positive x-axis)
      lies strictly between the arc's start and end. */
  lemma UnderTouchIsPolarMembership(
    touchX: real, touchY: real, width: nat, height: nat, atan: real,
    startAngle: real, endAngle: real, innerRadius: real, outerRadius: real, d: real)
    requires IsAtanDegrees(DeltaX(touchX, width), DeltaY(touchY, height), atan)
    requires 0.0 <= d
    requires d * d == DeltaX(touchX, width) * DeltaX(touchX, width) + DeltaY(touchY, height) * DeltaY(touchY, height)
    ensures IsChartCategoryUnderTouch(touchX, touchY, width, height, atan, startAngle, endAngle, innerRadius, outerRadius)
            <==> (DeltaX(touchX, width) != 0.0 || DeltaY(touchY, height) != 0.0)
                 && innerRadius < d < outerRadius
                 && startAngle
                    < (if DeltaX(touchX, width) > 0.0 && DeltaY(touchY, height) == 0.0 then 180.0
                       else ClockwiseDegrees(Atan2Degrees(DeltaX(touchX, width), DeltaY(touchY, height), atan)))
                    < endAngle
  {
    var dx := DeltaX(touchX, width);
    var dy := DeltaY(touchY, height);
    InBandIsDistanceTest(d, dx * dx + dy * dy, innerRadius, outerRadius);
    ScreenAngleAsWrittenIsClockwiseAtan2(dx, dy, atan);
  }

  /** The corrected test is exactly membership in polar coordinates: for the
      tap's true distance d from the centre and its clockwise angle,
      inner < d < outer and start < angle < end. */
  lemma CorrectedUnderTouchIsPolarMembership(
    touchX: real, touchY: real, width: nat, height: nat, atan: real,
    startAngle: real, endAngle: real, innerRadius: real, outerRadius: real, d: real)
    requires IsAtanDegrees(DeltaX(touchX, width), DeltaY(touchY, height), atan)
    requires 0.0 <= d
    requires d * d == DeltaX(touchX, width) * DeltaX(touchX, width) + DeltaY(touchY, height) * DeltaY(touchY, height)
    ensures IsChartCategoryUnderTouchCorrected(touchX, touchY, width, height, atan,
                                               startAngle, endAngle, innerRadius, outerRadius)
            <==> (DeltaX(touchX, width) != 0.0 || DeltaY(touchY, height) != 0.0)
                 && innerRadius < d < outerRadius
                 && startAngle < ClockwiseDegrees(Atan2Degrees(DeltaX(touchX, width), DeltaY(touchY, height), atan)) < endAngle
  {
    var dx := DeltaX(touchX, width);
    var dy := DeltaY(touchY, height);
    InBandIsDistanceTest(d, dx * dx + dy * dy, innerRadius, outerRadius);
    ScreenAngleIsClockwiseAtan2(dx, dy, atan);
  }

  /** Off the positive x-axis the view's test and the corrected test agree. */
  lemma UnderTouchCorrectionIsLocal(
    touchX: real, touchY: real, width: nat, height: nat, atan: real,
    startAngle: real, endAngle: real, innerRadius: real, outerRadius: real)
    requires !(DeltaX(touchX, width) > 0.0 && DeltaY(touchY, height) == 0.0)
    ensures IsChartCategoryUnderTouch(touchX, touchY, width, height, atan,
                                      startAngle, endAngle, innerRadius, outerRadius)
            == IsChartCategoryUnderTouchCorrected(touchX, touchY, width, height, atan,
                                                  startAngle, endAngle, innerRadius, outerRadius)
  {
    ScreenAngleCorrectionIsLocal(DeltaX(touchX, width), DeltaY(touchY, height), atan);
  }

  /** The names the tap handler hands to the listener, in the arcs' order:
      every arc under the tap (the handler's `return@forEach` moves on to the
      next arc, it does not stop). */
  function Hits(arcs: seq<Arc>, touchX: real, touchY: real, width: nat, height: nat, atan: real,
                innerRadius: real, outerRadius: real): seq<string>
  {
    if arcs == [] then []
    else
      (if IsChartCategoryUnderTouch(touchX, touchY, width, height, atan,
                                    arcs[0].start, arcs[0].end, innerRadius, outerRadius)
       then [arcs[0].name] else [])
      + Hits(arcs[1..], touchX, touchY, width, height, atan, innerRadius, outerRadius)
  }

  /** No arc under the tap: the listener is not called. */
  lemma {:induction false} HitsEmptyWithoutMatch(
    arcs: seq<Arc>, touchX: real, touchY: real, width: nat, height: nat, atan: real,
    innerRadius: real, outerRadius: real)
    requires forall i :: 0 <= i < |arcs| ==>
               !IsChartCategoryUnderTouch(touchX, touchY, width, height, atan,
                                          arcs[i].start, arcs[i].end, innerRadius, outerRadius)
    ensures Hits(arcs, touchX, touchY, width, height, atan, innerRadius, outerRadius) == []
    decreases |arcs|
  {
    if arcs != [] {
      assert !IsChartCategoryUnderTouch(touchX, touchY, width, height, atan,
                                        arcs[0].start, arcs[0].end, innerRadius, outerRadius);
      forall i | 0 <= i < |arcs[1..]|
        ensures !IsChartCategoryUnderTouch(touchX, touchY, width, height, atan,
                                           arcs[1..][i].start, arcs[1..][i].end, innerRadius, outerRadius)
      {
        assert arcs[1..][i] == arcs[i + 1];
      }
      HitsEmptyWithoutMatch(arcs[1..], touchX, touchY, width, height, atan, innerRadius, outerRadius);
    }
  }

  /** On arcs laid end to end, an arc under the tap is the only one: the
      listener is called exactly once, with that arc's category. */
  lemma {:induction false} HitsIsTheMatch(
    arcs: seq<Arc>, start: real, i: nat, touchX: real, touchY: real, width: nat, height: nat, atan: real,
    innerRadius: real, outerRadius: real)
    requires Contiguous(arcs, start) && Forward(arcs)
    requires i < |arcs|
    requires IsChartCategoryUnderTouch(touchX, touchY, width, height, atan,
                                       arcs[i].start, arcs[i].end, innerRadius, outerRadius)
    ensures Hits(arcs, touchX, touchY, width, height, atan, innerRadius, outerRadius) == [arcs[i].name]
    decreases |arcs|
  {
    var angle := ScreenAngleAsWritten(DeltaX(touchX, width), DeltaY(touchY, height), atan).value;
    var rest := arcs[1..];
    assert Contiguous(rest, arcs[0].end) && Forward(rest) by {
      forall j | 0 < j < |rest|
        ensures rest[j].start == rest[j - 1].end
      {
        assert rest[j] == arcs[j + 1] && rest[j - 1] == arcs[j];
      }
    }
    if i == 0 {
      forall j | 0 <= j < |rest|
        ensures !IsChartCategoryUnderTouch(touchX, touchY, width, height, atan,
                                           rest[j].start, rest[j].end, innerRadius, outerRadius)
      {
        assert rest[j] == arcs[j + 1];
        ArcsOrdered(arcs, start, 0, j + 1);
      }
      HitsEmptyWithoutMatch(rest, touchX, touchY, width, height, atan, innerRadius, outerRadius);
    } else {
      ArcsOrdered(arcs, start, 0, i);
      assert arcs[i] == rest[i - 1];
      HitsIsTheMatch(rest, arcs[0].end, i - 1, touchX, touchY, width, height, atan, innerRadius, outerRadius);
    }
  }

  /** One tap calls the listener at most once. */
  lemma HitsAtMostOne(
    arcs: seq<Arc>, start: real, touchX: real, touchY: real, width: nat, height: nat, atan: real,
    innerRadius: real, outerRadius: real)
    requires Contiguous(arcs, start) && Forward(arcs)
    ensures |Hits(arcs, touchX, touchY, width, height, atan, innerRadius, outerRadius)| <= 1
  {
    if i :| 0 <= i < |arcs| && IsChartCategoryUnderTouch(touchX, touchY, width, height, atan,
                                                         arcs[i].start, arcs[i].end, innerRadius, outerRadius) {
      HitsIsTheMatch(arcs, start, i, touchX, touchY, width, height, atan, innerRadius, outerRadius);
    } else {
      HitsEmptyWithoutMatch(arcs, touchX, touchY, width, height, atan, innerRadius, outerRadius);
    }
  }

  /** On a chart whose arcs tile the full turn, every tap strictly inside the
      ring selects exactly one category, unless its angle is one of the arcs'
      boundary angles. */
  lemma RingTapSelectsOneCategory(
    arcs: seq<Arc>, touchX: real, touchY: real, width: nat, height: nat, atan: real,
    innerRadius: real, outerRadius: real)
    requires Contiguous(arcs, 0.0) && Forward(arcs) && arcs != [] && EndOf(arcs, 0.0) == TotalDegrees
    requires IsAtanDegrees(DeltaX(touchX, width), DeltaY(touchY, height), atan)
    requires DeltaX(touchX, width) != 0.0 || DeltaY(touchY, height) != 0.0
    requires InBand(DeltaX(touchX, width) * DeltaX(touchX, width) + DeltaY(touchY, height) * DeltaY(touchY, height),
                    innerRadius, outerRadius)
    requires forall j :: 0 <= j < |arcs| ==>
               ScreenAngleAsWritten(DeltaX(touchX, width), DeltaY(touchY, height), atan).value != arcs[j].start
    ensures |Hits(arcs, touchX, touchY, width, height, atan, innerRadius, outerRadius)| == 1
  {
    var dx := DeltaX(touchX, width);
    var dy := DeltaY(touchY, height);
    ScreenAngleAsWrittenIsClockwiseAtan2(dx, dy, atan);
    var angle := ScreenAngleAsWritten(dx, dy, atan).value;
    var i := ArcsCover(arcs, 0.0, angle);
    HitsIsTheMatch(arcs, 0.0, i, touchX, touchY, width, height, atan, innerRadius, outerRadius);
  }

  /** The rightward-tap discrepancy on a concrete chart: for amounts
      a = 1, b = 2, c = 1 the arcs are a: (0, 90), b: (90, 270), c: (270, 360).
      On a 400 by 400 view at density 1 the ring runs from radius 144 to 192.
      A tap at (370, 200) is on the ring straight to the right of the centre,
      on the a/c boundary; the table as written gives it angle 180, and the
      view calls the listener with b, the sector on the opposite side. The
      corrected test puts the tap under no category. */
  lemma RightwardTapSelectsOppositeSector()
    ensures QuarterChart().Valid() && Sum(QuarterChart()) == 4
    ensures BuildArcs(QuarterChart(), 4) == QuarterArcs()
    ensures IsAtanDegrees(DeltaX(370.0, 400), DeltaY(200.0, 400), 0.0)
    ensures Hits(QuarterArcs(), 370.0, 200.0, 400, 400, 0.0, InnerRadius(400, 1.0), OuterRadius(400, 1.0)) == ["b"]
    ensures forall i :: 0 <= i < |QuarterArcs()| ==>
              !IsChartCategoryUnderTouchCorrected(370.0, 200.0, 400, 400, 0.0, QuarterArcs()[i].start,
                                                  QuarterArcs()[i].end, InnerRadius(400, 1.0), OuterRadius(400, 1.0))
  {
    QuarterChartArcs();
    var arcs := QuarterArcs();
    var inner, outer := InnerRadius(400, 1.0), OuterRadius(400, 1.0);
    assert inner == 144.0 && outer == 192.0;
    assert DeltaX(370.0, 400) == 170.0 && DeltaY(200.0, 400) == 0.0;
    assert IsChartCategoryUnderTouch(370.0, 200.0, 400, 400, 0.0, arcs[1].start, arcs[1].end, inner, outer);
    HitsIsTheMatch(arcs, 0.0, 1, 370.0, 200.0, 400, 400, 0.0, inner, outer);
  }

  /** The arcs of {a: 1, b: 2, c: 1} against its total 4. */
  lemma QuarterChartArcs()
    ensures QuarterChart().Valid() && Sum(QuarterChart()) == 4
    ensures BuildArcs(QuarterChart(), 4) == QuarterArcs()
    ensures Contiguous(QuarterArcs(), 0.0) && Forward(QuarterArcs())
  {
    QuarterChartTotal();
    var m := QuarterChart();
    var ks, vals := m.keys, m.vals;
    assert ks[1..] == ["b", "c"] && ks[1..][1..] == ["c"] && ks[1..][1..][1..] == [];
    assert Sweep(1, 4) == 90.0 && Sweep(2, 4) == 180.0;
    var c := ArcsFrom(ks[1..][1..], vals, 4, 270.0);
    assert c == [Arc("c", 270.0, 90.0, 360.0)];
    var bc := ArcsFrom(ks[1..], vals, 4, 90.0);
    assert bc == [Arc("b", 90.0, 180.0, 270.0)] + c;
    assert ArcsFrom(ks, vals, 4, 0.0) == [Arc("a", 0.0, 90.0, 90.0)] + bc;
  }

  lemma QuarterChartTotal()
    ensures QuarterChart().Valid() && Sum(QuarterChart()) == 4
  {
    var m := QuarterChart();
    var ks, vals := m.keys, m.vals;
    assert ks[1..] == ["b", "c"] && ks[1..][1..] == ["c"] && ks[1..][1..][1..] == [];
    assert SumOf(ks[1..][1..], vals) == 1;
    assert SumOf(ks[1..], vals) == 3;
    assert Distinct(ks) by {
      assert ks[0] != ks[1] && ks[0] != ks[2] && ks[1] != ks[2];
    }
  }

  /** The dataset {a: 1, b: 2, c: 1}. */
  function QuarterChart(): OrderedMap {
    OrderedMap(["a", "b", "c"], map["a" := 1, "b" := 2, "c" := 1])
  }

  /** Its arcs: a quarter turn, a half turn and a quarter turn. */
  function QuarterArcs(): seq<Arc> {
    [Arc("a", 0.0, 90.0, 90.0), Arc("b", 90.0, 180.0, 270.0), Arc("c", 270.0, 90.0, 360.0)]
  }
}
