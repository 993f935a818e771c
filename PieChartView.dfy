/** The chart view's own state and the handlers that change it: `updateData`
    merges into the view's dataset and rebuilds the arcs (at once when the view
    has been laid out, otherwise after the next layout), `onLayout` keeps the
    square side, the tap handler reports the categories under a tap, and the
    saved state is a copy of the dataset that is replayed through `updateData`. */
module PieChart {
  import opened Optional
  import opened Dataset
  import opened Arcs
  import opened HitTest
  import opened Layout

  class PieChartView {
    /** The display density that scales every dp length. */
    const density: real
    /** The laid-out size; 0 until the first layout. */
    var width: nat
    var height: nat
    /** `chartSide`: the side of the square the chart is drawn in. */
    var chartSide: nat
    /** Whether a layout pass has completed (what `doOnLayout` waits for). */
    var laidOut: bool
    /** `data`: the merged dataset, in insertion order. */
    var data: OrderedMap
    /** `totalAmount`: the total of the most recent `updateData` argument. */
    var totalAmount: int
    /** `categoriesToDraw`: one arc per category of the last rebuild, in order. */
    var categoriesToDraw: seq<Arc>
    /** The argument of the rebuild `doOnLayout` is holding back until layout. */
    var pending: Option<OrderedMap>
    /** Whether `setOnCategoryClickListener` has been called. */
    var hasListener: bool

    /** The view's invariant: the arcs on show tile the full turn, and both the
        merged dataset and a held-back argument can be replayed. */
    ghost predicate Valid()
      reads this
    {
      density > 0.0
      && chartSide == Min(width, height)
      && Admissible(data)
      && Contiguous(categoriesToDraw, 0.0) && Forward(categoriesToDraw)
      && (categoriesToDraw != [] ==> EndOf(categoriesToDraw, 0.0) == TotalDegrees)
      && (pending.Some? ==> !laidOut && Admissible(pending.value) && totalAmount == Sum(pending.value))
    }

    constructor (density: real)
      requires density > 0.0
      ensures Valid()
      ensures this.density == density && width == 0 && height == 0 && chartSide == 0 && !laidOut
      ensures data == Empty && totalAmount == 0 && categoriesToDraw == [] && pending == None && !hasListener
    {
      this.density := density;
      width, height, chartSide := 0, 0, 0;
      laidOut := false;
      data := Empty;
      totalAmount := 0;
      categoriesToDraw := [];
      pending := None;
      hasListener := false;
    }

    /** `populate`: clear the category map, then one forward pass with a
        running start angle from 0, each category's sweep taken against the
        view's current `totalAmount`. */
    method Populate(arg: OrderedMap)
      requires forall k :: k in arg.keys ==> k in arg.vals
      requires arg.keys != [] ==> totalAmount != 0
      modifies this`categoriesToDraw
      ensures categoriesToDraw == ArcsFrom(arg.keys, arg.vals, totalAmount, 0.0)
    {
      var total := totalAmount;
      var keys, vals := arg.keys, arg.vals;
      categoriesToDraw := [];
      var startAngle := 0.0;
      var i := 0;
      while i < |keys|
        invariant 0 <= i <= |keys|
        invariant categoriesToDraw + ArcsFrom(keys[i..], vals, total, startAngle) == ArcsFrom(keys, vals, total, 0.0)
      {
        var key := keys[i];
        var sweep := Sweep(vals[key], total);
        var category := Arc(key, startAngle, sweep, startAngle + sweep);
        ArcsFromStep(keys, vals, total, startAngle, i);
        AppendAssociates(categoriesToDraw, [category], ArcsFrom(keys[i + 1..], vals, total, category.end));
        startAngle := category.end;
        categoriesToDraw := categoriesToDraw + [category];
        i := i + 1;
      }
      assert keys[|keys|..] == [];
    }

    /** `updateData`: merge the argument into the dataset, take the argument's
        own total, and rebuild the arcs from the argument alone, now if the view
        is laid out and otherwise once it is. */
    method UpdateData(arg: OrderedMap)
      requires Valid() && Admissible(arg)
      modifies this
      ensures Valid()
      ensures data == PutAll(old(data), arg)
      ensures totalAmount == Sum(arg)
      ensures old(laidOut) ==> categoriesToDraw == BuildArcs(arg, Sum(arg)) && pending == None
      ensures !old(laidOut) ==> categoriesToDraw == old(categoriesToDraw) && pending == Some(arg)
      ensures width == old(width) && height == old(height) && chartSide == old(chartSide)
      ensures laidOut == old(laidOut) && hasListener == old(hasListener)
    {
      PutAllKeepsAdmissible(data, arg);
      data := PutAll(data, arg);
      totalAmount := Sum(arg);
      if laidOut {
        Populate(arg);
        BuildArcsTileTheCircle(arg);
      } else {
        pending := Some(arg);
      }
    }

    /** `onLayout` for a view laid out at `w` by `h`: keep the shorter side,
        then run the rebuild `doOnLayout` held back, if any. */
    method OnLayout(w: nat, h: nat)
      requires Valid()
      modifies this
      ensures Valid()
      ensures width == w && height == h && chartSide == Min(w, h) && laidOut
      ensures old(pending).Some? ==>
                categoriesToDraw == BuildArcs(old(pending).value, Sum(old(pending).value))
      ensures old(pending).None? ==> categoriesToDraw == old(categoriesToDraw)
      ensures pending == None
      ensures data == old(data) && totalAmount == old(totalAmount) && hasListener == old(hasListener)
    {
      width, height := w, h;
      chartSide := Min(w, h);
      laidOut := true;
      if pending.Some? {
        var arg := pending.value;
        Populate(arg);
        BuildArcsTileTheCircle(arg);
        pending := None;
      }
    }

    /** `setOnCategoryClickListener`: a listener is registered (replacing any other). */
    method SetOnCategoryClickListener()
      modifies this`hasListener
      ensures hasListener
    {
      hasListener := true;
    }

    /** `onSingleTapUp`: test every category in order against the ring of the
        current side and call the listener, if any, for each one under the tap.
        Returns the names the listener was called with, in call order. */
    method OnSingleTapUp(touchX: real, touchY: real, atan: real) returns (calls: seq<string>)
      requires Valid()
      ensures calls == if hasListener then
                         Hits(categoriesToDraw, touchX, touchY, width, height, atan,
                              InnerRadius(chartSide, density), OuterRadius(chartSide, density))
                       else []
      ensures |calls| <= 1
      ensures forall i :: 0 <= i < |categoriesToDraw| &&
                IsChartCategoryUnderTouch(touchX, touchY, width, height, atan,
                                          categoriesToDraw[i].start, categoriesToDraw[i].end,
                                          InnerRadius(chartSide, density), OuterRadius(chartSide, density))
                ==> calls == if hasListener then [categoriesToDraw[i].name] else []
    {
      var inner := InnerRadius(chartSide, density);
      var outer := OuterRadius(chartSide, density);
      calls := [];
      var i := 0;
      while i < |categoriesToDraw|
        invariant 0 <= i <= |categoriesToDraw|
        invariant hasListener ==>
                    calls + Hits(categoriesToDraw[i..], touchX, touchY, width, height, atan, inner, outer)
                    == Hits(categoriesToDraw, touchX, touchY, width, height, atan, inner, outer)
        invariant !hasListener ==> calls == []
      {
        var category := categoriesToDraw[i];
        assert categoriesToDraw[i..][1..] == categoriesToDraw[i + 1..];
        if IsChartCategoryUnderTouch(touchX, touchY, width, height, atan,
                                     category.start, category.end, inner, outer) {
          if hasListener {
            calls := calls + [category.name];
          }
        }
        i := i + 1;
      }
      HitsAtMostOne(categoriesToDraw, 0.0, touchX, touchY, width, height, atan, inner, outer);
      forall i | 0 <= i < |categoriesToDraw| &&
                 IsChartCategoryUnderTouch(touchX, touchY, width, height, atan,
                                           categoriesToDraw[i].start, categoriesToDraw[i].end, inner, outer)
        ensures Hits(categoriesToDraw, touchX, touchY, width, height, atan, inner, outer)
                == [categoriesToDraw[i].name]
      {
        HitsIsTheMatch(categoriesToDraw, 0.0, i, touchX, touchY, width, height, atan, inner, outer);
      }
    }

    /** `onSaveInstanceState`: the saved state starts empty and takes a copy of
        the merged dataset with `putAll`, which reproduces it exactly. */
    method SaveState() returns (savedData: OrderedMap)
      requires Valid()
      ensures savedData == data
    {
      savedData := Empty;
      PutAllIntoEmpty(data);
      savedData := PutAll(savedData, data);
    }

    /** `onRestoreInstanceState`: replay the saved dataset through `updateData`. */
    method RestoreState(savedData: OrderedMap)
      requires Valid() && Admissible(savedData)
      modifies this
      ensures Valid()
      ensures data == PutAll(old(data), savedData)
      ensures totalAmount == Sum(savedData)
      ensures old(laidOut) ==> categoriesToDraw == BuildArcs(savedData, Sum(savedData)) && pending == None
      ensures !old(laidOut) ==> categoriesToDraw == old(categoriesToDraw) && pending == Some(savedData)
      ensures width == old(width) && height == old(height) && chartSide == old(chartSide)
      ensures laidOut == old(laidOut) && hasListener == old(hasListener)
    {
      UpdateData(savedData);
    }
  }

  lemma AppendAssociates<T>(a: seq<T>, b: seq<T>, c: seq<T>)
    ensures (a + b) + c == a + (b + c)
  {
  }

  /** Two updates, then the view is recreated from its saved state (as on a
      rotation). The recreated view holds the same dataset, but its total and
      its arcs now count the merged dataset, where the original counted only
      the last argument: the displayed total goes from 2 to 3 and the chart
      from one sector to two. */
  method RecreationShowsMergedTotal(density: real) returns (before: int, after: int, beforeArcs: nat, afterArcs: nat)
    requires density > 0.0
    ensures before == 2 && after == 3
    ensures beforeArcs == 1 && afterArcs == 2
  {
    var first, second := First(), Second();
    MergeScenario();
    var view := new PieChartView(density);
    view.OnLayout(400, 600);
    view.UpdateData(first);
    view.UpdateData(second);
    var saved := view.SaveState();
    var recreated := new PieChartView(density);
    recreated.RestoreState(saved);
    recreated.OnLayout(400, 600);
    BuildArcsFollowDataset(second, 2);
    BuildArcsFollowDataset(saved, 3);
    before, after := view.totalAmount, recreated.totalAmount;
    beforeArcs, afterArcs := |view.categoriesToDraw|, |recreated.categoriesToDraw|;
  }

  /** A laid-out 400 by 400 view at density 1, with a listener, showing a
      chart whose arcs are a: (0, 90), b: (90, 270), c: (270, 360), as
      {a: 1, b: 2, c: 1} gives (`QuarterChartArcs`): a tap on the ring straight
      to the right of the centre, on the boundary between a and c, calls the
      listener with b. */
  method RightwardTapCallsOppositeCategory(chart: OrderedMap) returns (calls: seq<string>)
    requires Admissible(chart) && BuildArcs(chart, Sum(chart)) == QuarterArcs()
    ensures calls == ["b"]
  {
    var view := new PieChartView(1.0);
    view.OnLayout(400, 400);
    view.SetOnCategoryClickListener();
    view.UpdateData(chart);
    calls := view.OnSingleTapUp(370.0, 200.0, 0.0);
    assert calls == Hits(QuarterArcs(), 370.0, 200.0, 400, 400, 0.0,
                         InnerRadius(Min(400, 400), 1.0), OuterRadius(Min(400, 400), 1.0));
    QuarterTapHitsB();
  }

  /** The view's scan of that tap over those arcs, at the ring of a 400 by 400 view. */
  lemma QuarterTapHitsB()
    ensures Hits(QuarterArcs(), 370.0, 200.0, 400, 400, 0.0,
                 InnerRadius(Min(400, 400), 1.0), OuterRadius(Min(400, 400), 1.0)) == ["b"]
  {
    RightwardTapSelectsOppositeSector();
  }

  /** {a: 1, b: 2, c: 1} is such a chart. */
  lemma QuarterChartOnView()
    ensures Admissible(QuarterChart()) && BuildArcs(QuarterChart(), Sum(QuarterChart())) == QuarterArcs()
  {
    QuarterChartArcs();
  }

  /** The datasets of that scenario: {a: 1} then {b: 2} merge to {a: 1, b: 2},
      whose total is 3 against the last argument's 2; replaying the merged
      dataset into an empty view gives it back unchanged. */
  lemma MergeScenario()
    ensures Admissible(First()) && Admissible(Second()) && Admissible(Merged())
    ensures PutAll(PutAll(Empty, First()), Second()) == Merged()
    ensures PutAll(Empty, Merged()) == Merged()
    ensures Sum(Second()) == 2 && Sum(Merged()) == 3
  {
    ScenarioAdmissible();
    PutAllIntoEmpty(First());
    PutAllMerges(First(), Second());
    assert NewKeys(Second().keys, First().vals) == ["b"];
    PutAllIntoEmpty(Merged());
  }

  lemma ScenarioAdmissible()
    ensures Admissible(First()) && Admissible(Second()) && Admissible(Merged())
    ensures Sum(Second()) == 2 && Sum(Merged()) == 3
  {
    SingletonAdmissible("a", 1);
    SingletonAdmissible("b", 2);
    var m := Merged();
    assert m.keys[1..] == ["b"] && m.keys[1..][1..] == [];
    assert SumOf(m.keys[1..], m.vals) == 2;
    assert Distinct(m.keys) by {
      assert m.keys[0] != m.keys[1];
    }
  }

  lemma SingletonAdmissible(k: string, v: int)
    requires v > 0
    ensures Admissible(OrderedMap([k], map[k := v])) && Sum(OrderedMap([k], map[k := v])) == v
  {
    var m := OrderedMap([k], map[k := v]);
    assert m.keys[1..] == [];
    assert Sum(m) == m.vals[k] + SumOf([], m.vals);
  }

  function First(): OrderedMap { OrderedMap(["a"], map["a" := 1]) }
  function Second(): OrderedMap { OrderedMap(["b"], map["b" := 2]) }
  function Merged(): OrderedMap { OrderedMap(["a", "b"], map["a" := 1, "b" := 2]) }
}
