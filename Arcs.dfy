/** The arc builder of the chart view: `populate` walks the dataset once with a
    running start angle, and each `CategoryVisualisationModel` takes the sweep
    `360 * amount / total` and ends at `start + sweep`. Angles are degrees,
    measured the way `Path.addArc` measures them: clockwise from the positive
    x-axis of the screen. */
module Arcs {
  import opened Dataset

  /** TOTAL_DEGREES: a full turn. */
  const TotalDegrees: real := 360.0

  /** The angles of one category's sector, as `CategoryVisualisationModel` keeps them. */
  datatype Arc = Arc(name: string, start: real, sweep: real, end: real)

  /** A category's share of the full turn. */
  function Sweep(amount: int, total: int): real
    requires total != 0
  {
    TotalDegrees * amount as real / total as real
  }

  /** The arcs of the listed categories laid out from `start`, in list order. */
  function ArcsFrom(ks: seq<string>, vals: map<string, int>, total: int, start: real): seq<Arc>
    requires forall k :: k in ks ==> k in vals
    requires ks != [] ==> total != 0
    decreases |ks|
  {
    if ks == [] then []
    else
      var sweep := Sweep(vals[ks[0]], total);
      [Arc(ks[0], start, sweep, start + sweep)] + ArcsFrom(ks[1..], vals, total, start + sweep)
  }

  /** What `populate(data)` leaves in the view's category map, in its iteration order. */
  function BuildArcs(m: OrderedMap, total: int): seq<Arc>
    requires m.Valid()
    requires m.keys != [] ==> total != 0
  {
    ArcsFrom(m.keys, m.vals, total, 0.0)
  }

  /** One step of the forward pass: the first category's arc, then the rest
      from where it ends. */
  lemma ArcsFromStep(ks: seq<string>, vals: map<string, int>, total: int, start: real, i: nat)
    requires forall k :: k in ks ==> k in vals
    requires ks != [] ==> total != 0
    requires i < |ks|
    ensures ArcsFrom(ks[i..], vals, total, start)
            == [Arc(ks[i], start, Sweep(vals[ks[i]], total), start + Sweep(vals[ks[i]], total))]
               + ArcsFrom(ks[i + 1..], vals, total, start + Sweep(vals[ks[i]], total))
  {
    assert ks[i..][0] == ks[i] && ks[i..][1..] == ks[i + 1..];
  }

  /** Each arc begins where the previous one ended, the first at `start`. */
  predicate Contiguous(arcs: seq<Arc>, start: real) {
    (|arcs| > 0 ==> arcs[0].start == start)
    && forall i :: 0 < i < |arcs| ==> arcs[i].start == arcs[i - 1].end
  }

  /** Each arc ends one sweep after it starts, and no sweep runs backwards. */
  predicate Forward(arcs: seq<Arc>) {
    forall i :: 0 <= i < |arcs| ==> arcs[i].sweep >= 0.0 && arcs[i].end == arcs[i].start + arcs[i].sweep
  }

  /** Where the last arc ends (`start` when there is none). */
  function EndOf(arcs: seq<Arc>, start: real): real {
    if arcs == [] then start else arcs[|arcs| - 1].end
  }

  lemma SharesAdd(a: int, b: int, total: int)
    requires total != 0
    ensures Sweep(a, total) + TotalDegrees * b as real / total as real
         == TotalDegrees * (a + b) as real / total as real
  {
    var t := total as real;
    assert TotalDegrees * (a + b) as real == TotalDegrees * a as real + TotalDegrees * b as real;
    assert (TotalDegrees * a as real + TotalDegrees * b as real) / t
        == TotalDegrees * a as real / t + TotalDegrees * b as real / t;
  }

  /** One arc per listed category, in list order, each with its share of the
      turn and ending one sweep after it starts. */
  lemma {:induction false} ArcsFromEntries(ks: seq<string>, vals: map<string, int>, total: int, start: real)
    requires forall k :: k in ks ==> k in vals
    requires ks != [] ==> total != 0
    ensures |ArcsFrom(ks, vals, total, start)| == |ks|
    ensures forall i :: 0 <= i < |ks| ==>
              ArcsFrom(ks, vals, total, start)[i].name == ks[i]
              && ArcsFrom(ks, vals, total, start)[i].sweep == Sweep(vals[ks[i]], total)
              && ArcsFrom(ks, vals, total, start)[i].end
                 == ArcsFrom(ks, vals, total, start)[i].start + ArcsFrom(ks, vals, total, start)[i].sweep
    decreases |ks|
  {
    if ks != [] {
      var sweep := Sweep(vals[ks[0]], total);
      var rest := ArcsFrom(ks[1..], vals, total, start + sweep);
      ArcsFromEntries(ks[1..], vals, total, start + sweep);
      var r := ArcsFrom(ks, vals, total, start);
      assert r == [Arc(ks[0], start, sweep, start + sweep)] + rest;
      forall i | 0 < i < |ks|
        ensures r[i] == rest[i - 1] && ks[i] == ks[1..][i - 1]
      {
      }
    }
  }

  /** The arcs are laid end to end from `start`. */
  lemma {:induction false} ArcsFromContiguous(ks: seq<string>, vals: map<string, int>, total: int, start: real)
    requires forall k :: k in ks ==> k in vals
    requires ks != [] ==> total != 0
    ensures Contiguous(ArcsFrom(ks, vals, total, start), start)
    decreases |ks|
  {
    if ks != [] {
      var sweep := Sweep(vals[ks[0]], total);
      var rest := ArcsFrom(ks[1..], vals, total, start + sweep);
      ArcsFromContiguous(ks[1..], vals, total, start + sweep);
      var r := ArcsFrom(ks, vals, total, start);
      assert r == [Arc(ks[0], start, sweep, start + sweep)] + rest;
      forall i | 0 < i < |r|
        ensures r[i].start == r[i - 1].end
      {
        assert r[i] == rest[i - 1];
        if i > 1 {
          assert r[i - 1] == rest[i - 2];
        }
      }
    }
  }

  /** Together the arcs sweep the listed categories' share of the total. */
  lemma {:induction false} ArcsFromEnd(ks: seq<string>, vals: map<string, int>, total: int, start: real)
    requires forall k :: k in ks ==> k in vals
    requires total != 0
    ensures EndOf(ArcsFrom(ks, vals, total, start), start)
            == start + TotalDegrees * SumOf(ks, vals) as real / total as real
    decreases |ks|
  {
    if ks != [] {
      var sweep := Sweep(vals[ks[0]], total);
      var rest := ArcsFrom(ks[1..], vals, total, start + sweep);
      ArcsFromEnd(ks[1..], vals, total, start + sweep);
      var r := ArcsFrom(ks, vals, total, start);
      assert r == [Arc(ks[0], start, sweep, start + sweep)] + rest;
      assert EndOf(r, start) == EndOf(rest, start + sweep);
      SharesAdd(vals[ks[0]], SumOf(ks[1..], vals), total);
    }
  }

  /** After a rebuild the arcs are exactly the dataset's categories in its
      iteration order, each with its share `360 * amount / total`. */
  lemma BuildArcsFollowDataset(m: OrderedMap, total: int)
    requires m.Valid()
    requires m.keys != [] ==> total != 0
    ensures |BuildArcs(m, total)| == |m.keys|
    ensures forall i :: 0 <= i < |m.keys| ==>
              BuildArcs(m, total)[i].name == m.keys[i]
              && BuildArcs(m, total)[i].sweep == Sweep(m.vals[m.keys[i]], total)
  {
    ArcsFromEntries(m.keys, m.vals, total, 0.0);
  }

  /** With non-negative amounts and the dataset's own total, the arcs tile the
      full turn: the first starts at 0, each starts where the previous ended,
      no sweep is negative, and the last ends at exactly 360. */
  lemma BuildArcsTileTheCircle(m: OrderedMap)
    requires Admissible(m)
    ensures Contiguous(BuildArcs(m, Sum(m)), 0.0)
    ensures Forward(BuildArcs(m, Sum(m)))
    ensures m.keys != [] ==> EndOf(BuildArcs(m, Sum(m)), 0.0) == TotalDegrees
  {
    var total := Sum(m);
    var arcs := BuildArcs(m, total);
    ArcsFromEntries(m.keys, m.vals, total, 0.0);
    ArcsFromContiguous(m.keys, m.vals, total, 0.0);
    forall i | 0 <= i < |arcs|
      ensures arcs[i].sweep >= 0.0
    {
      assert m.keys[i] in m.vals;
      SweepNonNegative(m.vals[m.keys[i]], total);
    }
    if m.keys != [] {
      ArcsFromEnd(m.keys, m.vals, total, 0.0);
      FullShare(total);
    }
  }

  lemma FullShare(total: int)
    requires total != 0
    ensures 0.0 + TotalDegrees * total as real / total as real == TotalDegrees
  {
  }

  lemma SweepNonNegative(amount: int, total: int)
    requires amount >= 0 && total > 0
    ensures Sweep(amount, total) >= 0.0
  {
    assert TotalDegrees * amount as real >= 0.0;
  }

  /** Arcs laid end to end with forward sweeps never overlap: an earlier arc
      ends no later than a later one starts. */
  lemma {:induction false} ArcsOrdered(arcs: seq<Arc>, start: real, i: int, j: int)
    requires Contiguous(arcs, start) && Forward(arcs)
    requires 0 <= i < j < |arcs|
    ensures arcs[i].end <= arcs[j].start
    decreases j - i
  {
    if j > i + 1 {
      ArcsOrdered(arcs, start, i, j - 1);
    }
  }

  /** Arcs laid end to end cover every angle from where they start to where
      they end: each such angle lies in some arc's half-open range. */
  lemma {:induction false} ArcsCover(arcs: seq<Arc>, start: real, angle: real) returns (i: nat)
    requires Contiguous(arcs, start) && Forward(arcs)
    requires start <= angle < EndOf(arcs, start)
    ensures i < |arcs| && arcs[i].start <= angle < arcs[i].end
    decreases |arcs|
  {
    var n := |arcs|;
    if angle >= arcs[n - 1].start {
      i := n - 1;
    } else {
      var prefix := arcs[..n - 1];
      assert Contiguous(prefix, start) && Forward(prefix);
      assert EndOf(prefix, start) == arcs[n - 1].start;
      i := ArcsCover(prefix, start, angle);
    }
  }
}
