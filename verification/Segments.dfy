/** How the workers of a run are split over its locations: the run's cut points and each location's share of them. */
module Segments {
  import opened Statuses
  import Decimal

  datatype Segment = Segment(segment: string, id: string)

  function Sum(workers: seq<nat>): nat {
    if workers == [] then 0 else Sum(workers[..|workers| - 1]) + workers[|workers| - 1]
  }

  /** `TestRun.segments`: the cut points handed to every k6 instance. */
  function CutPoints(workers: seq<nat>): seq<string> {
    var total := Sum(workers);
    ["0"] + seq(if total == 0 then 0 else total - 1, k requires 0 <= k => Decimal.Render(k + 1) + "/" + Decimal.Render(total)) + ["1"]
  }

  function SegmentPart(index: nat, total: nat): string {
    if index == 0 then "0"
    else if index == total then "1"
    else Decimal.Render(index) + "/" + Decimal.Render(total)
  }

  function SegmentAt(index: nat, total: nat): Segment {
    Segment(SegmentPart(index, total) + ":" + SegmentPart(index + 1, total), Decimal.Render(index + 1))
  }

  /** `TestRunLocation.assigned_segments` of the location at position `p` in primary key order. */
  function Assigned(workers: seq<nat>, p: nat): seq<Segment>
    requires p < |workers|
  {
    seq(workers[p], k requires 0 <= k => SegmentAt(Sum(workers[..p]) + k, Sum(workers)))
  }

  /** The shares of the first `m` locations, one after the other. */
  function Shares(workers: seq<nat>, m: nat): seq<Segment>
    requires m <= |workers|
  {
    if m == 0 then [] else Shares(workers, m - 1) + Assigned(workers, m - 1)
  }

  /** Every segment between two neighbouring cut points, numbered from 1. */
  function AdjacentPairs(cuts: seq<string>): seq<Segment>
    requires cuts != []
  {
    seq(|cuts| - 1, k requires 0 <= k < |cuts| - 1 => Segment(cuts[k] + ":" + cuts[k + 1], Decimal.Render(k + 1)))
  }

  // ----- The split is the list of cut points

  lemma ShareAt(workers: seq<nat>, p: nat, k: nat)
    requires p < |workers| && k < workers[p]
    ensures |Assigned(workers, p)| == workers[p]
    ensures Assigned(workers, p)[k] == SegmentAt(Sum(workers[..p]) + k, Sum(workers))
  {
  }

  lemma SumOneMore(workers: seq<nat>, p: nat)
    requires p < |workers|
    ensures Sum(workers[..p + 1]) == Sum(workers[..p]) + workers[p]
  {
    assert workers[..p + 1][..p] == workers[..p];
  }

  lemma {:induction false} SharesAreConsecutive(workers: seq<nat>, m: nat)
    requires m <= |workers|
    ensures |Shares(workers, m)| == Sum(workers[..m])
    ensures forall k | 0 <= k < |Shares(workers, m)| :: Shares(workers, m)[k] == SegmentAt(k, Sum(workers))
  {
    if m > 0 {
      var before, share, total := Shares(workers, m - 1), Assigned(workers, m - 1), Sum(workers);
      SharesAreConsecutive(workers, m - 1);
      SumOneMore(workers, m - 1);
      assert Shares(workers, m) == before + share;
      forall k | 0 <= k < |before + share| ensures (before + share)[k] == SegmentAt(k, total) {
        if k >= |before| {
          ShareAt(workers, m - 1, k - |before|);
        }
      }
    }
  }

  lemma CutPointsAreParts(workers: seq<nat>, k: nat)
    requires k < |CutPoints(workers)| && Sum(workers) > 0
    ensures |CutPoints(workers)| == Sum(workers) + 1
    ensures CutPoints(workers)[k] == SegmentPart(k, Sum(workers))
  {
  }

  lemma PairsAreSegments(workers: seq<nat>)
    requires Sum(workers) > 0
    ensures |AdjacentPairs(CutPoints(workers))| == Sum(workers)
    ensures forall k | 0 <= k < Sum(workers) :: AdjacentPairs(CutPoints(workers))[k] == SegmentAt(k, Sum(workers))
  {
    CutPointsAreParts(workers, 0);
    forall k | 0 <= k < Sum(workers) ensures AdjacentPairs(CutPoints(workers))[k] == SegmentAt(k, Sum(workers)) {
      CutPointsAreParts(workers, k);
      CutPointsAreParts(workers, k + 1);
    }
  }

  lemma NobodysSegment(workers: seq<nat>)
    requires Sum(workers) == 0
    ensures |AdjacentPairs(CutPoints(workers))| == 1
  {
    assert |CutPoints(workers)| == 2;
  }

  lemma SharesAreSegments(workers: seq<nat>)
    ensures |Shares(workers, |workers|)| == Sum(workers)
    ensures forall k | 0 <= k < Sum(workers) :: Shares(workers, |workers|)[k] == SegmentAt(k, Sum(workers))
  {
    SharesAreConsecutive(workers, |workers|);
    assert workers[..|workers|] == workers;
  }

  /**
   * The locations' shares, in primary key order, are precisely the segments between neighbouring cut points; the only
   * exception is a run without workers, whose two cut points enclose one segment that nobody gets.
   */
  lemma SharesAreThePartitionExactlyWhen(workers: seq<nat>)
    ensures Shares(workers, |workers|) == AdjacentPairs(CutPoints(workers)) <==> Sum(workers) >= 1
  {
    SharesAreSegments(workers);
    if Sum(workers) >= 1 {
      PairsAreSegments(workers);
    } else {
      NobodysSegment(workers);
    }
  }

  // ----- What a segment string means to k6

  function IndexOf(s: string, c: char): (r: nat)
    ensures r <= |s| && c !in s[..r] && (r < |s| ==> s[r] == c)
  {
    if s == [] then 0 else if s[0] == c then 0 else 1 + IndexOf(s[1..], c)
  }

  lemma {:induction false} IndexOfSeparator(a: string, c: char, b: string)
    requires c !in a
    ensures IndexOf(a + [c] + b, c) == |a|
  {
    if a != [] {
      assert (a + [c] + b)[1..] == a[1..] + [c] + b;
      IndexOfSeparator(a[1..], c, b);
    }
  }

  predicate AllDigits(s: string) {
    s != [] && forall k | 0 <= k < |s| :: Decimal.IsDigit(s[k])
  }

  /** The point of the unit interval that "n" or "n/d" denotes. */
  function ParsePoint(s: string): Option<real> {
    var slash := IndexOf(s, '/');
    if slash == |s| then if AllDigits(s) then Some(Decimal.Parse(s) as real) else None
    else if AllDigits(s[..slash]) && AllDigits(s[slash + 1..]) && Decimal.Parse(s[slash + 1..]) != 0
    then Some(Decimal.Parse(s[..slash]) as real / Decimal.Parse(s[slash + 1..]) as real)
    else None
  }

  /** The interval that "from:to" denotes. */
  function ParseSegment(s: string): Option<(real, real)> {
    var colon := IndexOf(s, ':');
    if colon == |s| then None
    else
      var from, to := ParsePoint(s[..colon]), ParsePoint(s[colon + 1..]);
      if from.Some? && to.Some? then Some((from.value, to.value)) else None
  }

  lemma {:induction false} NoSeparator(s: string, c: char)
    requires c !in s
    ensures IndexOf(s, c) == |s|
  {
    if s != [] {
      NoSeparator(s[1..], c);
    }
  }

  lemma ParseNumber(n: nat)
    ensures ParsePoint(Decimal.Render(n)) == Some(n as real)
    ensures ':' !in Decimal.Render(n)
  {
    Decimal.ParseRender(n);
    NoSeparator(Decimal.Render(n), '/');
  }

  lemma ParseFraction(a: nat, b: nat)
    requires b > 0
    ensures ParsePoint(Decimal.Render(a) + "/" + Decimal.Render(b)) == Some(a as real / b as real)
    ensures ':' !in Decimal.Render(a) + "/" + Decimal.Render(b)
  {
    var x, y := Decimal.Render(a), Decimal.Render(b);
    var s := x + ['/'] + y;
    IndexOfSeparator(x, '/', y);
    assert s[..|x|] == x && s[|x| + 1..] == y;
    Decimal.ParseRender(a);
    Decimal.ParseRender(b);
  }

  lemma ParseEnds()
    ensures ParsePoint("0") == Some(0.0) && ParsePoint("1") == Some(1.0)
    ensures ':' !in "0" && ':' !in "1"
  {
    assert Decimal.Render(0) == "0" && Decimal.Render(1) == "1";
    ParseNumber(0);
    ParseNumber(1);
  }

  lemma PointEnds(total: nat)
    requires total > 0
    ensures Point(0, total) == 0.0 && Point(total, total) == 1.0
  {
  }

  lemma ParsePart(index: nat, total: nat)
    requires index <= total && total > 0
    ensures ParsePoint(SegmentPart(index, total)) == Some(Point(index, total))
    ensures ':' !in SegmentPart(index, total)
  {
    if index == 0 || index == total {
      ParseEnds();
      PointEnds(total);
    } else {
      ParseFraction(index, total);
    }
  }

  lemma ParseJoined(a: string, b: string, x: real, y: real)
    requires ':' !in a && ParsePoint(a) == Some(x) && ParsePoint(b) == Some(y)
    ensures ParseSegment(a + ":" + b) == Some((x, y))
  {
    IndexOfSeparator(a, ':', b);
    var s := a + [':'] + b;
    assert s[..|a|] == a && s[|a| + 1..] == b;
  }

  /** The point k of W. */
  function Point(index: nat, total: nat): real
    requires total > 0
  {
    index as real / total as real
  }

  lemma ParseSegmentAt(index: nat, total: nat)
    requires index < total
    ensures ParseSegment(SegmentAt(index, total).segment) == Some((Point(index, total), Point(index + 1, total)))
  {
    var a, b := SegmentPart(index, total), SegmentPart(index + 1, total);
    var x, y := Point(index, total), Point(index + 1, total);
    assert ':' !in a && ParsePoint(a) == Some(x) by { ParsePart(index, total); }
    assert ParsePoint(b) == Some(y) by { ParsePart(index + 1, total); }
    ParseJoined(a, b, x, y);
  }

  lemma Points(index: nat, total: nat)
    requires total > 0
    ensures Point(index, total) * total as real == index as real
    ensures Point(index + 1, total) - Point(index, total) == 1.0 / total as real
    ensures Point(0, total) == 0.0 && Point(total, total) == 1.0
  {
    var i, t := index as real, total as real;
    assert (index + 1) as real == i + 1.0;
    assert (i + 1.0) / t == i / t + 1.0 / t;
  }

  lemma PointIsInjective(j: nat, k: nat, total: nat)
    requires total > 0 && Point(j, total) == Point(k, total)
    ensures j == k
  {
    Points(j, total);
    Points(k, total);
  }

  /**
   * Read as intervals, the locations' shares in primary key order tile the unit interval: the k-th goes from point k to
   * point k + 1 of W, the points run from 0 to 1, and each is 1/W after the one before.
   */
  lemma SharesTileTheUnitInterval(workers: seq<nat>)
    requires Sum(workers) >= 1
    ensures var shares, total := Shares(workers, |workers|), Sum(workers);
            && |shares| == total
            && (forall k | 0 <= k < total ::
                  ParseSegment(shares[k].segment) == Some((Point(k, total), Point(k + 1, total))))
            && Point(0, total) == 0.0 && Point(total, total) == 1.0
            && (forall k: nat :: Point(k + 1, total) - Point(k, total) == 1.0 / total as real)
  {
    var shares, total := Shares(workers, |workers|), Sum(workers);
    SharesAreSegments(workers);
    forall k | 0 <= k < total
      ensures ParseSegment(shares[k].segment) == Some((Point(k, total), Point(k + 1, total)))
    {
      ParseSegmentAt(k, total);
    }
    forall k: nat ensures Point(k + 1, total) - Point(k, total) == 1.0 / total as real {
      Points(k, total);
    }
    Points(0, total);
  }

  /** The shares' numbers, in the same order, run from 1 to W. */
  lemma SharesAreNumbered(workers: seq<nat>)
    ensures |Shares(workers, |workers|)| == Sum(workers)
    ensures forall k | 0 <= k < Sum(workers) :: Decimal.Parse(Shares(workers, |workers|)[k].id) == k + 1
  {
    SharesAreSegments(workers);
    forall k | 0 <= k < Sum(workers) ensures Decimal.Parse(Shares(workers, |workers|)[k].id) == k + 1 {
      Decimal.ParseRender(k + 1);
    }
  }

  /** No two segments of a run share their string or their number. */
  lemma SegmentsAreDistinct(j: nat, k: nat, total: nat)
    requires j < total && k < total
    requires SegmentAt(j, total).segment == SegmentAt(k, total).segment || SegmentAt(j, total).id == SegmentAt(k, total).id
    ensures j == k
  {
    if SegmentAt(j, total).id == SegmentAt(k, total).id {
      Decimal.RenderIsInjective(j + 1, k + 1);
    } else {
      ParseSegmentAt(j, total);
      ParseSegmentAt(k, total);
      PointIsInjective(j, k, total);
    }
  }

  // ----- Who runs which segment

  lemma {:induction false} PrefixSums(workers: seq<nat>, p: nat, m: nat)
    requires p < m <= |workers|
    ensures Sum(workers[..p]) + workers[p] <= Sum(workers[..m])
  {
    assert workers[..m][..m - 1] == workers[..m - 1];
    if p < m - 1 {
      PrefixSums(workers, p, m - 1);
    }
  }

  /** The location and the completion index that run segment number `q`, counted from 0. */
  lemma {:induction false} SegmentHasAnOwner(workers: seq<nat>, q: nat, m: nat) returns (p: nat, k: nat)
    requires m <= |workers| && q < Sum(workers[..m])
    ensures p < m && k < workers[p] && Sum(workers[..p]) + k == q
    ensures Assigned(workers, p)[k] == SegmentAt(q, Sum(workers))
  {
    assert workers[..m][..m - 1] == workers[..m - 1];
    if q < Sum(workers[..m - 1]) {
      p, k := SegmentHasAnOwner(workers, q, m - 1);
    } else {
      p, k := m - 1, q - Sum(workers[..m - 1]);
    }
  }

  /** The number in the run, counted from 0, of the segment at completion index `k` of location `p`. */
  function NumberOf(workers: seq<nat>, p: nat, k: nat): nat
    requires p < |workers|
  {
    Sum(workers[..p]) + k
  }

  lemma AssignedAt(workers: seq<nat>, p: nat, k: nat, q: nat, total: nat)
    requires p < |workers| && k < workers[p] && q == NumberOf(workers, p, k) && total == Sum(workers)
    ensures q < total && Assigned(workers, p)[k].segment == SegmentAt(q, total).segment
  {
    PrefixSums(workers, p, |workers|);
    assert workers[..|workers|] == workers;
    ShareAt(workers, p, k);
  }

  lemma EqualStrings(a: string, b: string, j: nat, k: nat, total: nat)
    requires j < total && k < total
    requires a == SegmentAt(j, total).segment && b == SegmentAt(k, total).segment && a == b
    ensures j == k
  {
    SegmentsAreDistinct(j, k, total);
  }

  lemma SameSegmentSameNumber(workers: seq<nat>, p: nat, k: nat, p': nat, k': nat)
    requires p < |workers| && k < workers[p] && p' < |workers| && k' < workers[p']
    requires Assigned(workers, p)[k].segment == Assigned(workers, p')[k'].segment
    ensures NumberOf(workers, p, k) == NumberOf(workers, p', k')
  {
    var a, b := Assigned(workers, p)[k].segment, Assigned(workers, p')[k'].segment;
    var i, j, total := NumberOf(workers, p, k), NumberOf(workers, p', k'), Sum(workers);
    AssignedAt(workers, p, k, i, total);
    AssignedAt(workers, p', k', j, total);
    EqualStrings(a, b, i, j, total);
  }

  lemma SameNumberSameOwner(workers: seq<nat>, p: nat, k: nat, p': nat, k': nat)
    requires p < |workers| && k < workers[p] && p' < |workers| && k' < workers[p']
    requires NumberOf(workers, p, k) == NumberOf(workers, p', k')
    ensures p == p' && k == k'
  {
    if p < p' {
      PrefixSums(workers, p, p');
    } else if p' < p {
      PrefixSums(workers, p', p);
    }
  }

  /** Two workers with the same segment string are the same worker. */
  lemma SegmentHasOneOwner(workers: seq<nat>, p: nat, k: nat, p': nat, k': nat)
    requires p < |workers| && k < workers[p] && p' < |workers| && k' < workers[p']
    requires Assigned(workers, p)[k].segment == Assigned(workers, p')[k'].segment
    ensures p == p' && k == k'
  {
    SameSegmentSameNumber(workers, p, k, p', k');
    SameNumberSameOwner(workers, p, k, p', k');
  }
}
