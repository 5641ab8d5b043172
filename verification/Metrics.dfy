/** Interval algebra of the performance report (performance_metrics.cpp): the busy-time numbers
    count integer points, whatever intervals were recorded. */
module Metrics {
  import opened Basics
  import opened Arithmetic

  datatype Interval = Interval(start: int, end: int)

  // ---------------------------------------------------------------- covered points

  predicate Inside(lo: int, hi: int, p: int) {
    lo <= p < hi
  }

  /** The integers from `lo` up to but not including `hi`. */
  function Points(lo: int, hi: int): set<int> {
    set p | lo <= p < hi && Inside(lo, hi, p)
  }

  /** The integer points that a family of intervals covers. */
  function Cover(v: seq<Interval>): set<int> {
    if v == [] then {} else Points(v[0].start, v[0].end) + Cover(v[1..])
  }

  lemma {:induction false} PointsSize(lo: int, hi: int)
    ensures |Points(lo, hi)| == if hi >= lo then hi - lo else 0
    decreases hi - lo
  {
    if hi > lo {
      PointsSize(lo, hi - 1);
      assert Points(lo, hi) == Points(lo, hi - 1) + {hi - 1};
    } else {
      assert Points(lo, hi) == {};
    }
  }

  lemma {:induction false} CoverMember(v: seq<Interval>, p: int)
    ensures p in Cover(v) <==> exists i :: 0 <= i < |v| && v[i].start <= p < v[i].end
  {
    if v != [] {
      CoverMember(v[1..], p);
      if exists i :: 0 <= i < |v[1..]| && v[1..][i].start <= p < v[1..][i].end {
        var i :| 0 <= i < |v[1..]| && v[1..][i].start <= p < v[1..][i].end;
        assert v[i + 1].start <= p < v[i + 1].end;
      }
      if i: int :| 0 <= i < |v| && v[i].start <= p < v[i].end {
        if i > 0 {
          assert v[1..][i - 1].start <= p < v[1..][i - 1].end;
        }
      }
    }
  }

  lemma {:induction false} CoverConcat(u: seq<Interval>, v: seq<Interval>)
    ensures Cover(u + v) == Cover(u) + Cover(v)
  {
    if u == [] {
      assert u + v == v;
    } else {
      assert (u + v)[1..] == u[1..] + v;
      CoverConcat(u[1..], v);
    }
  }

  lemma CoverLast(v: seq<Interval>, i: nat)
    requires i < |v|
    ensures Cover(v[..i + 1]) == Cover(v[..i]) + Points(v[i].start, v[i].end)
  {
    assert v[..i + 1] == v[..i] + [v[i]];
    CoverConcat(v[..i], [v[i]]);
    assert [v[i]][1..] == [];
    assert Cover([v[i]]) == Points(v[i].start, v[i].end) + {};
  }

  /** Cover depends only on which intervals occur. */
  lemma CoverOfPermutation(u: seq<Interval>, v: seq<Interval>)
    requires multiset(u) == multiset(v)
    ensures Cover(u) == Cover(v)
  {
    forall p
      ensures p in Cover(u) <==> p in Cover(v)
    {
      CoverMember(u, p);
      CoverMember(v, p);
      if i: int :| 0 <= i < |u| && u[i].start <= p < u[i].end {
        assert u[i] in multiset(v);
        var j :| 0 <= j < |v| && v[j] == u[i];
      }
      if i: int :| 0 <= i < |v| && v[i].start <= p < v[i].end {
        assert v[i] in multiset(u);
        var j :| 0 <= j < |u| && u[j] == v[i];
      }
    }
  }

  // ---------------------------------------------------------------- sorting

  predicate Before(a: Interval, b: Interval) {
    if a.start == b.start then a.end <= b.end else a.start < b.start
  }

  predicate Sorted(v: seq<Interval>) {
    forall i, j :: 0 <= i < j < |v| ==> Before(v[i], v[j])
  }

  /** std::sort by start, then by end. */
  method Sort(v: seq<Interval>) returns (r: seq<Interval>)
    ensures Sorted(r) && multiset(r) == multiset(v)
  {
    r := [];
    for n := 0 to |v|
      invariant Sorted(r) && multiset(r) == multiset(v[..n])
    {
      assert v[..n + 1] == v[..n] + [v[n]];
      r := InsertSorted(r, v[n]);
    }
    assert v[..|v|] == v;
  }

  method InsertSorted(v: seq<Interval>, x: Interval) returns (r: seq<Interval>)
    requires Sorted(v)
    ensures Sorted(r) && multiset(r) == multiset(v) + multiset{x}
  {
    var i := 0;
    while i < |v| && Before(v[i], x)
      invariant 0 <= i <= |v|
      invariant forall k :: 0 <= k < i ==> Before(v[k], x)
    {
      i := i + 1;
    }
    assert v == v[..i] + v[i..];
    InsertedIsSorted(v, x, i);
    r := v[..i] + [x] + v[i..];
  }

  lemma InsertedIsSorted(v: seq<Interval>, x: Interval, i: nat)
    requires Sorted(v) && i <= |v|
    requires forall k :: 0 <= k < i ==> Before(v[k], x)
    requires i < |v| ==> !Before(v[i], x)
    ensures Sorted(v[..i] + [x] + v[i..])
  {
    var r := v[..i] + [x] + v[i..];
    forall j, k | 0 <= j < k < |r|
      ensures Before(r[j], r[k])
    {
      if j == i {
        assert k - 1 == i || Before(v[i], v[k - 1]);
      } else if j < i < k {
        assert Before(v[j], v[k - 1]);
      } else if i < j {
        assert Before(v[j - 1], v[k - 1]);
      } else if k < i {
        assert Before(v[j], v[k]);
      }
    }
  }

  // ---------------------------------------------------------------- union

  predicate NonEmpty(v: seq<Interval>) {
    forall i :: 0 <= i < |v| ==> v[i].start < v[i].end
  }

  /** remove_if: drops intervals that cover nothing. */
  method DropEmpty(v: seq<Interval>) returns (r: seq<Interval>)
    ensures NonEmpty(r) && Cover(r) == Cover(v)
  {
    r := [];
    for i := 0 to |v|
      invariant NonEmpty(r) && Cover(r) == Cover(v[..i])
    {
      CoverLast(v, i);
      if v[i].end > v[i].start {
        assert (r + [v[i]])[..|r|] == r;
        CoverLast(r + [v[i]], |r|);
        assert (r + [v[i]])[..|r| + 1] == r + [v[i]];
        r := r + [v[i]];
      } else {
        assert Points(v[i].start, v[i].end) == {};
      }
    }
    assert v[..|v|] == v;
  }

  /** Two overlapping or touching stretches make one. */
  lemma JoinPoints(lo: int, mid: int, s: int, e: int)
    requires lo <= s <= mid
    ensures Points(lo, mid) + Points(s, e) == Points(lo, Max(mid, e))
  {
  }

  /** interval_union_ns: the number of points covered, for any intervals in any order. */
  method IntervalUnion(intervals: seq<Interval>) returns (total: nat)
    ensures total == |Cover(intervals)|
  {
    var kept := DropEmpty(intervals);
    if kept == [] {
      return 0;
    }
    var v := Sort(kept);
    CoverOfPermutation(v, kept);
    SortedNonEmpty(v, kept);
    total := SweepUnion(v);
  }

  lemma SortedNonEmpty(v: seq<Interval>, u: seq<Interval>)
    requires multiset(v) == multiset(u) && NonEmpty(u)
    ensures NonEmpty(v) && |v| == |u|
  {
    forall i | 0 <= i < |v|
      ensures v[i].start < v[i].end
    {
      assert v[i] in multiset(u);
    }
    assert |multiset(v)| == |multiset(u)|;
  }

  /** What the sweep has seen: the finished stretches, all below the active one, and the active
      stretch. */
  ghost predicate SweepInv(seen: set<int>, finished: set<int>, total: nat, lo: int, hi: int) {
    && seen == finished + Points(lo, hi)
    && (forall p :: p in finished ==> p < lo)
    && |finished| == total
    && lo <= hi
  }

  lemma SweepTotal(seen: set<int>, finished: set<int>, total: nat, lo: int, hi: int)
    requires SweepInv(seen, finished, total, lo, hi)
    ensures |seen| == total + (hi - lo)
  {
    PointsSize(lo, hi);
    assert finished !! Points(lo, hi);
  }

  /** A gap finishes the active stretch. */
  lemma SweepGap(seen: set<int>, finished: set<int>, total: nat, lo: int, hi: int, s: int, e: int)
    requires SweepInv(seen, finished, total, lo, hi) && s > hi && s < e
    ensures SweepInv(seen + Points(s, e), seen, total + (hi - lo), s, e)
  {
    SweepTotal(seen, finished, total, lo, hi);
  }

  /** An overlapping or touching interval extends it. */
  lemma SweepJoin(seen: set<int>, finished: set<int>, total: nat, lo: int, hi: int, s: int, e: int)
    requires SweepInv(seen, finished, total, lo, hi) && lo <= s <= hi
    ensures SweepInv(seen + Points(s, e), finished, total, lo, Max(hi, e))
  {
  }

  /** What the sweep counts after `i` intervals; it starts out with the first one. */
  function Seen(v: seq<Interval>, i: nat): set<int>
    requires v != [] && i <= |v|
  {
    Points(v[0].start, v[0].end) + Cover(v[..i])
  }

  lemma SeenNext(v: seq<Interval>, i: nat)
    requires i < |v|
    ensures Seen(v, i + 1) == Seen(v, i) + Points(v[i].start, v[i].end)
  {
    CoverLast(v, i);
  }

  lemma SeenAll(v: seq<Interval>)
    requires v != []
    ensures Seen(v, |v|) == Cover(v)
  {
    assert v[..|v|] == v;
  }

  lemma StartsGrow(v: seq<Interval>, i: nat)
    requires Sorted(v) && i < |v|
    ensures forall j :: i < j < |v| ==> v[i].start <= v[j].start
  {
    assert forall j :: i < j < |v| ==> Before(v[i], v[j]);
  }

  method SweepUnion(v: seq<Interval>) returns (result: nat)
    requires v != [] && Sorted(v) && NonEmpty(v)
    ensures result == |Cover(v)|
  {
    var total: nat := 0;
    var activeStart, activeEnd := v[0].start, v[0].end;
    ghost var finished: set<int> := {};
    assert Seen(v, 0) == {} + Points(activeStart, activeEnd);
    for i := 0 to |v|
      invariant SweepInv(Seen(v, i), finished, total, activeStart, activeEnd)
      invariant forall j :: i <= j < |v| ==> activeStart <= v[j].start
    {
      SeenNext(v, i);
      if v[i].start > activeEnd {
        SweepGap(Seen(v, i), finished, total, activeStart, activeEnd, v[i].start, v[i].end);
        finished := Seen(v, i);
        total := total + (activeEnd - activeStart);
        activeStart, activeEnd := v[i].start, v[i].end;
      } else {
        SweepJoin(Seen(v, i), finished, total, activeStart, activeEnd, v[i].start, v[i].end);
        activeEnd := Max(activeEnd, v[i].end);
      }
      StartsGrow(v, i);
    }
    SeenAll(v);
    SweepTotal(Cover(v), finished, total, activeStart, activeEnd);
    result := total + (activeEnd - activeStart);
  }

  // ---------------------------------------------------------------- intersection

  /** Merged intervals are non-empty and separated by gaps, in increasing order. */
  predicate Merged(v: seq<Interval>) {
    NonEmpty(v) && forall i, j :: 0 <= i < j < |v| ==> v[i].end < v[j].start
  }

  method Normalize(intervals: seq<Interval>) returns (merged: seq<Interval>)
    ensures Merged(merged) && Cover(merged) == Cover(intervals)
  {
    var v := Sort(intervals);
    CoverOfPermutation(v, intervals);
    merged := [];
    for i := 0 to |v|
      invariant Merged(merged) && Cover(merged) == Cover(v[..i])
      invariant merged != [] ==> exists k :: 0 <= k < i && merged[|merged| - 1].start == v[k].start
    {
      CoverLast(v, i);
      if v[i].end > v[i].start {
        if merged != [] {
          var k :| 0 <= k < i && merged[|merged| - 1].start == v[k].start;
          assert Before(v[k], v[i]);
        }
        merged := MergeOne(merged, v[i]);
      }
    }
    assert v[..|v|] == v;
  }

  /** Starts a new stretch after a gap, or extends the last one. */
  method MergeOne(merged: seq<Interval>, x: Interval) returns (r: seq<Interval>)
    requires Merged(merged) && x.start < x.end
    requires merged != [] ==> merged[|merged| - 1].start <= x.start
    ensures Merged(r) && Cover(r) == Cover(merged) + Points(x.start, x.end)
    ensures r != [] && (r[|r| - 1].start == x.start || (merged != [] && r[|r| - 1].start == merged[|merged| - 1].start))
  {
    if merged == [] || x.start > merged[|merged| - 1].end {
      AppendCover(merged, x);
      r := merged + [x];
    } else {
      ExtendCover(merged, x);
      r := ExtendLast(merged, x.end);
    }
  }

  function ExtendLast(v: seq<Interval>, end: int): seq<Interval>
    requires v != []
  {
    v[|v| - 1 := Interval(v[|v| - 1].start, Max(v[|v| - 1].end, end))]
  }

  lemma AppendCover(v: seq<Interval>, x: Interval)
    ensures Cover(v + [x]) == Cover(v) + Points(x.start, x.end)
  {
    CoverLast(v + [x], |v|);
    assert (v + [x])[..|v|] == v && (v + [x])[..|v| + 1] == v + [x];
  }

  lemma ExtendCover(v: seq<Interval>, x: Interval)
    requires v != [] && v[|v| - 1].start <= x.start <= v[|v| - 1].end
    ensures Cover(ExtendLast(v, x.end)) == Cover(v) + Points(x.start, x.end)
  {
    var n := |v| - 1;
    var last := v[n];
    var longer := Interval(last.start, Max(last.end, x.end));
    assert v == v[..n] + [last];
    assert ExtendLast(v, x.end) == v[..n] + [longer];
    AppendJoined(v[..n], last, x, longer);
  }

  lemma AppendJoined(v: seq<Interval>, last: Interval, x: Interval, longer: Interval)
    requires last.start <= x.start <= last.end && longer == Interval(last.start, Max(last.end, x.end))
    ensures Cover(v + [longer]) == Cover(v + [last]) + Points(x.start, x.end)
  {
    AppendCover(v, last);
    AppendCover(v, longer);
    JoinPoints(last.start, last.end, x.start, x.end);
  }

  lemma TailAbove(v: seq<Interval>, n: nat, bound: int)
    requires Merged(v) && n <= |v|
    requires forall j :: n <= j < |v| ==> bound < v[j].start
    ensures forall p :: p in Cover(v[n..]) ==> p > bound
  {
    forall p | p in Cover(v[n..])
      ensures p > bound
    {
      CoverMember(v[n..], p);
      var i :| 0 <= i < |v[n..]| && v[n..][i].start <= p < v[n..][i].end;
      assert v[n + i].start <= p;
    }
  }

  /** The points that the first interval of one family shares with the other family are those it
      shares with the other's first interval, when it ends no later. */
  lemma StepIntersection(u: seq<Interval>, m: nat, v: seq<Interval>, n: nat)
    requires Merged(u) && Merged(v) && m < |u| && n < |v| && u[m].end <= v[n].end
    ensures Cover(u[m..]) * Cover(v[n..])
         == Points(Max(u[m].start, v[n].start), Min(u[m].end, v[n].end)) + Cover(u[m + 1..]) * Cover(v[n..])
    ensures Points(Max(u[m].start, v[n].start), Min(u[m].end, v[n].end)) !! Cover(u[m + 1..])
  {
    assert u[m..][0] == u[m] && u[m..][1..] == u[m + 1..];
    assert v[n..][0] == v[n] && v[n..][1..] == v[n + 1..];
    TailAbove(u, m + 1, u[m].end);
    TailAbove(v, n + 1, v[n].end);
    var common := Points(Max(u[m].start, v[n].start), Min(u[m].end, v[n].end));
    assert common == Points(u[m].start, u[m].end) * Points(v[n].start, v[n].end);
    assert Points(u[m].start, u[m].end) * Cover(v[n + 1..]) == {};
  }

  /** How many points the remaining parts of two families share. */
  ghost function Common(u: seq<Interval>, m: nat, v: seq<Interval>, n: nat): nat
    requires m <= |u| && n <= |v|
  {
    |Cover(u[m..]) * Cover(v[n..])|
  }

  function Shared(a: Interval, b: Interval): nat {
    var begin, end := Max(a.start, b.start), Min(a.end, b.end);
    if end > begin then end - begin else 0
  }

  lemma StepLeft(u: seq<Interval>, m: nat, v: seq<Interval>, n: nat)
    requires Merged(u) && Merged(v) && m < |u| && n < |v| && u[m].end <= v[n].end
    ensures Common(u, m, v, n) == Shared(u[m], v[n]) + Common(u, m + 1, v, n)
  {
    StepIntersection(u, m, v, n);
    PointsSize(Max(u[m].start, v[n].start), Min(u[m].end, v[n].end));
    Disjoint(Points(Max(u[m].start, v[n].start), Min(u[m].end, v[n].end)), Cover(u[m + 1..]) * Cover(v[n..]));
  }

  lemma CommonCommutes(u: seq<Interval>, m: nat, v: seq<Interval>, n: nat)
    requires m <= |u| && n <= |v|
    ensures Common(u, m, v, n) == Common(v, n, u, m)
  {
    assert Cover(u[m..]) * Cover(v[n..]) == Cover(v[n..]) * Cover(u[m..]);
  }

  lemma StepRight(u: seq<Interval>, m: nat, v: seq<Interval>, n: nat)
    requires Merged(u) && Merged(v) && m < |u| && n < |v| && v[n].end <= u[m].end
    ensures Common(u, m, v, n) == Shared(u[m], v[n]) + Common(u, m, v, n + 1)
  {
    StepLeft(v, n, u, m);
    CommonCommutes(u, m, v, n);
    CommonCommutes(u, m, v, n + 1);
  }

  lemma NothingCommon(u: seq<Interval>, m: nat, v: seq<Interval>, n: nat)
    requires m <= |u| && n <= |v| && (m == |u| || n == |v|)
    ensures Common(u, m, v, n) == 0
  {
  }

  /** interval_intersection_ns: the number of points covered by both families. */
  method IntervalIntersection(lhs: seq<Interval>, rhs: seq<Interval>) returns (total: nat)
    ensures total == |Cover(lhs) * Cover(rhs)|
  {
    var u := Normalize(lhs);
    var v := Normalize(rhs);
    assert u[0..] == u && v[0..] == v;
    total := SweepIntersection(u, v);
  }

  method SweepIntersection(u: seq<Interval>, v: seq<Interval>) returns (total: nat)
    requires Merged(u) && Merged(v)
    ensures total == Common(u, 0, v, 0)
  {
    var left, right := 0, 0;
    total := 0;
    while left < |u| && right < |v|
      invariant 0 <= left <= |u| && 0 <= right <= |v|
      invariant total + Common(u, left, v, right) == Common(u, 0, v, 0)
      decreases |u| - left + |v| - right
    {
      var begin := Max(u[left].start, v[right].start);
      var end := Min(u[left].end, v[right].end);
      if end > begin {
        total := total + (end - begin);
      }
      if u[left].end < v[right].end {
        StepLeft(u, left, v, right);
        left := left + 1;
      } else {
        StepRight(u, left, v, right);
        right := right + 1;
      }
    }
    NothingCommon(u, left, v, right);
  }

  lemma Disjoint(a: set<int>, b: set<int>)
    requires a !! b
    ensures |a + b| == |a| + |b|
  {
  }

  // ---------------------------------------------------------------- the report

  /** The report's `npu + pim - overlap` never underflows and is the joint coverage. */
  lemma JointUnion(a: set<int>, b: set<int>)
    ensures |a * b| <= |a| + |b|
    ensures |a| + |b| - |a * b| == |a + b|
  {
  }

  method ReportedUnion(npu: seq<Interval>, pim: seq<Interval>) returns (union: nat)
    ensures union == |Cover(npu + pim)|
  {
    var npuActive := IntervalUnion(npu);
    var pimActive := IntervalUnion(pim);
    var overlap := IntervalIntersection(npu, pim);
    JointUnion(Cover(npu), Cover(pim));
    CoverConcat(npu, pim);
    union := npuActive + pimActive - overlap;
  }

  // ---------------------------------------------------------------- channel attribution

  datatype ChannelStats = ChannelStats(requests: nat, bytes: nat, intervals: seq<Interval>) {
    function Plus(more: nat, interval: Interval): ChannelStats {
      ChannelStats(requests + 1, bytes + more, intervals + [interval])
    }
  }

  function TotalBytes(v: seq<ChannelStats>): nat {
    if v == [] then 0 else TotalBytes(v[..|v| - 1]) + v[|v| - 1].bytes
  }

  lemma {:induction false} TotalUpdate(v: seq<ChannelStats>, k: nat, x: ChannelStats)
    requires k < |v|
    ensures TotalBytes(v[k := x]) == TotalBytes(v) - v[k].bytes + x.bytes
    decreases |v|
  {
    var n := |v| - 1;
    if k < n {
      assert v[k := x][..n] == v[..n][k := x];
      TotalUpdate(v[..n], k, x);
    } else {
      assert v[k := x][..n] == v[..n];
    }
  }

  /** Every channel serves the request, with `base` bytes and one more for the first
      `remainder` channels. */
  predicate IsSplit(r: seq<ChannelStats>, v: seq<ChannelStats>, base: nat, remainder: nat, interval: Interval) {
    |r| == |v| && forall k :: 0 <= k < |r| ==> r[k] == v[k].Plus(base + if k < remainder then 1 else 0, interval)
  }

  lemma {:induction false} SplitTotal(r: seq<ChannelStats>, v: seq<ChannelStats>, base: nat, remainder: nat, interval: Interval)
    requires IsSplit(r, v, base, remainder, interval)
    ensures TotalBytes(r) == TotalBytes(v) + |r| * base + Min(|r|, remainder)
    decreases |r|
  {
    if r != [] {
      var n := |r| - 1;
      SplitTotal(r[..n], v[..n], base, remainder, interval);
      Distribute(n, 1, base);
    }
  }

  method SplitOverChannels(v: seq<ChannelStats>, base: nat, remainder: nat, interval: Interval) returns (r: seq<ChannelStats>)
    ensures IsSplit(r, v, base, remainder, interval)
  {
    r := v;
    for k := 0 to |v|
      invariant |r| == |v|
      invariant forall j :: 0 <= j < k ==> r[j] == v[j].Plus(base + if j < remainder then 1 else 0, interval)
      invariant forall j :: k <= j < |v| ==> r[j] == v[j]
    {
      r := r[k := r[k].Plus(base + if k < remainder then 1 else 0, interval)];
    }
  }

  function NoService(n: nat): (v: seq<ChannelStats>)
    ensures |v| == n
  {
    seq(n, _ => ChannelStats(0, 0, []))
  }

  lemma {:induction false} NoServiceTotal(n: nat)
    ensures TotalBytes(NoService(n)) == 0
  {
    if n > 0 {
      assert NoService(n)[..n - 1] == NoService(n - 1);
      NoServiceTotal(n - 1);
    }
  }

  /** The per-channel statistics, created on first use. */
  function Prepared(perChannel: seq<ChannelStats>, channels: nat): (v: seq<ChannelStats>)
    ensures v != []
  {
    if perChannel == [] then NoService(Max(1, channels)) else perChannel
  }

  /** add_channel_service: a request's bytes go to its own channel, or are split over all channels;
      none is lost or counted twice. */
  method AddChannelService(perChannel: seq<ChannelStats>, channels: nat, channel: int, bytes: nat, interval: Interval)
    returns (r: seq<ChannelStats>)
    ensures TotalBytes(r) == TotalBytes(perChannel) + bytes
    ensures var v := Prepared(perChannel, channels);
            if 0 <= channel < |v| then r == v[channel := v[channel].Plus(bytes, interval)]
            else IsSplit(r, v, bytes / |v|, bytes % |v|, interval)
  {
    var v := Prepared(perChannel, channels);
    NoServiceTotal(Max(1, channels));
    if 0 <= channel < |v| {
      TotalUpdate(v, channel, v[channel].Plus(bytes, interval));
      return v[channel := v[channel].Plus(bytes, interval)];
    }
    r := ShareOut(v, bytes, interval);
  }

  lemma SharesAddUp(n: nat, bytes: nat)
    requires n > 0
    ensures n * (bytes / n) + Min(n, bytes % n) == bytes
  {
  }

  method ShareOut(v: seq<ChannelStats>, bytes: nat, interval: Interval) returns (r: seq<ChannelStats>)
    requires v != []
    ensures IsSplit(r, v, bytes / |v|, bytes % |v|, interval)
    ensures TotalBytes(r) == TotalBytes(v) + bytes
  {
    r := SplitOverChannels(v, bytes / |v|, bytes % |v|, interval);
    SplitTotal(r, v, bytes / |v|, bytes % |v|, interval);
    SharesAddUp(|v|, bytes);
  }
}
