/** The k-line cache of the chart data feed (`DataFeed` in
    TVChartContainer/DataFeed.ts). Per interval it keeps the bars in
    insertion order and an index from bar time to bar. The index holds the
    very objects the array holds, so it is modelled as a map from time to
    position in the array. The intervals are kept in the order the cache
    map first received them, which is the order its entries are visited.
    Times are integers (milliseconds); the OHLCV fields are carried along
    untouched. */
module KlineCache {
  import opened Js
  import StrId
  import DataFeedWs

  datatype Bar = Bar(time: int, open: int, high: int, low: int, close: int, volume: int)

  /** `resolutionMap`: unlike the WebSocket feed's chain it knows "30". */
  const ResolutionMap: map<string, string> :=
    map["1" := "1m", "5" := "5m", "15" := "15m", "30" := "30m", "60" := "1h", "240" := "4h",
        "1D" := "1d", "1W" := "1w", "1M" := "1M"]

  /** `resolutionMap[resolution] || '1m'`, the interval `getBars` and `subscribeBars` use. */
  function IntervalOf(resolution: string): (iv: string)
    ensures iv in ResolutionMap.Values
  {
    if resolution in ResolutionMap then ResolutionMap[resolution]
    else assert ResolutionMap["1"] == "1m"; "1m"
  }

  /** This feed and the WebSocket feed pick the same interval for every
      resolution except "30", which only this one maps (to "30m"). */
  lemma IntervalOfAgreesWithChain(resolution: string)
    ensures IntervalOf(resolution) == DataFeedWs.Interval(resolution) <==> resolution != "30"
  {
  }

  // ------------------------------------------------------------ bar arrays

  /** The first position holding a bar of time `t`, or the length when none does. */
  function Position(arr: seq<Bar>, t: int): (k: nat)
    ensures k <= |arr|
    ensures k < |arr| ==> arr[k].time == t
    ensures forall i :: 0 <= i < k ==> arr[i].time != t
    decreases |arr|
  {
    if |arr| == 0 then 0
    else if arr[0].time == t then 0
    else 1 + Position(arr[1..], t)
  }

  /** One bar of `_cacheBars`: a bar of an unseen time is appended; a bar of
      a known time overwrites the bar there, in place. */
  function Absorb(arr: seq<Bar>, b: Bar): seq<Bar>
  {
    var k := Position(arr, b.time);
    if k == |arr| then arr + [b] else arr[k := b]
  }

  /** `_cacheBars` over a batch, bar by bar in order. */
  function AbsorbAll(arr: seq<Bar>, bs: seq<Bar>): seq<Bar>
    decreases |bs|
  {
    if |bs| == 0 then arr else Absorb(AbsorbAll(arr, bs[..|bs| - 1]), bs[|bs| - 1])
  }

  /** A batch of one bar is that bar absorbed. */
  lemma AbsorbOne(arr: seq<Bar>, b: Bar)
    ensures AbsorbAll(arr, [b]) == Absorb(arr, b)
  {
    assert [b][..0] == [];
  }

  /** The bar of time `t`, if any. */
  function Find(arr: seq<Bar>, t: int): Option<Bar>
  {
    var k := Position(arr, t);
    if k < |arr| then Some(arr[k]) else None
  }

  function Times(arr: seq<Bar>): (ts: seq<int>)
    ensures |ts| == |arr|
    ensures forall i :: 0 <= i < |arr| ==> ts[i] == arr[i].time
  {
    seq(|arr|, i requires 0 <= i < |arr| => arr[i].time)
  }

  predicate DistinctTimes(arr: seq<Bar>)
  {
    forall i, j :: 0 <= i < j < |arr| ==> arr[i].time != arr[j].time
  }

  /** The index of an interval: keyed by exactly the array's times, each
      pointing at the position of its bar. */
  predicate Indexed(arr: seq<Bar>, idx: map<int, nat>)
  {
    (forall t :: t in idx ==> idx[t] < |arr| && arr[idx[t]].time == t) &&
    (forall i :: 0 <= i < |arr| ==> arr[i].time in idx && idx[arr[i].time] == i)
  }

  /** An indexed array holds no two bars of the same time. */
  lemma IndexedDistinct(arr: seq<Bar>, idx: map<int, nat>)
    requires Indexed(arr, idx)
    ensures DistinctTimes(arr)
  {
    forall i, j | 0 <= i < j < |arr| ensures arr[i].time != arr[j].time {
      assert idx[arr[i].time] == i && idx[arr[j].time] == j;
    }
  }

  /** Against an index, the position of a time is what the index says. */
  lemma PositionIndexed(arr: seq<Bar>, idx: map<int, nat>, t: int)
    requires Indexed(arr, idx)
    ensures Position(arr, t) == if t in idx then idx[t] else |arr|
  {
    var k := Position(arr, t);
    if t in idx {
      assert arr[idx[t]].time == t;
    }
    if k < |arr| {
      assert arr[k].time in idx && idx[arr[k].time] == k;
    }
  }

  /** One bar of `_cacheBars` keeps the array and its index in step. */
  lemma AbsorbIndexed(arr: seq<Bar>, idx: map<int, nat>, b: Bar)
    requires Indexed(arr, idx)
    ensures b.time !in idx ==> Absorb(arr, b) == arr + [b] && Indexed(arr + [b], idx[b.time := |arr|])
    ensures b.time in idx ==> Absorb(arr, b) == arr[idx[b.time] := b] && Indexed(arr[idx[b.time] := b], idx)
  {
    PositionIndexed(arr, idx, b.time);
    if b.time !in idx {
      var arr', idx' := arr + [b], idx[b.time := |arr|];
      forall i | 0 <= i < |arr'| ensures arr'[i].time in idx' && idx'[arr'[i].time] == i {
        if i < |arr| {
          assert arr'[i] == arr[i] && arr[i].time in idx;
        }
      }
    }
  }

  /** The last bar of time `t` in a batch, if any. */
  function LastFind(bs: seq<Bar>, t: int): (r: Option<Bar>)
    ensures r.Some? ==> r.value in bs && r.value.time == t
    ensures r.None? ==> forall i :: 0 <= i < |bs| ==> bs[i].time != t
    decreases |bs|
  {
    if |bs| == 0 then None
    else if bs[|bs| - 1].time == t then Some(bs[|bs| - 1])
    else
      var r := LastFind(bs[..|bs| - 1], t);
      assert forall i :: 0 <= i < |bs| - 1 ==> bs[i] == bs[..|bs| - 1][i];
      r
  }

  /** What a batch does to one time: the last bar of that time in the batch
      wins; a time the batch does not mention keeps its bar. */
  lemma {:induction false} AbsorbAllFind(arr: seq<Bar>, bs: seq<Bar>, t: int)
    ensures Find(AbsorbAll(arr, bs), t) == if LastFind(bs, t).Some? then LastFind(bs, t) else Find(arr, t)
    decreases |bs|
  {
    if |bs| > 0 {
      AbsorbAllFind(arr, bs[..|bs| - 1], t);
      AbsorbFind(AbsorbAll(arr, bs[..|bs| - 1]), bs[|bs| - 1], t);
    }
  }

  /** One bar changes the bar found at its own time and nothing else. */
  lemma AbsorbFind(arr: seq<Bar>, b: Bar, t: int)
    ensures Find(Absorb(arr, b), t) == if t == b.time then Some(b) else Find(arr, t)
  {
    var k := Position(arr, b.time);
    var after := Absorb(arr, b);
    var p := Position(after, t);
    if t == b.time {
      if k == |arr| {
        assert after[|arr|].time == t;
      } else {
        assert after[k].time == t;
      }
    } else {
      var q := Position(arr, t);
      forall i | 0 <= i < |after| && i != k && i < |arr| ensures after[i] == arr[i] {
      }
      if q < |arr| {
        assert after[q].time == t;
        assert p <= q;
        assert arr[p].time == t;
      } else {
        forall i | 0 <= i < |after| ensures after[i].time != t {
          if i < |arr| && i != k {
            assert after[i] == arr[i];
          }
        }
      }
    }
  }

  /** A batch never moves a bar: the times already cached stay first, in
      their order, and new times follow in batch order. */
  lemma {:induction false} AbsorbAllKeepsOrder(arr: seq<Bar>, bs: seq<Bar>)
    ensures |AbsorbAll(arr, bs)| >= |arr|
    ensures Times(AbsorbAll(arr, bs))[..|arr|] == Times(arr)
    decreases |bs|
  {
    if |bs| > 0 {
      var before := AbsorbAll(arr, bs[..|bs| - 1]);
      AbsorbAllKeepsOrder(arr, bs[..|bs| - 1]);
      var b := bs[|bs| - 1];
      var after := Absorb(before, b);
      assert Times(after)[..|before|] == Times(before);
      assert Times(after)[..|arr|] == Times(before)[..|arr|];
    }
  }

  /** `arr[i]` for any number `i`: undefined outside the array's positions. */
  function At(arr: seq<Bar>, i: int): (r: Option<Bar>)
    ensures r.Some? <==> 0 <= i < |arr|
  {
    if 0 <= i < |arr| then Some(arr[i]) else None
  }

  /** Times sorted strictly ascending. */
  predicate Ascending(arr: seq<Bar>)
  {
    forall i, j :: 0 <= i < j < |arr| ==> arr[i].time < arr[j].time
  }

  /** A bar later than the last one extends an ascending array at its end. */
  lemma AbsorbAscending(arr: seq<Bar>, b: Bar)
    requires Ascending(arr) && arr != [] && b.time > arr[|arr| - 1].time
    ensures Absorb(arr, b) == arr + [b] && Ascending(arr + [b])
  {
    forall i | 0 <= i < |arr| ensures arr[i].time < b.time {
      if i < |arr| - 1 {
        assert arr[i].time < arr[|arr| - 1].time;
      }
    }
  }

  // ------------------------------------------------------------ range scan

  /** `getBarsByTimeRange` as written: in array order, keep the bars within
      [from, to] and stop at the first bar later than `to`. */
  function RangeScan(arr: seq<Bar>, from: int, to: int): seq<Bar>
    decreases |arr|
  {
    if |arr| == 0 then []
    else if from <= arr[0].time <= to then [arr[0]] + RangeScan(arr[1..], from, to)
    else if arr[0].time > to then []
    else RangeScan(arr[1..], from, to)
  }

  /** The bars within [from, to], in array order. */
  function InRange(arr: seq<Bar>, from: int, to: int): (r: seq<Bar>)
    ensures forall b :: b in r <==> b in arr && from <= b.time <= to
    decreases |arr|
  {
    if |arr| == 0 then []
    else
      var rest := InRange(arr[1..], from, to);
      assert forall b :: b in arr <==> b == arr[0] || b in arr[1..];
      if from <= arr[0].time <= to then [arr[0]] + rest else rest
  }

  lemma {:induction false} InRangeAboveIsEmpty(arr: seq<Bar>, from: int, to: int)
    requires forall i :: 0 <= i < |arr| ==> arr[i].time > to
    ensures InRange(arr, from, to) == []
    decreases |arr|
  {
    if |arr| > 0 {
      InRangeAboveIsEmpty(arr[1..], from, to);
    }
  }

  /** On an ascending array the early exit loses nothing. */
  lemma {:induction false} RangeScanAscending(arr: seq<Bar>, from: int, to: int)
    requires Ascending(arr)
    ensures RangeScan(arr, from, to) == InRange(arr, from, to)
    decreases |arr|
  {
    if |arr| > 0 {
      RangeScanAscending(arr[1..], from, to);
      if arr[0].time > to {
        InRangeAboveIsEmpty(arr, from, to);
      }
    }
  }

  /** History pages arrive newest first, and an older page is appended after
      a newer one, so the array stops being ascending and the early exit
      misses cached bars inside the range. */
  lemma RangeScanMissesOlderPage()
    ensures var newer, older := Bar(200, 1, 1, 1, 1, 1), Bar(100, 1, 1, 1, 1, 1);
      var arr := AbsorbAll(AbsorbAll([], [newer]), [older]);
      arr == [newer, older] &&
      RangeScan(arr, 0, 150) == [] && InRange(arr, 0, 150) == [older]
  {
    var newer, older := Bar(200, 1, 1, 1, 1, 1), Bar(100, 1, 1, 1, 1, 1);
    assert [newer][..0] == [] && [older][..0] == [];
    assert AbsorbAll([], [newer]) == [newer];
    assert Position([newer], 100) == 1;
    assert AbsorbAll([newer], [older]) == [newer, older];
    assert [newer, older][1..] == [older] && [older][1..] == [];
    assert InRange([older], 0, 150) == [older];
  }

  /** Closeness of a cached time to the requested one, `Math.abs(cachedTime - time)`. */
  function Dist(a: int, b: int): nat
  {
    if a >= b then a - b else b - a
  }

  /** Position `k` holds the nearest bar to `t`, the first one among equally near bars. */
  predicate Nearest(arr: seq<Bar>, t: int, k: int)
  {
    0 <= k < |arr| &&
    (forall j :: 0 <= j < |arr| ==> Dist(arr[k].time, t) <= Dist(arr[j].time, t)) &&
    (forall j :: 0 <= j < k ==> Dist(arr[k].time, t) < Dist(arr[j].time, t))
  }

  /** The intervals the constructor and `clearCache` set up, in the order
      they are first inserted: one per mapped resolution, repeats skipped. */
  function LayoutOrder(resolutions: seq<string>): (o: seq<string>)
    ensures Distinct(o)
    decreases |resolutions|
  {
    if |resolutions| == 0 then []
    else
      var init, r := resolutions[..|resolutions| - 1], resolutions[|resolutions| - 1];
      var o := LayoutOrder(init);
      if r in ResolutionMap && ResolutionMap[r] !in o then
        assert (o + [ResolutionMap[r]])[..|o|] == o;
        o + [ResolutionMap[r]]
      else o
  }

  /** The layout holds exactly the intervals of the mapped resolutions. */
  lemma {:induction false} LayoutOrderCovers(resolutions: seq<string>)
    ensures forall iv :: iv in LayoutOrder(resolutions) <==>
      exists r :: r in resolutions && r in ResolutionMap && ResolutionMap[r] == iv
    decreases |resolutions|
  {
    if |resolutions| > 0 {
      var init, r := resolutions[..|resolutions| - 1], resolutions[|resolutions| - 1];
      LayoutOrderCovers(init);
      assert forall x :: x in resolutions <==> x in init || x == r;
    }
  }

  /** No interval is called "total", so the total never overwrites a count. */
  lemma TotalIsNoInterval()
    ensures "total" !in ResolutionMap.Values
  {
    forall k | k in ResolutionMap ensures ResolutionMap[k] != "total" {
    }
  }

  /** The sum of the array lengths, interval by interval. */
  function SumLengths(bars: map<string, seq<Bar>>, order: seq<string>): nat
    decreases |order|
  {
    if |order| == 0 then 0
    else
      var last := order[|order| - 1];
      SumLengths(bars, order[..|order| - 1]) + (if last in bars then |bars[last]| else 0)
  }

  /** The lengths of a layout of empty arrays add up to zero. */
  lemma {:induction false} SumLengthsEmpty(bars: map<string, seq<Bar>>, order: seq<string>)
    requires forall iv :: iv in bars ==> bars[iv] == []
    ensures SumLengths(bars, order) == 0
    decreases |order|
  {
    if |order| > 0 {
      SumLengthsEmpty(bars, order[..|order| - 1]);
    }
  }

  /** Growing one interval's array grows the total by the same amount. */
  lemma {:induction false} SumLengthsGrow(bars: map<string, seq<Bar>>, order: seq<string>, iv: string, arr: seq<Bar>)
    requires Distinct(order) && iv in order && iv in bars && |arr| >= |bars[iv]|
    ensures SumLengths(bars[iv := arr], order) == SumLengths(bars, order) + |arr| - |bars[iv]|
    decreases |order|
  {
    var init := order[..|order| - 1];
    if order[|order| - 1] == iv {
      SumLengthsSame(bars, bars[iv := arr], init);
    } else {
      SumLengthsGrow(bars, init, iv, arr);
    }
  }

  lemma {:induction false} SumLengthsSame(b1: map<string, seq<Bar>>, b2: map<string, seq<Bar>>, order: seq<string>)
    requires forall iv :: iv in order ==> (iv in b1 <==> iv in b2) && (iv in b1 ==> |b1[iv]| == |b2[iv]|)
    ensures SumLengths(b1, order) == SumLengths(b2, order)
    decreases |order|
  {
    if |order| > 0 {
      SumLengthsSame(b1, b2, order[..|order| - 1]);
    }
  }

  /** Arrays and indexes cover the same intervals and are in step; the
      interval order lists each of them once; every interval is one the
      resolution map can produce (so none is called "total"). */
  ghost predicate Layout(bars: map<string, seq<Bar>>, index: map<string, map<int, nat>>, order: seq<string>)
  {
    bars.Keys == index.Keys &&
    (forall iv :: iv in bars ==> Indexed(bars[iv], index[iv])) &&
    Distinct(order) && (forall iv :: iv in order <==> iv in bars) &&
    (forall iv :: iv in bars ==> iv in ResolutionMap.Values)
  }

  /** Storing an indexed array under an interval keeps the layout; a new
      interval joins the end of the order. */
  lemma LayoutPut(bars: map<string, seq<Bar>>, index: map<string, map<int, nat>>, order: seq<string>,
                  iv: string, arr: seq<Bar>, idx: map<int, nat>)
    requires Layout(bars, index, order) && iv in ResolutionMap.Values && Indexed(arr, idx)
    ensures iv in bars ==> Layout(bars[iv := arr], index[iv := idx], order)
    ensures iv !in bars ==> Layout(bars[iv := arr], index[iv := idx], order + [iv])
  {
    assert (order + [iv])[..|order|] == order;
  }

  /** The loop of `clearCache`: an empty array and index for the interval of
      every resolution the map knows, in order of first appearance. */
  method LayOut(resolutions: seq<string>) returns (bars: map<string, seq<Bar>>, index: map<string, map<int, nat>>, order: seq<string>)
    ensures Layout(bars, index, order)
    ensures order == LayoutOrder(resolutions)
    ensures (forall iv :: iv in bars ==> bars[iv] == []) && (forall iv :: iv in index ==> index[iv] == map[])
  {
    bars, index, order := map[], map[], [];
    var i := 0;
    while i < |resolutions|
      invariant 0 <= i <= |resolutions|
      invariant order == LayoutOrder(resolutions[..i])
      invariant forall iv :: iv in bars <==> iv in order
      invariant forall iv :: iv in bars ==> bars[iv] == []
      invariant index.Keys == bars.Keys && forall iv :: iv in index ==> index[iv] == map[]
    {
      var r := resolutions[i];
      assert resolutions[..i + 1] == resolutions[..i] + [r];
      assert resolutions[..i + 1][..i] == resolutions[..i];
      if r in ResolutionMap {
        var iv := ResolutionMap[r];
        if iv !in bars {
          order := order + [iv];
        }
        bars, index := bars[iv := []], index[iv := map[]];
      }
      i := i + 1;
    }
    assert resolutions[..i] == resolutions;
    LayoutOrderCovers(resolutions);
    forall iv | iv in order ensures iv in ResolutionMap.Values {
      var r :| r in resolutions && r in ResolutionMap && ResolutionMap[r] == iv;
    }
  }

  /** The loop of `getCacheStats`: each listed interval's array length, and
      their sum under "total". */
  method CountLengths(bars: map<string, seq<Bar>>, order: seq<string>) returns (stats: map<string, int>)
    requires forall iv :: iv in order ==> iv in bars && iv in ResolutionMap.Values
    ensures forall k :: k in stats <==> k == "total" || k in order
    ensures forall iv :: iv in order ==> stats[iv] == |bars[iv]|
    ensures stats["total"] == SumLengths(bars, order)
  {
    TotalIsNoInterval();
    stats := map["total" := 0];
    var i := 0;
    while i < |order|
      invariant 0 <= i <= |order|
      invariant forall k :: k in stats <==> k == "total" || k in order[..i]
      invariant forall j :: 0 <= j < i ==> stats[order[j]] == |bars[order[j]]|
      invariant stats["total"] == SumLengths(bars, order[..i])
    {
      var iv := order[i];
      assert order[..i + 1][..i] == order[..i];
      stats := stats[iv := |bars[iv]|]["total" := stats["total"] + |bars[iv]|];
      i := i + 1;
    }
    assert order[..i] == order;
  }

  /** The loop of `_cacheBars` over one interval's array and index. */
  method AbsorbBatch(arr0: seq<Bar>, idx0: map<int, nat>, newBars: seq<Bar>) returns (arr: seq<Bar>, idx: map<int, nat>)
    requires Indexed(arr0, idx0)
    ensures arr == AbsorbAll(arr0, newBars) && Indexed(arr, idx)
  {
    arr, idx := arr0, idx0;
    var i := 0;
    while i < |newBars|
      invariant 0 <= i <= |newBars|
      invariant Indexed(arr, idx)
      invariant arr == AbsorbAll(arr0, newBars[..i])
    {
      var b := newBars[i];
      assert newBars[..i + 1][..i] == newBars[..i];
      AbsorbIndexed(arr, idx, b);
      if b.time !in idx {
        arr, idx := arr + [b], idx[b.time := |arr|];
      } else {
        arr := arr[idx[b.time] := b];
      }
      i := i + 1;
    }
    assert newBars[..i] == newBars;
  }

  /** The arrival test of a real-time bar: the interval has bars and the
      new bar is later than the last of them. */
  predicate LaterThanLast(arr: seq<Bar>, b: Bar)
  {
    arr != [] && b.time > arr[|arr| - 1].time
  }

  /** The `_cacheBars` call of a real-time bar later than the last cached
      one: on ascending times it is appended and they stay ascending. */
  method AbsorbLater(arr0: seq<Bar>, idx0: map<int, nat>, bar: Bar) returns (arr: seq<Bar>, idx: map<int, nat>)
    requires Indexed(arr0, idx0) && LaterThanLast(arr0, bar)
    ensures arr == Absorb(arr0, bar) && Indexed(arr, idx)
    ensures Ascending(arr0) ==> arr == arr0 + [bar] && Ascending(arr)
  {
    arr, idx := AbsorbBatch(arr0, idx0, [bar]);
    AbsorbOne(arr0, bar);
    if Ascending(arr0) {
      AbsorbAscending(arr0, bar);
    }
  }

  class DataFeed {
    const strId: string
    const symbol: string
    const kind: Option<string>
    const resolutions: seq<string>
    const pricescale: int
    var bars: map<string, seq<Bar>>
    var index: map<string, map<int, nat>>
    var order: seq<string>
    var currentInterval: string

    /** Arrays and indexes cover the same intervals and are in step; the
        interval order lists each of them once; every interval is one the
        resolution map can produce (so none is called "total"). */
    ghost predicate Valid()
      reads this
    {
      Layout(bars, index, order)
    }

    /** The state of a freshly laid out cache. */
    ghost predicate Empty()
      reads this
    {
      order == LayoutOrder(resolutions) &&
      (forall iv :: iv in bars <==> iv in order) && (forall iv :: iv in bars ==> bars[iv] == []) &&
      index.Keys == bars.Keys && (forall iv :: iv in index ==> index[iv] == map[]) &&
      currentInterval == ""
    }

    constructor (strId: string, resolutions: seq<string>, pricescale: int)
      requires DataFeedWs.Supported(resolutions)
      ensures Valid() && Empty()
      ensures this.strId == strId && this.resolutions == resolutions && this.pricescale == pricescale
      ensures symbol == StrId.Symbol(strId) && kind == StrId.Kind(strId)
    {
      this.strId := strId;
      symbol, kind := StrId.Symbol(strId), StrId.Kind(strId);
      this.resolutions := resolutions;
      this.pricescale := pricescale;
      bars, index, order, currentInterval := map[], map[], [], "";
      new;
      ClearCache();
    }

    /** `clearCache`: empties the cache and lays it out again from the
        configured resolutions, and forgets the current interval. */
    method ClearCache()
      modifies this`bars, this`index, this`order, this`currentInterval
      ensures Valid() && Empty()
    {
      bars, index, order := LayOut(resolutions);
      currentInterval := "";
    }

    /** `getBars`: records the interval the request is for and returns it
        with the request window; the history arrives later, through `HistoryLoaded`. */
    method GetBars(resolution: string, from: int, to: int, firstDataRequest: bool, now: int)
      returns (interval: string, window: (int, int))
      modifies this`currentInterval
      ensures interval == currentInterval
      ensures resolution in ResolutionMap ==> interval == ResolutionMap[resolution]
      ensures resolution !in ResolutionMap ==> interval == "1m"
      ensures window == DataFeedWs.Window(from, to, firstDataRequest, now)
    {
      interval := IntervalOf(resolution);
      currentInterval := interval;
      window := DataFeedWs.Window(from, to, firstDataRequest, now);
    }

    /** The continuation of `getBars`: reports whether there was no data and caches the bars. */
    method HistoryLoaded(interval: string, rows: seq<Bar>) returns (noData: bool)
      requires Valid() && interval in ResolutionMap.Values
      modifies this`bars, this`index, this`order
      ensures Valid()
      ensures noData <==> rows == []
      ensures bars == old(bars)[interval := AbsorbAll(if interval in old(bars) then old(bars)[interval] else [], rows)]
    {
      noData := DataFeedWs.NoData(rows);
      CacheBars(interval, rows);
    }

    /** `_cacheBars`: creates the interval's array and index when missing,
        then absorbs the bars one by one. */
    method CacheBars(interval: string, newBars: seq<Bar>)
      requires Valid() && interval in ResolutionMap.Values
      modifies this`bars, this`index, this`order
      ensures Valid()
      ensures bars == old(bars)[interval := AbsorbAll(if interval in old(bars) then old(bars)[interval] else [], newBars)]
      ensures order == if interval in old(bars) then old(order) else old(order) + [interval]
      ensures forall iv :: iv in old(index) && iv != interval ==> index[iv] == old(index)[iv]
    {
      var arr0: seq<Bar>, idx0: map<int, nat> := [], map[];
      if interval in bars {
        arr0, idx0 := bars[interval], index[interval];
      }
      var arr, idx := AbsorbBatch(arr0, idx0, newBars);
      LayoutPut(bars, index, order, interval, arr, idx);
      if interval !in bars {
        order := order + [interval];
      }
      bars, index := bars[interval := arr], index[interval := idx];
    }

    /** A real-time bar of `subscribeBars` as written: `barsArray[-1]` reads
        a property named "-1", which an array never has, so every bar is
        skipped: nothing is cached and nothing reaches the chart. */
    method RealtimeBarAsWritten(interval: string, bar: Bar) returns (forwarded: bool)
      ensures !forwarded
    {
      forwarded := false;
      if interval in bars {
        var lastBar := At(bars[interval], -1);
        forwarded := match lastBar case None => false case Some(last) => bar.time > last.time;
      }
    }

    /** A real-time bar read against the last cached bar: a bar later than
        it is cached and forwarded; an older or equal one, or one arriving
        before any history, is skipped. */
    method RealtimeBar(interval: string, bar: Bar) returns (forwarded: bool)
      requires Valid()
      modifies this`bars, this`index
      ensures Valid()
      ensures forwarded <==> interval in old(bars) && LaterThanLast(old(bars)[interval], bar)
      ensures forwarded ==> bars == old(bars)[interval := Absorb(old(bars)[interval], bar)]
      ensures forwarded && Ascending(old(bars)[interval]) ==>
        bars[interval] == old(bars)[interval] + [bar] && Ascending(bars[interval])
      ensures !forwarded ==> bars == old(bars)
    {
      forwarded := false;
      if interval in bars && LaterThanLast(bars[interval], bar) {
        var arr, idx := AbsorbLater(bars[interval], index[interval], bar);
        LayoutPut(bars, index, order, interval, arr, idx);
        bars, index := bars[interval := arr], index[interval := idx];
        forwarded := true;
      }
    }

    /** `getBarByTime`: None without a current interval, or when its index
        is empty; otherwise the nearest cached bar, the first one in index
        order (the array's order) among equally near ones, an exact match
        being the nearest. */
    method GetBarByTime(time: int) returns (r: Option<Bar>)
      requires Valid()
      ensures r.None? <==> currentInterval == "" || currentInterval !in bars || bars[currentInterval] == []
      ensures r.Some? ==> exists k :: Nearest(bars[currentInterval], time, k) && r.value == bars[currentInterval][k]
    {
      if currentInterval == "" || currentInterval !in index {
        return None;
      }
      var arr, idx := bars[currentInterval], index[currentInterval];
      if time in idx {
        var k := idx[time];
        IndexedDistinct(arr, idx);
        assert Nearest(arr, time, k);
        return Some(arr[k]);
      }
      var best: Option<nat> := None;
      var minDiff := 0;
      var i := 0;
      while i < |arr|
        invariant 0 <= i <= |arr|
        invariant best.None? <==> i == 0
        invariant best.Some? ==> best.value < i && minDiff == Dist(arr[best.value].time, time)
        invariant best.Some? ==> forall j :: 0 <= j < i ==> minDiff <= Dist(arr[j].time, time)
        invariant best.Some? ==> forall j :: 0 <= j < best.value ==> minDiff < Dist(arr[j].time, time)
      {
        var diff := Dist(arr[i].time, time);
        if best.None? || diff < minDiff {
          best, minDiff := Some(i), diff;
        }
        i := i + 1;
      }
      if best.None? {
        assert arr == [];
        return None;
      }
      assert Nearest(arr, time, best.value);
      r := Some(arr[best.value]);
    }

    /** `getBarsByTimeRange` as written. */
    method GetBarsByTimeRange(from: int, to: int) returns (result: seq<Bar>)
      requires Valid()
      ensures result == if currentInterval == "" || currentInterval !in bars then []
        else RangeScan(bars[currentInterval], from, to)
    {
      result := [];
      if currentInterval == "" || currentInterval !in bars {
        return;
      }
      var arr := bars[currentInterval];
      var i := 0;
      var stop := false;
      while i < |arr| && !stop
        invariant 0 <= i <= |arr|
        invariant RangeScan(arr, from, to) == result + (if stop then [] else RangeScan(arr[i..], from, to))
      {
        var bar := arr[i];
        assert arr[i..][0] == bar && arr[i..][1..] == arr[i + 1..];
        if from <= bar.time <= to {
          result := result + [bar];
        } else if bar.time > to {
          stop := true;
        }
        i := i + 1;
      }
      if !stop {
        assert arr[i..] == [];
      }
    }

    /** The range query without the early exit: every cached bar within the
        range, in array order, whatever the order of the array. */
    method GetBarsInRange(from: int, to: int) returns (result: seq<Bar>)
      requires Valid()
      ensures currentInterval == "" || currentInterval !in bars ==> result == []
      ensures currentInterval != "" && currentInterval in bars ==>
        result == InRange(bars[currentInterval], from, to) &&
        forall b :: b in result <==> b in bars[currentInterval] && from <= b.time <= to
    {
      result := [];
      if currentInterval == "" || currentInterval !in bars {
        return;
      }
      var arr := bars[currentInterval];
      var i := |arr|;
      while i > 0
        invariant 0 <= i <= |arr|
        invariant result == InRange(arr[i..], from, to)
      {
        i := i - 1;
        assert arr[i..][0] == arr[i] && arr[i..][1..] == arr[i + 1..];
        if from <= arr[i].time <= to {
          result := [arr[i]] + result;
        }
      }
      assert arr[0..] == arr;
    }

    /** `getCacheStats`: each interval's array length, and their sum under "total". */
    method GetCacheStats() returns (stats: map<string, int>)
      requires Valid()
      ensures stats.Keys == bars.Keys + {"total"}
      ensures forall iv :: iv in bars ==> stats[iv] == |bars[iv]|
      ensures stats["total"] == SumLengths(bars, order)
    {
      stats := CountLengths(bars, order);
      assert stats.Keys == bars.Keys + {"total"};
    }

    /** `getLastTime`: 0 for an unknown or empty interval, else the time of the last bar. */
    function GetLastTime(interval: string): (t: int)
      reads this
      ensures interval !in bars || bars[interval] == [] ==> t == 0
      ensures interval in bars && bars[interval] != [] ==> t == bars[interval][|bars[interval]| - 1].time
    {
      if interval !in bars || |bars[interval]| == 0 then 0
      else bars[interval][|bars[interval]| - 1].time
    }
  }

  /** `new DataFeed(options)`: `resolutions` defaults to the eight default
      resolutions and `pricescale` to 100; any other resolution throws (None). */
  method NewDataFeed(strId: string, resolutions: Option<seq<string>>, pricescale: Option<int>) returns (r: Option<DataFeed>)
    ensures r.None? <==> resolutions.Some? && !DataFeedWs.Supported(resolutions.value)
    ensures r.Some? ==> fresh(r.value) && r.value.Valid() && r.value.Empty()
    ensures r.Some? ==> r.value.resolutions == (if resolutions.Some? then resolutions.value else DataFeedWs.DefaultResolutions)
    ensures r.Some? ==> r.value.pricescale == if pricescale.Some? then pricescale.value else 100
  {
    var rs := if resolutions.Some? then resolutions.value else DataFeedWs.DefaultResolutions;
    if !DataFeedWs.Supported(rs) {
      return None;
    }
    var feed := new DataFeed(strId, rs, if pricescale.Some? then pricescale.value else 100);
    r := Some(feed);
  }
}
