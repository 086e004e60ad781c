/** The plain-script `MetricsService` (js/metrics.js): one flat list of metric
    samples from `/metrics/all` and the set of container names in it. The
    getters filter the list by container into a fresh array and sort that
    copy, so the stored list keeps its order. */
module LegacyMetrics {
  import opened Wrappers
  import opened Ordering

  /** One sample; `timestamp` is the parsed date in milliseconds. */
  datatype Metric = Metric(containerName: string, timestamp: int)

  function MetricTime(m: Metric): int {
    m.timestamp
  }

  const DefaultHistoryLimit: int := 30

  /** `metrics.filter(metric => metric.container_name === name)`. */
  function OfContainer(ms: seq<Metric>, name: string): (r: seq<Metric>)
    ensures forall i :: 0 <= i < |r| ==> r[i].containerName == name && r[i] in ms
    ensures forall m :: m in ms && m.containerName == name ==> m in r
    ensures |r| <= |ms|
  {
    if ms == [] then []
    else if ms[0].containerName == name then [ms[0]] + OfContainer(ms[1..], name)
    else OfContainer(ms[1..], name)
  }

  /** The filter holds each sample of the container exactly as often as `ms`
      does, and no other sample. */
  lemma {:induction false} OfContainerCounts(ms: seq<Metric>, name: string)
    ensures forall m :: multiset(OfContainer(ms, name))[m] == if m.containerName == name then multiset(ms)[m] else 0
    decreases |ms|
  {
    if ms != [] {
      OfContainerCounts(ms[1..], name);
      assert ms == [ms[0]] + ms[1..];
    }
  }

  /** One step of the filter on a sequence that starts with `x`. */
  lemma OfContainerCons(x: Metric, rest: seq<Metric>, name: string)
    ensures OfContainer([x] + rest, name) == (if x.containerName == name then [x] else []) + OfContainer(rest, name)
  {
    assert ([x] + rest)[0] == x && ([x] + rest)[1..] == rest;
  }

  /** Filtering keeps the order of the samples: the filter of a concatenation
      is the concatenation of the filters. */
  lemma {:induction false} OfContainerAppend(a: seq<Metric>, b: seq<Metric>, name: string)
    ensures OfContainer(a + b, name) == OfContainer(a, name) + OfContainer(b, name)
    decreases |a|
  {
    if a == [] {
      assert a + b == b;
    } else {
      var x, t := a[0], a[1..];
      var head: seq<Metric> := if x.containerName == name then [x] else [];
      assert a == [x] + t;
      assert a + b == [x] + (t + b);
      OfContainerCons(x, t + b, name);
      OfContainerCons(x, t, name);
      OfContainerAppend(t, b, name);
      ConcatAssoc(head, OfContainer(t, name), OfContainer(b, name));
    }
  }

  lemma ConcatAssoc<T>(x: seq<T>, p: seq<T>, q: seq<T>)
    ensures x + (p + q) == (x + p) + q
  {
  }

  /** `Array.prototype.slice(start)` for an integer `start`: a negative start
      counts from the end and is clamped at the front. */
  function SliceFrom<T>(s: seq<T>, start: int): (r: seq<T>)
    ensures start < 0 ==> r == s[if |s| + start < 0 then 0 else |s| + start..]
    ensures start >= 0 ==> r == s[if start > |s| then |s| else start..]
  {
    if start < 0 then s[if |s| + start < 0 then 0 else |s| + start..]
    else s[if start > |s| then |s| else start..]
  }

  /** `slice(-limit)` keeps the last `limit` elements for a positive limit;
      `-0` is `0`, so a zero limit keeps them all. */
  lemma SliceLast<T>(s: seq<T>, limit: int)
    ensures limit > 0 ==> SliceFrom(s, -limit) == s[|s| - (if limit < |s| then limit else |s|)..]
    ensures limit > 0 ==> |SliceFrom(s, -limit)| == if limit < |s| then limit else |s|
    ensures limit == 0 ==> SliceFrom(s, -limit) == s
  {
  }

  class MetricsService {
    var metricsData: seq<Metric>
    var containerNames: set<string>
    var lastFetchTimestamp: Option<int>

    /** `containerNames` is derived from `metricsData`. */
    ghost predicate Valid()
      reads this
    {
      forall n :: n in containerNames <==> exists m :: m in metricsData && m.containerName == n
    }

    constructor ()
      ensures Valid()
      ensures metricsData == [] && containerNames == {} && lastFetchTimestamp == None
    {
      metricsData := [];
      containerNames := {};
      lastFetchTimestamp := None;
    }

    /** `fetchMetrics`: a 200 response replaces the samples, rebuilds the
        name set from them and records the time; otherwise nothing changes. */
    method FetchMetrics(response: Response<seq<Metric>>, now: int) returns (ok: bool)
      requires Valid()
      modifies this`metricsData, this`containerNames, this`lastFetchTimestamp
      ensures Valid()
      ensures ok <==> response.IsOk()
      ensures ok ==> metricsData == response.data && lastFetchTimestamp == Some(now)
      ensures !ok ==>
        metricsData == old(metricsData) && containerNames == old(containerNames)
        && lastFetchTimestamp == old(lastFetchTimestamp)
    {
      if response.Response? && response.status == 200 {
        metricsData := response.data;
        lastFetchTimestamp := Some(now);
        containerNames := set m | m in metricsData :: m.containerName;
        return true;
      }
      return false;
    }

    /** `getContainerNames`: each container of the samples once, ascending. */
    function GetContainerNames(): (r: seq<string>)
      requires Valid()
      reads this
      ensures StrictlyAscending(r)
      ensures forall n :: n in r <==> exists m :: m in metricsData && m.containerName == n
      ensures |r| == |containerNames|
    {
      SortedNames(containerNames)
    }

    /** `getLatestMetricForContainer`: `null` exactly when the container has
        no sample; otherwise one of its samples with the greatest timestamp. */
    function GetLatestMetricForContainer(containerName: string): (r: Option<Metric>)
      reads this
      ensures r.None? <==> forall m :: m in metricsData ==> m.containerName != containerName
      ensures r.Some? ==> r.value in metricsData && r.value.containerName == containerName
      ensures r.Some? ==> forall m :: m in metricsData && m.containerName == containerName ==>
        m.timestamp <= r.value.timestamp
    {
      var containerMetrics := OfContainer(metricsData, containerName);
      if |containerMetrics| > 0 then
        Some(containerMetrics[LatestIndex(containerMetrics, MetricTime)])
      else
        None
    }

    /** `getMetricHistoryForContainer(name, limit = 30)`: the container's
        samples in ascending time order, then `slice(-limit)`: the last
        `limit` of them for a positive limit, all of them for a zero one. */
    function GetMetricHistoryForContainer(containerName: string, limit: int := DefaultHistoryLimit): (r: seq<Metric>)
      reads this
      ensures forall i :: 0 <= i < |r| ==> r[i].containerName == containerName && r[i] in metricsData
      ensures AscendingBy(r, MetricTime)
      ensures var sorted := SortBy(OfContainer(metricsData, containerName), MetricTime);
        && (limit > 0 ==> r == sorted[|sorted| - (if limit < |sorted| then limit else |sorted|)..])
        && (limit == 0 ==> r == sorted)
    {
      HistoryFacts(metricsData, containerName, limit);
      SliceFrom(SortBy(OfContainer(metricsData, containerName), MetricTime), -limit)
    }
  }

  /** The history holds only the container's samples, in time order. */
  lemma HistoryFacts(ms: seq<Metric>, name: string, limit: int)
    ensures var r := SliceFrom(SortBy(OfContainer(ms, name), MetricTime), -limit);
      && (forall i :: 0 <= i < |r| ==> r[i].containerName == name && r[i] in ms)
      && AscendingBy(r, MetricTime)
  {
    var filtered := OfContainer(ms, name);
    var sorted := SortBy(filtered, MetricTime);
    var r := SliceFrom(sorted, -limit);
    var k := |sorted| - |r|;
    assert r == sorted[k..];
    SortedSuffix(filtered, sorted, k);
    forall i | 0 <= i < |r|
      ensures r[i].containerName == name && r[i] in ms
    {
      assert r[i] == sorted[k + i];
    }
  }

  /** A suffix of a sorted copy is sorted and holds only elements of the
      original. */
  lemma SortedSuffix(ms: seq<Metric>, sorted: seq<Metric>, k: nat)
    requires multiset(sorted) == multiset(ms) && AscendingBy(sorted, MetricTime) && k <= |sorted|
    ensures AscendingBy(sorted[k..], MetricTime)
    ensures forall i :: k <= i < |sorted| ==> sorted[i] in ms
  {
    forall i | k <= i < |sorted|
      ensures sorted[i] in ms
    {
      assert sorted[i] in multiset(sorted);
    }
  }
}
