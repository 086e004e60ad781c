/** Container details as the metrics API returns them, and the two views both
    `MetricsService` and the `useContainerDetails` hook derive from them: the
    flattened port mappings and the labels worth showing. The two sources
    carry the same loops; the hook adds the all-labels fallback. */
module Containers {
  import opened Wrappers

  /** One host binding of a container port (`{ HostIp, HostPort }`). */
  datatype Binding = Binding(hostIp: string, hostPort: string)

  /** One `[containerPort, hostBindings]` entry of `ports`, in iteration order. */
  datatype PortEntry = PortEntry(containerPort: string, bindings: seq<Binding>)

  /** A string-valued JSON object as `Object.entries` lists it: its
      key-value pairs in property order, each key once. */
  type Labels = seq<(string, string)>

  /** The fields of a details record these views read; `ports` and `labels`
      are optional in the record. */
  datatype Details = Details(name: string, ports: Option<seq<PortEntry>>, labels: Option<Labels>)

  datatype PortMapping = PortMapping(containerPort: string, hostIp: string, hostPort: string)

  const AllInterfaces: string := "All Interfaces"
  const Wildcard: string := "0.0.0.0"

  /** The host IP as displayed: the wildcard address is spelled out. */
  function ShownHostIp(ip: string): (r: string)
    ensures ip == Wildcard ==> r == AllInterfaces
    ensures ip != Wildcard ==> r == ip
  {
    if ip == Wildcard then AllInterfaces else ip
  }

  function Mapping(containerPort: string, b: Binding): PortMapping {
    PortMapping(containerPort, ShownHostIp(b.hostIp), b.hostPort)
  }

  /** The mappings of one entry's bindings, in order. */
  function MapBindings(containerPort: string, bs: seq<Binding>): (r: seq<PortMapping>)
    ensures |r| == |bs|
    ensures forall k :: 0 <= k < |bs| ==> r[k] == Mapping(containerPort, bs[k])
  {
    if bs == [] then []
    else MapBindings(containerPort, bs[..|bs| - 1]) + [Mapping(containerPort, bs[|bs| - 1])]
  }

  /** The mappings of all entries, grouped by entry in iteration order. */
  function FlattenPorts(es: seq<PortEntry>): seq<PortMapping> {
    if es == [] then []
    else FlattenPorts(es[..|es| - 1]) + MapBindings(es[|es| - 1].containerPort, es[|es| - 1].bindings)
  }

  /** Total number of host bindings over all entries. */
  function BindingCount(es: seq<PortEntry>): nat {
    if es == [] then 0 else BindingCount(es[..|es| - 1]) + |es[|es| - 1].bindings|
  }

  /** As many mappings as host bindings. */
  lemma {:induction false} FlattenPortsLength(es: seq<PortEntry>)
    ensures |FlattenPorts(es)| == BindingCount(es)
    decreases |es|
  {
    if es != [] {
      FlattenPortsLength(es[..|es| - 1]);
    }
  }

  lemma {:induction false} FlattenPortsAppend(a: seq<PortEntry>, b: seq<PortEntry>)
    ensures FlattenPorts(a + b) == FlattenPorts(a) + FlattenPorts(b)
    ensures BindingCount(a + b) == BindingCount(a) + BindingCount(b)
    decreases |b|
  {
    if b != [] {
      var b' := b[..|b| - 1];
      assert (a + b)[..|a + b| - 1] == a + b';
      FlattenPortsAppend(a, b');
    } else {
      assert a + b == a;
    }
  }

  /** Binding `j` of entry `i` lands right after the bindings of the entries
      before it: one mapping per binding, grouped by entry, in order. */
  lemma MappingPosition(es: seq<PortEntry>, i: nat, j: nat)
    requires i < |es| && j < |es[i].bindings|
    ensures BindingCount(es[..i]) + j < |FlattenPorts(es)|
    ensures FlattenPorts(es)[BindingCount(es[..i]) + j] == Mapping(es[i].containerPort, es[i].bindings[j])
  {
    var front, middle := es[..i], [es[i]];
    assert es == front + middle + es[i + 1..];
    FlattenPortsAppend(front, middle);
    FlattenPortsAppend(front + middle, es[i + 1..]);
    FlattenPortsLength(front);
    assert middle[..0] == [];
    assert FlattenPorts(middle) == MapBindings(es[i].containerPort, es[i].bindings);
  }

  /** The inner loop of `getPortMappings`: one push per host binding. */
  method PushBindings(r0: seq<PortMapping>, e: PortEntry) returns (r: seq<PortMapping>)
    ensures r == r0 + MapBindings(e.containerPort, e.bindings)
  {
    r := r0;
    for j := 0 to |e.bindings|
      invariant r == r0 + MapBindings(e.containerPort, e.bindings[..j])
    {
      assert e.bindings[..j + 1][..j] == e.bindings[..j];
      r := r + [Mapping(e.containerPort, e.bindings[j])];
    }
    assert e.bindings[..|e.bindings|] == e.bindings;
  }

  /** `getPortMappings`: no details or no `ports` gives `[]`; otherwise one
      mapping per host binding (nested loops pushing onto a fresh array). */
  method PortMappings(details: Option<Details>) returns (r: seq<PortMapping>)
    ensures details.None? || details.value.ports.None? ==> r == []
    ensures details.Some? && details.value.ports.Some? ==> r == FlattenPorts(details.value.ports.value)
  {
    if details.None? || details.value.ports.None? {
      return [];
    }
    var entries := details.value.ports.value;
    r := [];
    for i := 0 to |entries|
      invariant r == FlattenPorts(entries[..i])
    {
      assert entries[..i + 1][..i] == entries[..i];
      r := PushBindings(r, entries[i]);
    }
    assert entries[..|entries|] == entries;
  }

  const LabelsOfInterest: seq<string> := [
    "build_version",
    "org.opencontainers.image.version",
    "org.opencontainers.image.title",
    "org.opencontainers.image.description"
  ]

  /** A list of keys with no key twice. */
  ghost predicate Distinct(keys: seq<string>) {
    forall i, j :: 0 <= i < j < |keys| ==> keys[i] != keys[j]
  }

  lemma LabelsOfInterestDistinct()
    ensures Distinct(LabelsOfInterest)
  {
  }

  /** Where `k` stands in `keys`: its first position, or `|keys|` when absent. */
  function IndexOf(keys: seq<string>, k: string): (n: nat)
    ensures n <= |keys|
    ensures n < |keys| <==> k in keys
    ensures n < |keys| ==> keys[n] == k
    ensures forall i :: 0 <= i < n ==> keys[i] != k
    decreases |keys|
  {
    if keys == [] then 0
    else if keys[0] == k then 0
    else 1 + IndexOf(keys[1..], k)
  }

  /** `labels[k]`: the value of the entry with key `k`, absent when there is none. */
  function Lookup(labels: Labels, k: string): (r: Option<string>)
    ensures r.None? <==> forall i :: 0 <= i < |labels| ==> labels[i].0 != k
    ensures r.Some? ==> exists i :: 0 <= i < |labels| && labels[i] == (k, r.value)
    decreases |labels|
  {
    if labels == [] then None
    else if labels[0].0 == k then Some(labels[0].1)
    else
      var r := Lookup(labels[1..], k);
      assert forall i :: 1 <= i < |labels| ==> labels[i] == labels[1..][i - 1];
      r
  }

  /** `labels[k]` is truthy for one of the labels of interest. */
  predicate HasLabelOfInterest(labels: Labels) {
    exists k :: k in LabelsOfInterest && Truthy(Lookup(labels, k))
  }

  /** `r` holds the keys among the first `n` of `keys` whose value in `labels`
      is truthy, with those values, each once and in the order of `keys`. */
  ghost predicate FilteredUpTo(labels: Labels, keys: seq<string>, n: nat, r: Labels) {
    && (forall i :: 0 <= i < |r| ==>
          IndexOf(keys, r[i].0) < n && Lookup(labels, r[i].0) == Some(r[i].1) && r[i].1 != "")
    && (forall i, j :: 0 <= i < j < |r| ==> IndexOf(keys, r[i].0) < IndexOf(keys, r[j].0))
    && (forall k :: IndexOf(keys, k) < n && Truthy(Lookup(labels, k)) ==> exists i :: 0 <= i < |r| && r[i].0 == k)
  }

  /** What the loop over the first `n` of `keys` has built. */
  function Interesting(labels: Labels, keys: seq<string>, n: nat): (r: Labels)
    requires n <= |keys| && Distinct(keys)
    ensures FilteredUpTo(labels, keys, n, r)
  {
    if n == 0 then []
    else
      var front := Interesting(labels, keys, n - 1);
      var key := keys[n - 1];
      if Truthy(Lookup(labels, key)) then
        NextLabel(labels, keys, n, front);
        front + [(key, Lookup(labels, key).value)]
      else
        SkippedLabel(labels, keys, n, front);
        front
  }

  /** The loop step that keeps the next key. */
  lemma NextLabel(labels: Labels, keys: seq<string>, n: nat, front: Labels)
    requires 0 < n <= |keys| && Distinct(keys) && FilteredUpTo(labels, keys, n - 1, front)
    requires Truthy(Lookup(labels, keys[n - 1]))
    ensures FilteredUpTo(labels, keys, n, front + [(keys[n - 1], Lookup(labels, keys[n - 1]).value)])
  {
    var key := keys[n - 1];
    var r := front + [(key, Lookup(labels, key).value)];
    assert IndexOf(keys, key) == n - 1;
    forall i | 0 <= i < |r|
      ensures IndexOf(keys, r[i].0) < n && Lookup(labels, r[i].0) == Some(r[i].1) && r[i].1 != ""
    {
      if i < |front| {
        assert r[i] == front[i];
      }
    }
    forall i, j | 0 <= i < j < |r|
      ensures IndexOf(keys, r[i].0) < IndexOf(keys, r[j].0)
    {
      assert r[i] == front[i];
      if j < |front| {
        assert r[j] == front[j];
      }
    }
    forall k | IndexOf(keys, k) < n && Truthy(Lookup(labels, k))
      ensures exists i :: 0 <= i < |r| && r[i].0 == k
    {
      if IndexOf(keys, k) == n - 1 {
        assert r[|front|].0 == k;
      } else {
        var i :| 0 <= i < |front| && front[i].0 == k;
        assert r[i].0 == k;
      }
    }
  }

  /** The loop step that skips the next key. */
  lemma SkippedLabel(labels: Labels, keys: seq<string>, n: nat, front: Labels)
    requires 0 < n <= |keys| && Distinct(keys) && FilteredUpTo(labels, keys, n - 1, front)
    requires !Truthy(Lookup(labels, keys[n - 1]))
    ensures FilteredUpTo(labels, keys, n, front)
  {
    assert IndexOf(keys, keys[n - 1]) == n - 1;
  }

  /** Nothing qualifies exactly when the filtered labels of interest are empty. */
  lemma InterestingEmpty(labels: Labels)
    requires Distinct(LabelsOfInterest)
    ensures Interesting(labels, LabelsOfInterest, |LabelsOfInterest|) == [] <==> !HasLabelOfInterest(labels)
  {
    var r := Interesting(labels, LabelsOfInterest, |LabelsOfInterest|);
    if r != [] {
      assert r[0].0 in LabelsOfInterest && Truthy(Lookup(labels, r[0].0));
    }
  }

  /** `getContainerLabels` without fallback: no details or no labels give
      `{}`; otherwise exactly the labels of interest present with a non-empty
      value, with their values, in the order of `LabelsOfInterest` (the order
      they are assigned in, which is the order the panel's cards follow). */
  method ImportantLabels(details: Option<Details>) returns (r: Labels)
    ensures details.None? || details.value.labels.None? ==> r == []
    ensures Distinct(LabelsOfInterest)
    ensures details.Some? && details.value.labels.Some? ==>
      r == Interesting(details.value.labels.value, LabelsOfInterest, |LabelsOfInterest|)
  {
    LabelsOfInterestDistinct();
    if details.None? || details.value.labels.None? {
      return [];
    }
    var labels := details.value.labels.value;
    r := [];
    for i := 0 to |LabelsOfInterest|
      invariant r == Interesting(labels, LabelsOfInterest, i)
    {
      var key := LabelsOfInterest[i];
      var value := Lookup(labels, key);
      if Truthy(value) {
        r := r + [(key, value.value)];
      }
    }
  }

  /** The hook's `getContainerLabels`: the labels of interest when any is
      present; otherwise, when the record has labels at all, every label, in
      the record's own order (`Object.fromEntries(Object.entries(...))`). */
  method LabelsWithFallback(details: Option<Details>) returns (r: Labels)
    ensures details.None? || details.value.labels.None? ==> r == []
    ensures details.Some? && details.value.labels.Some? && HasLabelOfInterest(details.value.labels.value) ==>
      Distinct(LabelsOfInterest) && r == Interesting(details.value.labels.value, LabelsOfInterest, |LabelsOfInterest|) && r != []
    ensures details.Some? && details.value.labels.Some? && !HasLabelOfInterest(details.value.labels.value) ==>
      r == details.value.labels.value
  {
    r := ImportantLabels(details);
    if details.Some? && details.value.labels.Some? {
      InterestingEmpty(details.value.labels.value);
      if |r| == 0 {
        r := details.value.labels.value;
      }
    }
  }

  /** `formatDate`: an empty date string is shown as `N/A`; any other goes to
      the locale formatter, whose output is the parameter `localized`. */
  function FormatDate(dateString: string, localized: string): (r: string)
    ensures dateString == "" ==> r == "N/A"
    ensures dateString != "" ==> r == localized
  {
    if dateString == "" then "N/A" else localized
  }
}
