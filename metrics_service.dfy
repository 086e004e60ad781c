/** The TypeScript `MetricsService` (src/services/MetricsService.ts): three
    dictionaries the `fetch*` methods overwrite from API responses, and
    lookups over them with defaults. Its `getPortMappings`,
    `getContainerLabels` and `formatDate` are `PortMappings`, `ImportantLabels`
    and `FormatDate` of `Containers`; its `formatDuration` is
    `Duration.FormatDurationSince`. */
module Metrics {
  import opened Wrappers
  import opened Ordering
  import opened Containers

  datatype ContainerStatus = Running | Stopped | Error | Unknown

  /** One usage sample; `timestamp` is the parsed date in milliseconds. The
      other counters are not read by the logic modelled here. */
  datatype Usage = Usage(timestamp: int, memoryPercent: real)

  function UsageTime(u: Usage): int {
    u.timestamp
  }

  class MetricsService {
    var containersList: map<string, ContainerStatus>
    var containerDetails: map<string, Details>
    var containerUsage: map<string, seq<Usage>>
    /** The clock reading of the last successful `fetchContainers`. */
    var lastFetchTimestamp: Option<int>
    /** The build-time `POLL_USAGE` switch. */
    const pollUsage: bool

    constructor (pollUsageEnabled: bool)
      ensures containersList == map[] && containerDetails == map[] && containerUsage == map[]
      ensures lastFetchTimestamp == None && pollUsage == pollUsageEnabled
    {
      containersList := map[];
      containerDetails := map[];
      containerUsage := map[];
      lastFetchTimestamp := None;
      pollUsage := pollUsageEnabled;
    }

    /** `fetchContainers`: a 200 response replaces the status list and records
        the time; any other status or a thrown error leaves both alone. */
    method FetchContainers(response: Response<map<string, ContainerStatus>>, now: int) returns (ok: bool)
      modifies this`containersList, this`lastFetchTimestamp
      ensures ok <==> response.IsOk()
      ensures ok ==> containersList == response.data && lastFetchTimestamp == Some(now)
      ensures !ok ==> containersList == old(containersList) && lastFetchTimestamp == old(lastFetchTimestamp)
    {
      if response.Response? && response.status == 200 {
        containersList := response.data;
        lastFetchTimestamp := Some(now);
        return true;
      }
      return false;
    }

    /** `fetchContainerDetails`: a 200 response is stored under the name and
        returned; otherwise `null` and nothing stored. */
    method FetchContainerDetails(containerName: string, response: Response<Details>) returns (r: Option<Details>)
      modifies this`containerDetails
      ensures response.IsOk() ==> r == Some(response.data) && containerDetails == old(containerDetails)[containerName := response.data]
      ensures !response.IsOk() ==> r == None && containerDetails == old(containerDetails)
    {
      if response.Response? && response.status == 200 {
        containerDetails := containerDetails[containerName := response.data];
        return Some(response.data);
      }
      return None;
    }

    /** `fetchContainerUsage`: with polling off, `[]` and no request. A 200
        response with samples stores and returns them; a 200 without samples
        stores and returns `[]`; a thrown error, which includes every answer
        outside 200-299, stores `[]` and returns `null`; another 2xx status
        returns `null` and stores nothing. */
    method FetchContainerUsage(containerName: string, response: Response<seq<Usage>>) returns (r: Option<seq<Usage>>)
      modifies this`containerUsage
      ensures !pollUsage ==> r == Some([]) && containerUsage == old(containerUsage)
      ensures pollUsage && response.IsOk() ==>
        r == Some(response.data) && containerUsage == old(containerUsage)[containerName := response.data]
      ensures pollUsage && response.Threw? ==> r == None && containerUsage == old(containerUsage)[containerName := []]
      ensures pollUsage && response.Response? && response.status != 200 ==>
        r == None && containerUsage == old(containerUsage)
    {
      if !pollUsage {
        return Some([]);
      }
      if response.Threw? {
        containerUsage := containerUsage[containerName := []];
        return None;
      }
      if response.status == 200 {
        if |response.data| > 0 {
          containerUsage := containerUsage[containerName := response.data];
          return Some(response.data);
        } else {
          containerUsage := containerUsage[containerName := []];
          return Some([]);
        }
      }
      return None;
    }

    /** `hasUsageData`: stored and non-empty. */
    predicate HasUsageData(containerName: string)
      reads this
    {
      containerName in containerUsage && |containerUsage[containerName]| > 0
    }

    /** `getContainerUsage`: the stored samples, `[]` for an unknown container. */
    function GetContainerUsage(containerName: string): (r: seq<Usage>)
      reads this
      ensures containerName in containerUsage ==> r == containerUsage[containerName]
      ensures containerName !in containerUsage ==> r == []
      ensures r != [] <==> HasUsageData(containerName)
    {
      if containerName in containerUsage then containerUsage[containerName] else []
    }

    /** `getLatestUsage`: `null` exactly when there is no usage data; otherwise
        the sample a stable descending sort of a copy puts first, which is a
        stored sample with the greatest timestamp and the earliest such. Being
        a function, it leaves the stored list as it is. */
    function GetLatestUsage(containerName: string): (r: Option<Usage>)
      reads this
      ensures r.None? <==> !HasUsageData(containerName)
      ensures r.Some? ==> r.value in containerUsage[containerName]
      ensures r.Some? ==> forall u :: u in containerUsage[containerName] ==> u.timestamp <= r.value.timestamp
      ensures r.Some? ==>
        exists j :: 0 <= j < |containerUsage[containerName]| && containerUsage[containerName][j] == r.value
          && (forall k :: 0 <= k < j ==> containerUsage[containerName][k].timestamp < r.value.timestamp)
    {
      if !HasUsageData(containerName) then None
      else
        var usage := containerUsage[containerName];
        var i := LatestIndex(usage, UsageTime);
        assert forall k :: 0 <= k < i ==> usage[k].timestamp < usage[i].timestamp;
        Some(usage[i])
    }

    /** `getContainerNames`: every known container once, in ascending order. */
    function GetContainerNames(): (r: seq<string>)
      reads this
      ensures StrictlyAscending(r)
      ensures forall x :: x in r <==> x in containersList
      ensures |r| == |containersList|
    {
      SortedNames(containersList.Keys)
    }

    /** `getContainerStatus`: the listed status, `unknown` for an unlisted
        container. */
    function GetContainerStatus(containerName: string): (s: ContainerStatus)
      reads this
      ensures containerName in containersList ==> s == containersList[containerName]
      ensures containerName !in containersList ==> s == Unknown
    {
      if containerName in containersList then containersList[containerName] else Unknown
    }

    /** `getContainerDetails`: the stored record, `null` when none is stored. */
    function GetContainerDetails(containerName: string): (r: Option<Details>)
      reads this
      ensures r.Some? <==> containerName in containerDetails
      ensures r.Some? ==> r.value == containerDetails[containerName]
    {
      if containerName in containerDetails then Some(containerDetails[containerName]) else None
    }
  }
}
