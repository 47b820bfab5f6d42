/**
 * The polling coordinator: one poll cycle fetches every configured device's
 * merged status, in order, into a fresh snapshot, and fails as a whole as
 * soon as one fetch raises.
 */
module Coordinator {
  import opened Values
  import Api

  /** `status or {}`: a missing answer counts as no data points. */
  function OrEmpty(status: Option<DpMap>): (m: DpMap)
    ensures status.Some? ==> m == status.value
    ensures status.None? ==> m == map[]
  {
    if status.Some? then status.value else map[]
  }

  /** No position after `k` holds the same id as `k`. */
  predicate LastOccurrence(ids: seq<string>, k: int)
    requires 0 <= k < |ids|
  {
    forall j :: k < j < |ids| ==> ids[j] != ids[k]
  }

  /** The snapshot after fetching the first `i` devices of `ids`. */
  ghost predicate PolledPrefix(ids: seq<string>, i: nat, results: Snapshot, fetch: (nat, string) -> Result<Option<DpMap>>)
    requires i <= |ids|
  {
    && (forall k :: 0 <= k < i ==> fetch(k, ids[k]).Ok?)
    && results.Keys == (set k | 0 <= k < i :: ids[k])
    && (forall k :: 0 <= k < i && LastOccurrence(ids[..i], k) ==>
          results[ids[k]] == OrEmpty(fetch(k, ids[k]).value))
  }

  /** Storing the i-th answer extends the polled prefix by one device. */
  lemma PolledStep(ids: seq<string>, i: nat, results: Snapshot, fetch: (nat, string) -> Result<Option<DpMap>>)
    requires i < |ids| && PolledPrefix(ids, i, results, fetch)
    requires fetch(i, ids[i]).Ok?
    ensures PolledPrefix(ids, i + 1, results[ids[i] := OrEmpty(fetch(i, ids[i]).value)], fetch)
  {
    var next := results[ids[i] := OrEmpty(fetch(i, ids[i]).value)];
    assert next.Keys == (set k | 0 <= k < i + 1 :: ids[k]) by {
      forall x ensures x in next.Keys <==> x in (set k | 0 <= k < i + 1 :: ids[k]) {
        if x in results.Keys && x != ids[i] {
          var k :| 0 <= k < i && ids[k] == x;
        }
      }
    }
    forall k | 0 <= k < i + 1 && LastOccurrence(ids[..i + 1], k)
      ensures next[ids[k]] == OrEmpty(fetch(k, ids[k]).value)
    {
      if k < i {
        assert ids[..i + 1][i] == ids[i];
        assert ids[k] != ids[i];
        assert LastOccurrence(ids[..i], k);
      }
    }
  }

  /** A fully polled list gives the snapshot the poll cycle promises. */
  lemma PolledAll(ids: seq<string>, results: Snapshot, fetch: (nat, string) -> Result<Option<DpMap>>)
    requires PolledPrefix(ids, |ids|, results, fetch)
    ensures forall k :: 0 <= k < |ids| && LastOccurrence(ids, k) ==>
      results[ids[k]] == OrEmpty(fetch(k, ids[k]).value)
  {
    assert ids[..|ids|] == ids;
  }

  class ThermostatCoordinator {
    const client: Api.TuyaClient
    /** The configured devices, in configured order. */
    const deviceIds: seq<string>
    const updateInterval: nat
    /** The last snapshot the host framework published. */
    var data: Snapshot
    /** Out-of-band refreshes requested by the entities. */
    var refreshRequests: nat

    constructor (client: Api.TuyaClient, deviceIds: seq<string>)
      ensures this.client == client && this.deviceIds == deviceIds
      ensures updateInterval == DEFAULT_SCAN_INTERVAL
      ensures data == map[] && refreshRequests == 0
    {
      this.client, this.deviceIds := client, deviceIds;
      updateInterval := DEFAULT_SCAN_INTERVAL;
      data, refreshRequests := map[], 0;
    }

    /**
     * One poll cycle. `fetch(k, id)` is the answer of the k-th fetch, for
     * device `id`; `fetched` lists the devices fetched, in order.
     */
    method UpdateData(fetch: (nat, string) -> Result<Option<DpMap>>) returns (r: Result<Snapshot>, fetched: seq<string>)
      ensures r.Ok? <==> forall k :: 0 <= k < |deviceIds| ==> fetch(k, deviceIds[k]).Ok?
      ensures r.Ok? ==> fetched == deviceIds
      ensures r.Ok? ==> r.value.Keys == set k | 0 <= k < |deviceIds| :: deviceIds[k]
      ensures r.Ok? ==> forall k :: 0 <= k < |deviceIds| && LastOccurrence(deviceIds, k) ==>
        r.value[deviceIds[k]] == OrEmpty(fetch(k, deviceIds[k]).value)
      ensures r.Err? ==> exists k :: (0 <= k < |deviceIds| && fetched == deviceIds[..k + 1] &&
        (forall j :: 0 <= j < k ==> fetch(j, deviceIds[j]).Ok?) &&
        fetch(k, deviceIds[k]).Err? && r.error == UpdateFailed(fetch(k, deviceIds[k]).error))
    {
      var results: Snapshot := map[];
      fetched := [];
      for i := 0 to |deviceIds|
        invariant fetched == deviceIds[..i]
        invariant PolledPrefix(deviceIds, i, results, fetch)
      {
        var id := deviceIds[i];
        var status := fetch(i, id);
        fetched := fetched + [id];
        if status.Err? {
          assert fetched == deviceIds[..i + 1] && fetch(i, deviceIds[i]).Err?;
          return Err(UpdateFailed(status.error)), fetched;
        }
        PolledStep(deviceIds, i, results, fetch);
        results := results[id := OrEmpty(status.value)];
      }
      PolledAll(deviceIds, results, fetch);
      assert deviceIds[..|deviceIds|] == deviceIds;
      return Ok(results), fetched;
    }
  }
}
