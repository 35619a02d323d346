/** The registry object over its backing store, and the helper that turns endpoints into targets. */
module RunRegistry {
  import opened Wrappers
  import opened Text
  import opened Sorting
  import opened RoleKeys
  import opened Registry

  /** The targets of endpoints in order; the first endpoint without an address of the family asked for
      ends the list. */
  ghost predicate Targets(endpoints: seq<Endpoint>, family: Option<string>, r: Result<seq<string>, Error>) {
    match r
    case Ok(targets) =>
      && |targets| == |endpoints|
      && forall i :: 0 <= i < |endpoints| ==> IsTarget(endpoints[i], family, targets[i])
    case Err(error) => error == NotFound && exists i :: 0 <= i < |endpoints| && LacksFamily(endpoints[i], family)
  }

  method CollectTargets(endpoints: seq<Endpoint>, family: Option<string>) returns (r: Result<seq<string>, Error>)
    requires forall i :: 0 <= i < |endpoints| ==> endpoints[i].addresses != []
    ensures Targets(endpoints, family, r)
  {
    var targets: seq<string> := [];
    for i := 0 to |endpoints|
      invariant |targets| == i
      invariant forall k :: 0 <= k < i ==> IsTarget(endpoints[k], family, targets[k])
    {
      TargetMeans(endpoints[i], family);
      var target := TargetOf(endpoints[i], family);
      if target.Err? {
        assert LacksFamily(endpoints[i], family);
        return Err(target.error);
      }
      assert IsTarget(endpoints[i], family, target.value);
      targets := targets + [target.value];
    }
    r := Ok(targets);
  }

  class MappingRunRegistry {
    var store: Store

    constructor ()
      ensures store == map[]
    {
      store := map[];
    }

    method Put(endpoint: Endpoint) returns (r: Endpoint)
      requires endpoint.Valid()
      modifies this
      ensures (store, Ok(r)) == ApplyToStore(old(store), Op.Put(endpoint))
    {
      store := store[StorageKey(endpoint.Key()) := endpoint];
      r := endpoint;
    }

    method Get(key: RoleKey, now: string) returns (r: Result<Endpoint, Error>)
      requires key.Valid()
      ensures r == GetPayload(store, key, now)
      ensures var text := StorageKey(key);
        match r
        case Ok(e) =>
          && text in store && store[text].Valid()
          && e == store[text].(startedAt := if store[text].startedAt == "" then now else store[text].startedAt,
                               lastHeartbeat := if store[text].lastHeartbeat == "" then now
                                                else store[text].lastHeartbeat)
        case Err(error) =>
          (text !in store && error == NotFound) || (text in store && !store[text].Valid() && error == InvalidRequest)
    {
      var storageKey := StorageKey(key);
      if storageKey !in store {
        return Err(NotFound);
      }
      r := FromDict(store[storageKey], now);
    }

    method Heartbeat(key: RoleKey, status: Option<string>, now: string) returns (r: Result<Endpoint, Error>)
      requires key.Valid()
      modifies this
      ensures (store, r) == ApplyToStore(old(store), Op.Heartbeat(key, status, now))
      ensures r.Ok? ==>
        && StorageKey(key) in old(store) && IsBeaten(old(store)[StorageKey(key)], status, now, r.value)
        && store == old(store)[StorageKey(r.value.Key()) := r.value]
      ensures r.Err? ==> store == old(store)
      ensures r.Err? ==>
        r.error == if StorageKey(key) !in old(store) then NotFound else InvalidRequest
    {
      r := Get(key, now);
      if r.Ok? {
        var endpoint := Put(Beaten(r.value, status, now));
        r := Ok(endpoint);
      }
    }

    /** The stored texts with a prefix, sorted. */
    method ScanKeys(deployment: string, run: string) returns (keys: seq<string>)
      ensures keys == Scan(store, deployment, run)
    {
      var prefix := ScanPrefix(deployment, run);
      var rest := store.Keys;
      var found: seq<string> := [];
      while rest != {}
        invariant rest <= store.Keys
        invariant forall s :: s in found <==> s in store && s !in rest && StartsWith(s, prefix)
        invariant forall i, j :: 0 <= i < j < |found| ==> found[i] != found[j]
        decreases |rest|
      {
        var s :| s in rest;
        rest := rest - {s};
        if StartsWith(s, prefix) {
          found := found + [s];
        }
      }
      keys := Sort(found, Leq);
      SortedIsListing(store, deployment, run, found);
      ListingIsUnique(store, deployment, run, keys, Scan(store, deployment, run));
    }

    method List(deployment: string, run: string, now: string) returns (r: Result<seq<Endpoint>, Error>)
      ensures r.Ok? <==> Loadable(store, Scan(store, deployment, run), now)
      ensures r.Ok? ==> Loaded(store, Scan(store, deployment, run), now, r.value)
      ensures r.Err? ==> r.error == InvalidRequest
    {
      var sorted := ScanKeys(deployment, run);
      var endpoints: seq<Endpoint> := [];
      for i := 0 to |sorted|
        invariant |endpoints| == i
        invariant forall k :: 0 <= k < i ==> sorted[k] in store && FromDict(store[sorted[k]], now) == Ok(endpoints[k])
      {
        assert sorted[i] in sorted;
        var endpoint := FromDict(store[sorted[i]], now);
        if endpoint.Err? {
          return Err(endpoint.error);
        }
        endpoints := endpoints + [endpoint.value];
      }
      r := Ok(endpoints);
    }

    method TargetsOf(deployment: string, run: string, role: string, protocol: string, family: Option<string>,
                     now: string)
      returns (r: Result<seq<string>, Error>)
      ensures !Loadable(store, Scan(store, deployment, run), now) ==> r == Err(InvalidRequest)
      ensures forall endpoints :: Loaded(store, Scan(store, deployment, run), now, endpoints) ==>
        exists sorted :: InRankOrder(endpoints, WantedFor(role, protocol), sorted) && Targets(sorted, family, r)
    {
      var listed := List(deployment, run, now);
      if listed.Err? {
        return Err(listed.error);
      }
      ghost var keys := Scan(store, deployment, run);
      forall endpoints | Loaded(store, keys, now, endpoints) ensures endpoints == listed.value {
        assert forall i :: 0 <= i < |keys| ==> endpoints[i] == listed.value[i];
      }
      var sorted := Sort(Filter(listed.value, role, protocol), ByRank());
      SameMembers(sorted, Filter(listed.value, role, protocol));
      forall i | 0 <= i < |sorted| ensures sorted[i].addresses != [] {
        assert sorted[i] in sorted;
        var k :| 0 <= k < |listed.value| && listed.value[k] == sorted[i];
        assert FromDict(store[keys[k]], now) == Ok(listed.value[k]);
      }
      FilteredInRankOrder(listed.value, role, protocol);
      r := CollectTargets(sorted, family);
    }
  }

  /** endpoint_targets: the targets of the endpoints of one protocol in rank order, at least one. */
  method EndpointTargets(endpoints: seq<Endpoint>, protocol: string, family: Option<string>)
    returns (r: Result<seq<string>, Error>)
    requires forall i :: 0 <= i < |endpoints| ==> endpoints[i].Valid()
    ensures (forall i :: 0 <= i < |endpoints| ==> endpoints[i].protocol != protocol) ==> r == Err(InvalidRequest)
    ensures (exists i :: 0 <= i < |endpoints| && endpoints[i].protocol == protocol) ==>
      exists sorted :: InRankOrder(endpoints, OfProtocolOnly(protocol), sorted) && Targets(sorted, family, r)
  {
    var selected := OfProtocol(endpoints, protocol);
    if selected == [] {
      assert forall i :: 0 <= i < |endpoints| ==> endpoints[i] in endpoints;
      return Err(InvalidRequest);
    }
    assert selected[0] in selected;
    var sorted := Sort(selected, ByRank());
    SameMembers(sorted, selected);
    forall i | 0 <= i < |sorted| ensures sorted[i].addresses != [] {
      assert sorted[i] in sorted;
    }
    forall rank { OfProtocolKeeps(endpoints, protocol, rank); }
    SortedInRankOrder(endpoints, selected, OfProtocolOnly(protocol));
    r := CollectTargets(sorted, family);
  }

  function OfProtocolOnly(protocol: string): Endpoint -> bool {
    (e: Endpoint) => e.protocol == protocol
  }

  lemma {:induction false} OfProtocolKeeps(endpoints: seq<Endpoint>, protocol: string, rank: int)
    ensures Where(OfProtocol(endpoints, protocol), RankIs(OfProtocolOnly(protocol), rank))
         == Where(endpoints, RankIs(OfProtocolOnly(protocol), rank))
  {
    if endpoints != [] {
      var front, last := endpoints[..|endpoints| - 1], endpoints[|endpoints| - 1];
      assert endpoints == front + [last];
      OfProtocolKeeps(front, protocol, rank);
      WhereAppend(front, [last], RankIs(OfProtocolOnly(protocol), rank));
      WhereAppend(OfProtocol(front, protocol), [last], RankIs(OfProtocolOnly(protocol), rank));
    }
  }

  function OfProtocol(endpoints: seq<Endpoint>, protocol: string): (chosen: seq<Endpoint>)
    ensures forall e :: e in chosen <==> e in endpoints && e.protocol == protocol
  {
    if endpoints == [] then []
    else
      var front, last := endpoints[..|endpoints| - 1], endpoints[|endpoints| - 1];
      assert endpoints == front + [last];
      if last.protocol == protocol then OfProtocol(front, protocol) + [last] else OfProtocol(front, protocol)
  }
}
