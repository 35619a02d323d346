/** The endpoint registry: role endpoints in a store keyed by text, behaving as a map keyed by
    deployment, run, role and rank. */
module Registry {
  import opened Wrappers
  import opened Text
  import opened Sorting
  import opened RoleKeys

  datatype Address = Address(family: string, host: string, port: int) {
    predicate Valid() {
      && (family == "ipv4" || family == "ipv6" || family == "ipc" || family == "inproc")
      && host != "" && port >= 0
    }

    function HostForUri(): string {
      if family == "ipv6" && !StartsWith(host, "[") then "[" + host + "]" else host
    }

    function Target(protocol: string): string {
      if family == "ipc" || family == "inproc" then family + "://" + host
      else protocol + "://" + HostForUri() + ":" + Signed(port)
    }
  }

  // An endpoint, and equally the plain dictionary it is stored as.
  datatype Endpoint = Endpoint(
    deployment: string,
    run: string,
    role: string,
    rank: int,
    protocol: string,
    addresses: seq<Address>,
    status: string,
    epoch: int,
    region: string,
    startedAt: string,
    lastHeartbeat: string,
    metadata: map<string, string>)
  {
    function Key(): RoleKey {
      RoleKey(deployment, run, role, rank)
    }

    predicate Valid() {
      && Key().Valid() && protocol != "" && addresses != [] && epoch >= 0
      && forall i :: 0 <= i < |addresses| ==> addresses[i].Valid()
    }
  }

  function OrNow(time: string, now: string): string {
    if time == "" then now else time
  }

  /** from_dict: checks everything again and dates what has no date. */
  function FromDict(payload: Endpoint, now: string): (r: Result<Endpoint, Error>)
    ensures r.Ok? <==>
      && payload.deployment != "" && payload.run != "" && payload.role != "" && payload.rank >= 0
      && payload.protocol != "" && payload.addresses != [] && payload.epoch >= 0
      && forall i :: 0 <= i < |payload.addresses| ==>
           && payload.addresses[i].family in ["ipv4", "ipv6", "ipc", "inproc"]
           && payload.addresses[i].host != "" && payload.addresses[i].port >= 0
  {
    if !payload.Valid() then Err(InvalidRequest)
    else Ok(payload.(startedAt := OrNow(payload.startedAt, now), lastHeartbeat := OrNow(payload.lastHeartbeat, now)))
  }

  /** The endpoint with a new heartbeat and, if one is given, a new status. */
  function Beaten(e: Endpoint, status: Option<string>, now: string): Endpoint {
    e.(status := if status.Some? && status.value != "" then status.value else e.status, lastHeartbeat := now)
  }

  function FirstOfFamily(addresses: seq<Address>, family: string): Option<Address> {
    if addresses == [] then None
    else if addresses[0].family == family then Some(addresses[0])
    else FirstOfFamily(addresses[1..], family)
  }

  function PreferredAddress(e: Endpoint, family: Option<string>): Result<Address, Error>
    requires e.addresses != []
  {
    if family.None? then Ok(e.addresses[0])
    else
      match FirstOfFamily(e.addresses, family.value)
      case None => Err(NotFound)
      case Some(a) => Ok(a)
  }

  function TargetOf(e: Endpoint, family: Option<string>): Result<string, Error>
    requires e.addresses != []
  {
    match PreferredAddress(e, family)
    case Err(error) => Err(error)
    case Ok(a) => Ok(a.Target(e.protocol))
  }

  /** A beaten endpoint is the old one, dated anew; the status is a given one that is not empty, or as it
      was, and a start that was not dated is dated too. */
  ghost predicate IsBeaten(was: Endpoint, status: Option<string>, now: string, e: Endpoint) {
    && e.deployment == was.deployment && e.run == was.run && e.role == was.role && e.rank == was.rank
    && e.protocol == was.protocol && e.addresses == was.addresses && e.epoch == was.epoch
    && e.region == was.region && e.metadata == was.metadata
    && e.status == (match status case Some(text) => if text == "" then was.status else text case None => was.status)
    && e.startedAt == (if was.startedAt == "" then now else was.startedAt)
    && e.lastHeartbeat == now
  }

  /** An address as a URI: local families by themselves, an IPv6 host in brackets. */
  ghost predicate IsUri(a: Address, protocol: string, text: string) {
    text ==
      if a.family == "ipc" then "ipc://" + a.host
      else if a.family == "inproc" then "inproc://" + a.host
      else if a.family == "ipv6" && (a.host == "" || a.host[0] != '[')
      then protocol + "://" + ("[" + a.host + "]") + ":" + Signed(a.port)
      else protocol + "://" + a.host + ":" + Signed(a.port)
  }

  lemma TargetIsUri(a: Address, protocol: string)
    ensures IsUri(a, protocol, a.Target(protocol))
  {
    assert a.host != "" && a.host[0] == '[' <==> StartsWith(a.host, "[");
  }

  /** The address at place i, the first of the family asked for if one is. */
  ghost predicate IsTargetAt(e: Endpoint, family: Option<string>, target: string, i: nat) {
    && i < |e.addresses|
    && (match family
        case None => i == 0
        case Some(f) => e.addresses[i].family == f && forall j :: 0 <= j < i ==> e.addresses[j].family != f)
    && IsUri(e.addresses[i], e.protocol, target)
  }

  ghost predicate IsTarget(e: Endpoint, family: Option<string>, target: string) {
    exists i :: 0 <= i < |e.addresses| && IsTargetAt(e, family, target, i)
  }

  ghost predicate LacksFamily(e: Endpoint, family: Option<string>) {
    family.Some? && forall i :: 0 <= i < |e.addresses| ==> e.addresses[i].family != family.value
  }

  lemma {:induction false} FirstOfFamilyIs(addresses: seq<Address>, family: string) returns (i: nat)
    ensures match FirstOfFamily(addresses, family)
      case None => forall k :: 0 <= k < |addresses| ==> addresses[k].family != family
      case Some(a) =>
        && i < |addresses| && addresses[i] == a && a.family == family
        && forall k :: 0 <= k < i ==> addresses[k].family != family
  {
    i := 0;
    if addresses != [] && addresses[0].family != family {
      var rest := FirstOfFamilyIs(addresses[1..], family);
      i := rest + 1;
    }
  }

  lemma TargetMeans(e: Endpoint, family: Option<string>)
    requires e.addresses != []
    ensures match TargetOf(e, family)
      case Ok(target) => IsTarget(e, family, target)
      case Err(error) => error == NotFound && LacksFamily(e, family)
  {
    var i := 0;
    if family.Some? { i := FirstOfFamilyIs(e.addresses, family.value); }
    if TargetOf(e, family).Ok? {
      TargetIsUri(e.addresses[i], e.protocol);
      assert IsTargetAt(e, family, TargetOf(e, family).value, i);
    }
  }

  // ---------------------------------------------------------------- the store as a map over keys

  type Store = map<string, Endpoint>
  type Entries = map<RoleKey, Endpoint>

  /** Different keys among these have different texts. */
  ghost predicate Apart(keys: iset<RoleKey>) {
    forall a, b :: a in keys && b in keys && a.Valid() && b.Valid() && StorageKey(a) == StorageKey(b) ==> a == b
  }

  /** The store has the entries, each under its key's text, and nothing else. */
  ghost predicate Represents(store: Store, entries: Entries) {
    && (forall k :: k in entries ==> k.Valid() && entries[k].Valid() && entries[k].Key() == k)
    && (forall k :: k in entries ==> StorageKey(k) in store && store[StorageKey(k)] == entries[k])
    && (forall s :: s in store ==> store[s].Valid() && store[s].Key() in entries && s == StorageKey(store[s].Key()))
  }

  ghost predicate EntriesWithin(entries: Entries, keys: iset<RoleKey>) {
    forall k :: k in entries ==> k in keys
  }

  datatype Op =
    | Put(endpoint: Endpoint)
    | Heartbeat(key: RoleKey, status: Option<string>, now: string)

  function GetPayload(store: Store, key: RoleKey, now: string): Result<Endpoint, Error>
    requires key.Valid()
  {
    if StorageKey(key) !in store then Err(NotFound) else FromDict(store[StorageKey(key)], now)
  }

  ghost predicate OpValid(op: Op) {
    match op
    case Put(e) => e.Valid()
    case Heartbeat(k, _, _) => k.Valid()
  }

  /** What an operation does to the store of texts. */
  function ApplyToStore(store: Store, op: Op): (Store, Result<Endpoint, Error>)
    requires OpValid(op)
  {
    match op
    case Put(e) => (store[StorageKey(e.Key()) := e], Ok(e))
    case Heartbeat(k, status, now) =>
      match GetPayload(store, k, now)
      case Err(error) => (store, Err(error))
      case Ok(e) =>
        var beaten := Beaten(e, status, now);
        if beaten.Key().Valid() then (store[StorageKey(beaten.Key()) := beaten], Ok(beaten))
        else (store, Err(InvalidRequest))
  }

  function GetEntry(entries: Entries, key: RoleKey, now: string): Result<Endpoint, Error> {
    if key !in entries then Err(NotFound)
    else Ok(entries[key].(startedAt := OrNow(entries[key].startedAt, now),
                          lastHeartbeat := OrNow(entries[key].lastHeartbeat, now)))
  }

  /** What it should do: the last put for a key wins. */
  function ApplyToEntries(entries: Entries, op: Op): (Entries, Result<Endpoint, Error>) {
    match op
    case Put(e) => (entries[e.Key() := e], Ok(e))
    case Heartbeat(k, status, now) =>
      match GetEntry(entries, k, now)
      case Err(error) => (entries, Err(error))
      case Ok(e) => (entries[k := Beaten(e, status, now)], Ok(Beaten(e, status, now)))
  }

  /** The key an operation is about. */
  function KeyOf(op: Op): RoleKey {
    match op
    case Put(e) => e.Key()
    case Heartbeat(k, _, _) => k
  }

  lemma NewTextRepresents(store: Store, entries: Entries, e: Endpoint)
    requires Represents(store, entries) && e.Valid()
    requires forall k :: k in entries && k != e.Key() ==> StorageKey(k) != StorageKey(e.Key())
    ensures Represents(store[StorageKey(e.Key()) := e], entries[e.Key() := e])
  {
  }

  lemma PutRepresents(store: Store, entries: Entries, e: Endpoint, keys: iset<RoleKey>)
    requires Represents(store, entries) && EntriesWithin(entries, keys) && Apart(keys) && e.Valid() && e.Key() in keys
    ensures Represents(store[StorageKey(e.Key()) := e], entries[e.Key() := e])
    ensures EntriesWithin(entries[e.Key() := e], keys)
  {
    forall k | k in entries && k != e.Key() ensures StorageKey(k) != StorageKey(e.Key()) {
      assert k in keys && k.Valid();
    }
    NewTextRepresents(store, entries, e);
  }

  lemma GetAgrees(store: Store, entries: Entries, key: RoleKey, now: string, keys: iset<RoleKey>)
    requires Represents(store, entries) && EntriesWithin(entries, keys) && Apart(keys) && key.Valid() && key in keys
    ensures GetPayload(store, key, now) == GetEntry(entries, key, now)
  {
    if StorageKey(key) in store {
      var k := store[StorageKey(key)].Key();
      assert k in entries && k.Valid() && StorageKey(k) == StorageKey(key);
    }
  }

  /** One operation: the same answer, and the store still has exactly the entries. */
  lemma OpRefines(store: Store, entries: Entries, op: Op, keys: iset<RoleKey>)
    requires Represents(store, entries) && EntriesWithin(entries, keys) && Apart(keys)
    requires OpValid(op) && KeyOf(op) in keys
    ensures ApplyToStore(store, op).1 == ApplyToEntries(entries, op).1
    ensures Represents(ApplyToStore(store, op).0, ApplyToEntries(entries, op).0)
    ensures EntriesWithin(ApplyToEntries(entries, op).0, keys)
  {
    match op
    case Put(e) => PutRepresents(store, entries, e, keys);
    case Heartbeat(k, status, now) =>
      GetAgrees(store, entries, k, now, keys);
      var got := GetEntry(entries, k, now);
      if got.Ok? { PutRepresents(store, entries, Beaten(got.value, status, now), keys); }
  }

  function StoreAfter(ops: seq<Op>): Store
    requires forall i :: 0 <= i < |ops| ==> OpValid(ops[i])
  {
    if ops == [] then map[]
    else ApplyToStore(StoreAfter(ops[..|ops| - 1]), ops[|ops| - 1]).0
  }

  function EntriesAfter(ops: seq<Op>): Entries {
    if ops == [] then map[]
    else ApplyToEntries(EntriesAfter(ops[..|ops| - 1]), ops[|ops| - 1]).0
  }

  ghost predicate OpsOver(ops: seq<Op>, keys: iset<RoleKey>) {
    forall i :: 0 <= i < |ops| ==> OpValid(ops[i]) && KeyOf(ops[i]) in keys
  }

  /** After any history of puts and heartbeats over keys of different texts, the store of texts is the
      map. */
  lemma {:induction false} HistoryRefines(ops: seq<Op>, keys: iset<RoleKey>)
    requires OpsOver(ops, keys) && Apart(keys)
    ensures Represents(StoreAfter(ops), EntriesAfter(ops)) && EntriesWithin(EntriesAfter(ops), keys)
  {
    if ops != [] {
      var before, last := ops[..|ops| - 1], ops[|ops| - 1];
      HistoryRefines(before, keys);
      assert OpValid(last) && KeyOf(last) in keys;
      OpRefines(StoreAfter(before), EntriesAfter(before), last, keys);
    }
  }

  /** And only over such keys: two endpoints whose keys share a text are one to the store, and two to the
      map. */
  lemma SharedTextLoses(a: Endpoint, b: Endpoint, now: string)
    requires a.Valid() && b.Valid() && a.Key() != b.Key() && StorageKey(a.Key()) == StorageKey(b.Key())
    ensures var ops := [Put(a), Put(b)];
      && (forall i :: 0 <= i < |ops| ==> OpValid(ops[i]))
      && GetPayload(StoreAfter(ops), a.Key(), now) == FromDict(b, now)
      && GetEntry(EntriesAfter(ops), a.Key(), now) == FromDict(a, now)
      && FromDict(a, now) != FromDict(b, now)
      && !Represents(StoreAfter(ops), EntriesAfter(ops))
  {
    var ops := [Put(a), Put(b)];
    assert ops[..1] == [Put(a)] && [Put(a)][..0] == [];
    assert FromDict(a, now).value.Key() == a.Key() && FromDict(b, now).value.Key() == b.Key();
    assert a.Key() in EntriesAfter(ops) && EntriesAfter(ops)[a.Key()] == a;
    assert StoreAfter(ops)[StorageKey(a.Key())] == b;
  }

  ghost predicate RefinesOver(keys: iset<RoleKey>) {
    forall ops :: OpsOver(ops, keys) ==> Represents(StoreAfter(ops), EntriesAfter(ops))
  }

  function SomeEndpoint(k: RoleKey): Endpoint {
    Endpoint(k.deployment, k.run, k.role, k.rank, "tcp", [Address("ipv4", "h", 0)], "", 0, "", "", "", map[])
  }

  /** The store is the map after every history over some keys exactly when different ones among them
      have different texts. */
  lemma RefinesIffApart(keys: iset<RoleKey>)
    ensures RefinesOver(keys) <==> Apart(keys)
  {
    if Apart(keys) {
      forall ops | OpsOver(ops, keys) ensures Represents(StoreAfter(ops), EntriesAfter(ops)) {
        HistoryRefines(ops, keys);
      }
    }
    if RefinesOver(keys) {
      forall a, b | a in keys && b in keys && a.Valid() && b.Valid() && StorageKey(a) == StorageKey(b) ensures a == b {
        if a != b {
          var ea, eb := SomeEndpoint(a), SomeEndpoint(b);
          assert ea.Key() == a && eb.Key() == b;
          SharedTextLoses(ea, eb, "");
          assert OpsOver([Put(ea), Put(eb)], keys);
          assert false;
        }
      }
    }
  }

  /** What a history ends with is what get finds: the last put for its key, whatever came before, and a
      put for another key does not disturb it unless the keys share their text. */
  lemma LastPutWins(ops: seq<Op>, e: Endpoint, later: Endpoint, now: string)
    requires forall i :: 0 <= i < |ops| ==> OpValid(ops[i])
    requires e.Valid() && later.Valid()
    ensures var store := StoreAfter(ops + [Put(e), Put(later)]);
      && GetPayload(store, later.Key(), now) == FromDict(later, now)
      && GetPayload(store, e.Key(), now) ==
           FromDict(if StorageKey(later.Key()) == StorageKey(e.Key()) then later else e, now)
  {
    var all := ops + [Put(e), Put(later)];
    var once := ops + [Put(e)];
    assert all[..|all| - 1] == once && once[..|once| - 1] == ops;
  }

  // ---------------------------------------------------------------- listing

  /** The stored texts of one deployment and run, in text order. */
  ghost predicate Listing(store: Store, deployment: string, run: string, keys: seq<string>) {
    && Ordered(keys, Leq)
    && (forall i, j :: 0 <= i < j < |keys| ==> keys[i] != keys[j])
    && (forall s :: s in keys <==> s in store && StartsWith(s, ScanPrefix(deployment, run)))
  }

  lemma {:induction false} SomeOrder(texts: set<string>) returns (keys: seq<string>)
    ensures forall i, j :: 0 <= i < j < |keys| ==> keys[i] != keys[j]
    ensures forall s :: s in keys <==> s in texts
    decreases |texts|
  {
    if texts == {} {
      keys := [];
    } else {
      var s :| s in texts;
      var rest := SomeOrder(texts - {s});
      keys := rest + [s];
    }
  }

  lemma ListingExists(store: Store, deployment: string, run: string)
    ensures exists keys :: Listing(store, deployment, run, keys)
  {
    var texts := SomeOrder(set s | s in store && StartsWith(s, ScanPrefix(deployment, run)));
    SortedIsListing(store, deployment, run, texts);
  }

  lemma SortedIsListing(store: Store, deployment: string, run: string, texts: seq<string>)
    requires forall i, j :: 0 <= i < j < |texts| ==> texts[i] != texts[j]
    requires forall s :: s in texts <==> s in store && StartsWith(s, ScanPrefix(deployment, run))
    ensures Listing(store, deployment, run, Sort(texts, Leq))
  {
    LeqIsTotalOrder();
    SortOrdered(texts, Leq);
    SameMembers(Sort(texts, Leq), texts);
    DistinctKept(texts, Sort(texts, Leq));
  }

  /** The listing is a function of the store: nothing depends on the order its keys come in. */
  lemma ListingIsUnique(store: Store, deployment: string, run: string, a: seq<string>, b: seq<string>)
    requires Listing(store, deployment, run, a) && Listing(store, deployment, run, b)
    ensures a == b
  {
    forall s ensures multiset(a)[s] == multiset(b)[s] {
      AtMostOnce(a, s);
      AtMostOnce(b, s);
      assert s in a <==> s in multiset(a);
      assert s in b <==> s in multiset(b);
      assert s in a <==> s in b;
    }
    assert multiset(a) == multiset(b);
    LeqIsTotalOrder();
    OrderedUnique(a, b, Leq);
  }

  ghost function Scan(store: Store, deployment: string, run: string): (keys: seq<string>)
    ensures Listing(store, deployment, run, keys)
  {
    ListingExists(store, deployment, run);
    var keys :| Listing(store, deployment, run, keys);
    keys
  }

  ghost predicate Loaded(store: Store, keys: seq<string>, now: string, endpoints: seq<Endpoint>) {
    && |endpoints| == |keys|
    && forall i :: 0 <= i < |keys| ==> keys[i] in store && FromDict(store[keys[i]], now) == Ok(endpoints[i])
  }

  ghost predicate Loadable(store: Store, keys: seq<string>, now: string) {
    forall i :: 0 <= i < |keys| ==> keys[i] in store && FromDict(store[keys[i]], now).Ok?
  }

  /** What a scan returns: every entry whose names begin with the pieces sought, once, and no other. */
  lemma ListIsExact(store: Store, entries: Entries, deployment: string, run: string, keys: seq<string>, now: string,
                    endpoints: seq<Endpoint>)
    requires Represents(store, entries)
    requires Listing(store, deployment, run, keys) && Loaded(store, keys, now, endpoints)
    ensures forall i :: 0 <= i < |endpoints| ==>
      && endpoints[i].Key() in entries && Scanned(endpoints[i].Key(), deployment, run)
      && GetEntry(entries, endpoints[i].Key(), now) == Ok(endpoints[i])
    ensures forall k :: k in entries && Scanned(k, deployment, run) ==>
      exists i :: 0 <= i < |endpoints| && endpoints[i].Key() == k
    ensures forall i, j :: 0 <= i < j < |endpoints| ==> endpoints[i].Key() != endpoints[j].Key()
  {
    forall i | 0 <= i < |endpoints|
      ensures endpoints[i].Key() in entries && Scanned(endpoints[i].Key(), deployment, run)
      ensures GetEntry(entries, endpoints[i].Key(), now) == Ok(endpoints[i])
      ensures keys[i] == StorageKey(endpoints[i].Key())
    {
      assert keys[i] in keys;
      var k := store[keys[i]].Key();
      assert k in entries && endpoints[i].Key() == k;
      ScanIff(k, deployment, run);
    }
    forall k | k in entries && Scanned(k, deployment, run)
      ensures exists i :: 0 <= i < |endpoints| && endpoints[i].Key() == k
    {
      ScanIff(k, deployment, run);
      assert StorageKey(k) in keys;
      var i :| 0 <= i < |keys| && keys[i] == StorageKey(k);
      assert store[keys[i]] == entries[k] && endpoints[i].Key() == k;
    }
  }

  ghost predicate AllColonFree(entries: Entries) {
    forall k :: k in entries ==> k.ColonFree()
  }

  /** For names without separators: every entry of the deployment and run. */
  lemma ColonFreeListIsExact(store: Store, entries: Entries, deployment: string, run: string, keys: seq<string>,
                             now: string, endpoints: seq<Endpoint>)
    requires Represents(store, entries) && AllColonFree(entries) && Without(deployment, ':') && Without(run, ':')
    requires Listing(store, deployment, run, keys) && Loaded(store, keys, now, endpoints)
    ensures forall e :: e in endpoints ==>
      e.deployment == deployment && e.run == run && e.Key() in entries && GetEntry(entries, e.Key(), now) == Ok(e)
    ensures forall k :: k in entries && k.deployment == deployment && k.run == run ==>
      GetEntry(entries, k, now).Ok? && GetEntry(entries, k, now).value in endpoints
    ensures forall i, j :: 0 <= i < j < |endpoints| ==> endpoints[i].Key() != endpoints[j].Key()
  {
    ListIsExact(store, entries, deployment, run, keys, now, endpoints);
    forall e | e in endpoints
      ensures e.deployment == deployment && e.run == run && e.Key() in entries
      ensures GetEntry(entries, e.Key(), now) == Ok(e)
    {
      var i :| 0 <= i < |endpoints| && endpoints[i] == e;
      ScanIsExact(e.Key(), deployment, run);
    }
    forall k | k in entries && k.deployment == deployment && k.run == run
      ensures GetEntry(entries, k, now).Ok? && GetEntry(entries, k, now).value in endpoints
    {
      ScanIsExact(k, deployment, run);
      var i :| 0 <= i < |endpoints| && endpoints[i].Key() == k;
    }
  }

  // ---------------------------------------------------------------- targets in rank order

  function ByRank(): (Endpoint, Endpoint) -> bool {
    (a: Endpoint, b: Endpoint) => a.rank <= b.rank
  }

  predicate Wanted(e: Endpoint, role: string, protocol: string) {
    e.role == role && e.protocol == protocol
  }

  function Filter(endpoints: seq<Endpoint>, role: string, protocol: string): (chosen: seq<Endpoint>)
    ensures forall e :: e in chosen <==> e in endpoints && Wanted(e, role, protocol)
    ensures (forall i, j :: 0 <= i < j < |endpoints| ==> endpoints[i].Key() != endpoints[j].Key()) ==>
      forall i, j :: 0 <= i < j < |chosen| ==> chosen[i].Key() != chosen[j].Key()
  {
    if endpoints == [] then []
    else
      var front, last := endpoints[..|endpoints| - 1], endpoints[|endpoints| - 1];
      assert endpoints == front + [last];
      var chosen := Filter(front, role, protocol);
      assert forall i :: 0 <= i < |chosen| ==> chosen[i] in front;
      if Wanted(last, role, protocol) then chosen + [last] else chosen
  }

  function RankIs(wanted: Endpoint -> bool, rank: int): Endpoint -> bool {
    (e: Endpoint) => wanted(e) && e.rank == rank
  }

  /** The wanted endpoints by rank, those of one rank in the order they came in, and no others. */
  ghost predicate InRankOrder(endpoints: seq<Endpoint>, wanted: Endpoint -> bool, sorted: seq<Endpoint>) {
    && (forall i, j :: 0 <= i < j < |sorted| ==> sorted[i].rank <= sorted[j].rank)
    && (forall i :: 0 <= i < |sorted| ==> wanted(sorted[i]))
    && forall rank :: Where(sorted, RankIs(wanted, rank)) == Where(endpoints, RankIs(wanted, rank))
  }

  lemma SortedInRankOrder(endpoints: seq<Endpoint>, chosen: seq<Endpoint>, wanted: Endpoint -> bool)
    requires forall e :: e in chosen ==> wanted(e)
    requires forall rank :: Where(chosen, RankIs(wanted, rank)) == Where(endpoints, RankIs(wanted, rank))
    ensures InRankOrder(endpoints, wanted, Sort(chosen, ByRank()))
  {
    var sorted := Sort(chosen, ByRank());
    RanksTotal();
    SortOrdered(chosen, ByRank());
    SameMembers(sorted, chosen);
    forall i, j | 0 <= i < j < |sorted| ensures sorted[i].rank <= sorted[j].rank {
      assert ByRank()(sorted[i], sorted[j]);
    }
    forall rank ensures Where(sorted, RankIs(wanted, rank)) == Where(endpoints, RankIs(wanted, rank)) {
      assert Tied(RankIs(wanted, rank), ByRank());
      SortStable(chosen, ByRank(), RankIs(wanted, rank));
    }
  }

  function WantedFor(role: string, protocol: string): Endpoint -> bool {
    (e: Endpoint) => e.role == role && e.protocol == protocol
  }

  lemma {:induction false} FilterKeeps(endpoints: seq<Endpoint>, role: string, protocol: string, rank: int)
    ensures Where(Filter(endpoints, role, protocol), RankIs(WantedFor(role, protocol), rank))
         == Where(endpoints, RankIs(WantedFor(role, protocol), rank))
  {
    if endpoints != [] {
      var front, last := endpoints[..|endpoints| - 1], endpoints[|endpoints| - 1];
      assert endpoints == front + [last];
      FilterKeeps(front, role, protocol, rank);
      WhereAppend(front, [last], RankIs(WantedFor(role, protocol), rank));
      WhereAppend(Filter(front, role, protocol), [last], RankIs(WantedFor(role, protocol), rank));
    }
  }

  lemma FilteredInRankOrder(endpoints: seq<Endpoint>, role: string, protocol: string)
    ensures InRankOrder(endpoints, WantedFor(role, protocol), Sort(Filter(endpoints, role, protocol), ByRank()))
  {
    forall rank { FilterKeeps(endpoints, role, protocol, rank); }
    SortedInRankOrder(endpoints, Filter(endpoints, role, protocol), WantedFor(role, protocol));
  }

  lemma RanksTotal()
    ensures TotalPreorder(ByRank())
  {
  }

  lemma SortedDistinct(chosen: seq<Endpoint>, sorted: seq<Endpoint>)
    requires forall i, j :: 0 <= i < j < |chosen| ==> chosen[i].Key() != chosen[j].Key()
    requires multiset(sorted) == multiset(chosen)
    ensures forall i, j :: 0 <= i < j < |sorted| ==> sorted[i].Key() != sorted[j].Key()
  {
    SameMembers(sorted, chosen);
    DistinctKept(chosen, sorted);
    forall i, j | 0 <= i < j < |sorted| ensures sorted[i].Key() != sorted[j].Key() {
      assert sorted[i] in chosen && sorted[j] in chosen;
    }
  }

  /** Endpoints with different keys, all of one deployment and run: those of one role and protocol,
      sorted by rank, have strictly increasing ranks. */
  lemma SortedByRank(endpoints: seq<Endpoint>, deployment: string, run: string, role: string, protocol: string)
    requires forall i, j :: 0 <= i < j < |endpoints| ==> endpoints[i].Key() != endpoints[j].Key()
    requires forall e :: e in endpoints ==> e.deployment == deployment && e.run == run
    ensures var sorted := Sort(Filter(endpoints, role, protocol), ByRank());
      && (forall i, j :: 0 <= i < j < |sorted| ==> sorted[i].rank < sorted[j].rank)
      && (forall e :: e in sorted <==> e in endpoints && Wanted(e, role, protocol))
  {
    var chosen := Filter(endpoints, role, protocol);
    var sorted := Sort(chosen, ByRank());
    RanksTotal();
    SortOrdered(chosen, ByRank());
    SortedDistinct(chosen, sorted);
    SameMembers(sorted, chosen);
    forall i, j | 0 <= i < j < |sorted| ensures sorted[i].rank < sorted[j].rank {
      assert sorted[i] in chosen && sorted[j] in chosen;
      assert ByRank()(sorted[i], sorted[j]) && sorted[i].Key() != sorted[j].Key();
    }
  }

  /** Although texts sort as text, the endpoints of one role come out in strictly increasing rank:
      exactly the entries of that role and protocol. */
  lemma TargetsByRank(store: Store, entries: Entries, deployment: string, run: string, role: string, protocol: string,
                      keys: seq<string>, now: string, endpoints: seq<Endpoint>)
    requires Represents(store, entries) && AllColonFree(entries) && Without(deployment, ':') && Without(run, ':')
    requires Listing(store, deployment, run, keys) && Loaded(store, keys, now, endpoints)
    ensures var sorted := Sort(Filter(endpoints, role, protocol), ByRank());
      && (forall i, j :: 0 <= i < j < |sorted| ==> sorted[i].rank < sorted[j].rank)
      && (forall e :: e in sorted ==>
            && e.Key() == RoleKey(deployment, run, role, e.rank) && e.protocol == protocol
            && GetEntry(entries, e.Key(), now) == Ok(e))
      && (forall rank :: RoleKey(deployment, run, role, rank) in entries
                         && entries[RoleKey(deployment, run, role, rank)].protocol == protocol ==>
            GetEntry(entries, RoleKey(deployment, run, role, rank), now).value in sorted)
  {
    ColonFreeListIsExact(store, entries, deployment, run, keys, now, endpoints);
    SortedByRank(endpoints, deployment, run, role, protocol);
  }
}
