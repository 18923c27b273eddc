/**
 The scanner's device store (controllers/_device_scanner.py): one path-keyed
 map with name, configuration and cache-key shadows kept in lockstep.
 */
module DeviceIndex {
  import opened Optional
  import opened TextOrder

  datatype Path = Path(parent: string, name: string)

  /** A device row: its esphome name, its YAML file name, its dependency files, and all the rest. */
  datatype Device = Device(name: string, configuration: string, dependencies: seq<string>, rest: seq<string>)

  datatype Stat = Stat(inode: nat, device: nat, mtime: real, size: nat)

  type StatKey = (int, int)

  datatype CacheKey = CacheKey(inode: int, device: int, mtime: real, size: int, dependencies: seq<StatKey>)

  const POISONED := CacheKey(-1, -1, -1.0, -1, [])

  // ----- Insertion-ordered dictionaries -----

  datatype Dict<V> = Dict(keys: seq<Path>, at: map<Path, V>) {

    ghost predicate WellFormed() {
      && (forall i, j :: 0 <= i < j < |keys| ==> keys[i] != keys[j])
      && (forall p :: p in keys <==> p in at)
    }

    function Put(p: Path, v: V): (d: Dict<V>)
      ensures keys <= d.keys && forall q :: q in d.keys <==> q in keys || (q == p && p !in at)
    {
      Dict(if p in at then keys else keys + [p], at[p := v])
    }

    function Drop(p: Path): Dict<V> {
      if p in at then Dict(Without(keys, p), at - {p}) else this
    }
  }

  function Without(keys: seq<Path>, p: Path): (rest: seq<Path>)
    ensures forall q :: q in rest <==> q in keys && q != p
    ensures |rest| <= |keys|
  {
    if keys == [] then []
    else if keys[0] == p then Without(keys[1..], p)
    else [keys[0]] + Without(keys[1..], p)
  }

  lemma {:induction false} WithoutSplits(a: seq<Path>, b: seq<Path>, p: Path)
    ensures Without(a + b, p) == Without(a, p) + Without(b, p)
  {
    if a == [] {
      assert a + b == b;
    } else {
      assert (a + b)[1..] == a[1..] + b;
      WithoutSplits(a[1..], b, p);
    }
  }

  lemma {:induction false} WithoutKeepsOrder(keys: seq<Path>, p: Path)
    requires forall i, j :: 0 <= i < j < |keys| ==> keys[i] != keys[j]
    ensures forall i, j :: 0 <= i < j < |Without(keys, p)| ==> Without(keys, p)[i] != Without(keys, p)[j]
    ensures SortedPaths(keys) ==> SortedPaths(Without(keys, p))
  {
    if keys != [] {
      WithoutKeepsOrder(keys[1..], p);
      forall j | 0 <= j < |Without(keys[1..], p)| ensures Without(keys[1..], p)[j] in keys[1..] {
      }
    }
  }

  ghost predicate SortedPaths(keys: seq<Path>) {
    forall i, j :: 0 <= i < j < |keys| ==> Less(keys[i].name, keys[j].name)
  }

  /** `order` cut down to the keys of `at`, repeats dropped. */
  function Rekeyed<V>(order: seq<Path>, at: map<Path, V>): seq<Path> {
    if order == [] then []
    else
      var rest, last := Rekeyed(order[..|order| - 1], at), order[|order| - 1];
      if last in at && last !in rest then rest + [last] else rest
  }

  lemma {:induction false} RekeyedAre<V>(order: seq<Path>, at: map<Path, V>)
    ensures forall p :: p in Rekeyed(order, at) <==> p in order && p in at
  {
    if order != [] {
      RekeyedAre(order[..|order| - 1], at);
      assert order == order[..|order| - 1] + [order[|order| - 1]];
    }
  }

  lemma {:induction false} RekeyedOnce<V>(order: seq<Path>, at: map<Path, V>)
    ensures forall i, j :: 0 <= i < j < |Rekeyed(order, at)| ==> Rekeyed(order, at)[i] != Rekeyed(order, at)[j]
  {
    if order != [] {
      RekeyedOnce(order[..|order| - 1], at);
    }
  }

  lemma {:induction false} RekeyedSorted<V>(order: seq<Path>, at: map<Path, V>)
    requires SortedPaths(order)
    ensures SortedPaths(Rekeyed(order, at))
  {
    if order != [] {
      var front, last := order[..|order| - 1], order[|order| - 1];
      RekeyedSorted(front, at);
      RekeyedAre(front, at);
      var rest := Rekeyed(front, at);
      forall k | 0 <= k < |rest| ensures Less(rest[k].name, last.name) {
        assert rest[k] in front;
        var i :| 0 <= i < |front| && front[i] == rest[k];
        assert order[i] == rest[k];
      }
    }
  }

  lemma RekeyedHolds<V>(order: seq<Path>, at: map<Path, V>)
    ensures forall p :: p in Rekeyed(order, at) <==> p in order && p in at
    ensures forall i, j :: 0 <= i < j < |Rekeyed(order, at)| ==> Rekeyed(order, at)[i] != Rekeyed(order, at)[j]
    ensures SortedPaths(order) ==> SortedPaths(Rekeyed(order, at))
  {
    RekeyedAre(order, at);
    RekeyedOnce(order, at);
    if SortedPaths(order) {
      RekeyedSorted(order, at);
    }
  }

  // ----- Name buckets -----

  ghost predicate Sorted(bucket: seq<Device>) {
    forall i, j :: 0 <= i < j < |bucket| ==> Less(bucket[i].configuration, bucket[j].configuration)
  }

  /** The first occurrence of `d` taken out. */
  function RemoveFirst(s: seq<Device>, d: Device): seq<Device> {
    if s == [] then [] else if s[0] == d then s[1..] else [s[0]] + RemoveFirst(s[1..], d)
  }

  lemma {:induction false} RemoveFromSorted(s: seq<Device>, d: Device)
    requires Sorted(s)
    ensures Sorted(RemoveFirst(s, d))
    ensures forall e :: e in RemoveFirst(s, d) <==> e in s && e != d
  {
    if s != [] {
      RemoveFromSorted(s[1..], d);
      LessIsTotal(s[0].configuration, s[0].configuration);
      forall k | 0 <= k < |RemoveFirst(s[1..], d)| ensures RemoveFirst(s[1..], d)[k] in s[1..] {
      }
    }
  }

  lemma SortedInsert(bucket: seq<Device>, k: nat, d: Device)
    requires Sorted(bucket) && k <= |bucket|
    requires forall i :: 0 <= i < k ==> Less(bucket[i].configuration, d.configuration)
    requires k < |bucket| ==> Less(d.configuration, bucket[k].configuration)
    ensures Sorted(bucket[..k] + [d] + bucket[k..])
  {
    forall j | k < j < |bucket| ensures Less(d.configuration, bucket[j].configuration) {
      LessIsTransitive(d.configuration, bucket[k].configuration, bucket[j].configuration);
    }
  }

  /** Sorting leaves no choice: a sorted bucket is determined by its members. */
  lemma {:induction false} SortedIsUnique(a: seq<Device>, b: seq<Device>)
    requires Sorted(a) && Sorted(b) && forall d :: d in a <==> d in b
    ensures a == b
  {
    assert a != [] ==> a[0] in a;
    assert b != [] ==> b[0] in b;
    if a != [] {
      FirstAgrees(a, b);
      LessIsTotal(a[0].configuration, a[0].configuration);
      assert a == [a[0]] + a[1..] && b == [b[0]] + b[1..];
      forall d ensures d in a[1..] <==> d in a && d != a[0] {
      }
      forall d ensures d in b[1..] <==> d in b && d != b[0] {
      }
      SortedIsUnique(a[1..], b[1..]);
    }
  }

  lemma FirstAgrees(a: seq<Device>, b: seq<Device>)
    requires Sorted(a) && Sorted(b) && a != [] && b != [] && a[0] in b && b[0] in a
    ensures a[0] == b[0]
  {
    var i :| 0 <= i < |b| && b[i] == a[0];
    var j :| 0 <= j < |a| && a[j] == b[0];
    LessIsTotal(a[0].configuration, b[0].configuration);
  }

  // ----- The plain scan the name index must agree with -----

  function Insert(d: Device, s: seq<Device>): seq<Device> {
    if s == [] || Less(d.configuration, s[0].configuration) then [d] + s else [s[0]] + Insert(d, s[1..])
  }

  /** Every listed device of that name, sorted by file name. */
  function PlainScan(devices: seq<Device>, name: string): seq<Device> {
    if devices == [] then []
    else if devices[0].name == name then Insert(devices[0], PlainScan(devices[1..], name))
    else PlainScan(devices[1..], name)
  }

  lemma {:induction false} InsertHolds(d: Device, s: seq<Device>)
    requires Sorted(s) && forall e | e in s :: e.configuration != d.configuration
    ensures Sorted(Insert(d, s)) && forall e :: e in Insert(d, s) <==> e == d || e in s
  {
    if s == [] {
    } else if Less(d.configuration, s[0].configuration) {
      SortedInsert(s, 0, d);
      assert s[..0] + [d] + s[0..] == [d] + s;
    } else {
      InsertHolds(d, s[1..]);
      LessIsTotal(d.configuration, s[0].configuration);
      var rest := Insert(d, s[1..]);
      forall k | 0 <= k < |rest| ensures Less(s[0].configuration, rest[k].configuration) {
        assert rest[k] in rest;
      }
    }
  }

  lemma {:induction false} PlainScanHolds(devices: seq<Device>, name: string)
    requires forall i, j :: 0 <= i < j < |devices| ==> devices[i].configuration != devices[j].configuration
    ensures Sorted(PlainScan(devices, name))
    ensures forall d :: d in PlainScan(devices, name) <==> d in devices && d.name == name
  {
    if devices != [] {
      PlainScanHolds(devices[1..], name);
      if devices[0].name == name {
        forall e | e in PlainScan(devices[1..], name) ensures e.configuration != devices[0].configuration {
          var j :| 1 <= j < |devices| && devices[j] == e;
        }
        InsertHolds(devices[0], PlainScan(devices[1..], name));
      }
    }
  }

  function Listing(devices: Dict<Device>): (all: seq<Device>)
    requires devices.WellFormed()
    ensures |all| == |devices.keys| && forall i :: 0 <= i < |all| ==> all[i] == devices.at[devices.keys[i]]
  {
    seq(|devices.keys|, i requires 0 <= i < |devices.keys| => devices.at[devices.keys[i]])
  }

  // ----- What lockstep means -----

  ghost predicate RowsAgree(root: string, at: map<Path, Device>) {
    forall p | p in at :: p.parent == root && at[p].configuration == p.name
  }

  ghost predicate Tracked(root: string, at: map<Path, Device>, d: Device) {
    Path(root, d.configuration) in at && at[Path(root, d.configuration)] == d
  }

  ghost predicate IsBucket(root: string, at: map<Path, Device>, name: string, bucket: seq<Device>) {
    Sorted(bucket) && forall d :: d in bucket <==> Tracked(root, at, d) && d.name == name
  }

  ghost predicate NamesAgree(root: string, at: map<Path, Device>, byName: map<string, seq<Device>>) {
    && (forall n | n in byName :: byName[n] != [] && IsBucket(root, at, n, byName[n]))
    && (forall d | Tracked(root, at, d) :: d.name in byName)
  }

  ghost predicate ConfigurationsAgree(root: string, at: map<Path, Device>, byConfiguration: map<string, Device>) {
    && (forall c :: c in byConfiguration <==> Path(root, c) in at)
    && (forall c | c in byConfiguration :: byConfiguration[c] == at[Path(root, c)])
  }

  /** `_unindex_name`: out of its bucket, and the bucket out of the map when that empties it. */
  function Unindexed(byName: map<string, seq<Device>>, d: Device): map<string, seq<Device>>
    requires d.name in byName
  {
    var left := RemoveFirst(byName[d.name], d);
    if left == [] then byName - {d.name} else byName[d.name := left]
  }

  lemma UnindexedAgrees(root: string, at: map<Path, Device>, byName: map<string, seq<Device>>, p: Path)
    requires RowsAgree(root, at) && NamesAgree(root, at, byName) && p in at
    ensures NamesAgree(root, at - {p}, Unindexed(byName, at[p]))
  {
    var d, at' := at[p], at - {p};
    assert Tracked(root, at, d);
    RemoveFromSorted(byName[d.name], d);
    var byName' := Unindexed(byName, d);
    assert p == Path(root, d.configuration);
    forall e ensures Tracked(root, at', e) <==> Tracked(root, at, e) && e != d {
    }
    forall n | n in byName' ensures byName'[n] != [] && IsBucket(root, at', n, byName'[n]) {
      assert IsBucket(root, at, n, byName[n]);
    }
    forall e | Tracked(root, at', e) ensures e.name in byName' {
      assert IsBucket(root, at, e.name, byName[e.name]);
      assert e in byName[e.name];
    }
  }

  /** The insertion point `set` stops at: everything before it sorts lower. */
  ghost predicate InsertionPoint(bucket: seq<Device>, d: Device, k: nat) {
    && k <= |bucket|
    && (forall i :: 0 <= i < k ==> Less(bucket[i].configuration, d.configuration))
    && (k < |bucket| ==> !Less(bucket[k].configuration, d.configuration))
  }

  function Inserted(bucket: seq<Device>, k: nat, d: Device): seq<Device>
    requires k <= |bucket|
  {
    bucket[..k] + [d] + bucket[k..]
  }

  lemma InsertKeepsBucket(bucket: seq<Device>, k: nat, d: Device)
    requires Sorted(bucket) && InsertionPoint(bucket, d, k)
             && forall e | e in bucket :: e.configuration != d.configuration
    ensures Sorted(Inserted(bucket, k, d))
    ensures forall e :: e in Inserted(bucket, k, d) <==> e in bucket || e == d
  {
    if k < |bucket| {
      assert bucket[k] in bucket;
      LessIsTotal(bucket[k].configuration, d.configuration);
    }
    SortedInsert(bucket, k, d);
    assert bucket == bucket[..k] + bucket[k..];
  }

  lemma TrackedPut(root: string, at: map<Path, Device>, p: Path, d: Device)
    requires p !in at && p == Path(root, d.configuration)
    ensures forall e :: Tracked(root, at[p := d], e) <==> Tracked(root, at, e) || e == d
    ensures forall e | Tracked(root, at, e) :: e.configuration != d.configuration
  {
    forall e ensures Tracked(root, at[p := d], e) <==> Tracked(root, at, e) || e == d {
      assert Path(root, e.configuration) == p <==> e.configuration == d.configuration;
    }
  }

  /** The bucket of `name`, empty when it has none, is that name's bucket. */
  lemma BucketOr(root: string, at: map<Path, Device>, byName: map<string, seq<Device>>, name: string)
    requires NamesAgree(root, at, byName)
    ensures IsBucket(root, at, name, if name in byName then byName[name] else [])
  {
  }

  lemma OtherBucket(
    root: string, at: map<Path, Device>, at': map<Path, Device>, d: Device, n: string, bucket: seq<Device>)
    requires IsBucket(root, at, n, bucket) && n != d.name
    requires forall e :: Tracked(root, at', e) <==> Tracked(root, at, e) || e == d
    ensures IsBucket(root, at', n, bucket)
  {
  }

  lemma OwnBucket(root: string, at: map<Path, Device>, at': map<Path, Device>, d: Device, bucket: seq<Device>, k: nat)
    requires IsBucket(root, at, d.name, bucket) && InsertionPoint(bucket, d, k)
    requires forall e :: Tracked(root, at', e) <==> Tracked(root, at, e) || e == d
    requires forall e | Tracked(root, at, e) :: e.configuration != d.configuration
    ensures IsBucket(root, at', d.name, Inserted(bucket, k, d))
  {
    InsertKeepsBucket(bucket, k, d);
  }

  lemma IndexedAgrees(root: string, at: map<Path, Device>, byName: map<string, seq<Device>>, p: Path, d: Device, k: nat)
    requires NamesAgree(root, at, byName)
    requires p !in at && p == Path(root, d.configuration)
    requires InsertionPoint(if d.name in byName then byName[d.name] else [], d, k)
    ensures NamesAgree(root, at[p := d],
            byName[d.name := Inserted(if d.name in byName then byName[d.name] else [], k, d)])
  {
    var bucket := if d.name in byName then byName[d.name] else [];
    var at' := at[p := d];
    TrackedPut(root, at, p, d);
    BucketOr(root, at, byName, d.name);
    OwnBucket(root, at, at', d, bucket, k);
    forall n | n in byName && n != d.name ensures IsBucket(root, at', n, byName[n]) {
      OtherBucket(root, at, at', d, n, byName[n]);
    }
  }

  lemma PutKeepsShape<V>(d: Dict<V>, p: Path, v: V)
    requires d.WellFormed()
    ensures d.Put(p, v).WellFormed()
  {
  }

  lemma DropKeepsShape<V>(d: Dict<V>, p: Path)
    requires d.WellFormed()
    ensures d.Drop(p).WellFormed()
  {
    WithoutKeepsOrder(d.keys, p);
  }

  lemma ShadowsAfterPut(root: string, at: map<Path, Device>, byConfiguration: map<string, Device>, p: Path, d: Device)
    requires RowsAgree(root, at) && ConfigurationsAgree(root, at, byConfiguration) && p == Path(root, d.configuration)
    ensures RowsAgree(root, at[p := d]) && ConfigurationsAgree(root, at[p := d], byConfiguration[d.configuration := d])
  {
  }

  lemma ShadowsAfterDrop(root: string, at: map<Path, Device>, byConfiguration: map<string, Device>, p: Path)
    requires RowsAgree(root, at) && ConfigurationsAgree(root, at, byConfiguration) && p in at
    ensures RowsAgree(root, at - {p}) && ConfigurationsAgree(root, at - {p}, byConfiguration - {at[p].configuration})
  {
    assert p == Path(root, at[p].configuration);
  }

  lemma ListedIffTracked(root: string, devices: Dict<Device>, d: Device)
    requires devices.WellFormed() && RowsAgree(root, devices.at)
    ensures d in Listing(devices) <==> Tracked(root, devices.at, d)
  {
    if Tracked(root, devices.at, d) {
      var i :| 0 <= i < |devices.keys| && devices.keys[i] == Path(root, d.configuration);
      assert Listing(devices)[i] == d;
    }
    if d in Listing(devices) {
      var i :| 0 <= i < |Listing(devices)| && Listing(devices)[i] == d;
      assert devices.keys[i] in devices.at;
    }
  }

  lemma BucketIsPlainScan(root: string, devices: Dict<Device>, byName: map<string, seq<Device>>, name: string)
    requires devices.WellFormed() && RowsAgree(root, devices.at) && NamesAgree(root, devices.at, byName)
    ensures (if name in byName then byName[name] else []) == PlainScan(Listing(devices), name)
  {
    var all, bucket := Listing(devices), if name in byName then byName[name] else [];
    forall i, j | 0 <= i < j < |all| ensures all[i].configuration != all[j].configuration {
      assert devices.keys[i] in devices.at && devices.keys[j] in devices.at;
    }
    PlainScanHolds(all, name);
    forall d ensures d in bucket <==> d in PlainScan(all, name) {
      ListedIffTracked(root, devices, d);
    }
    SortedIsUnique(bucket, PlainScan(all, name));
  }

  /** The head of `set`: whatever row `p` had leaves its bucket. */
  function Displaced(at: map<Path, Device>, byName: map<string, seq<Device>>, p: Path): map<string, seq<Device>>
    requires p in at ==> at[p].name in byName
  {
    if p in at then Unindexed(byName, at[p]) else byName
  }

  lemma DisplacedAgrees(root: string, at: map<Path, Device>, byName: map<string, seq<Device>>, p: Path)
    requires RowsAgree(root, at) && NamesAgree(root, at, byName)
    ensures p in at ==> at[p].name in byName
    ensures RowsAgree(root, at - {p}) && NamesAgree(root, at - {p}, Displaced(at, byName, p))
  {
    if p in at {
      assert Tracked(root, at, at[p]);
      UnindexedAgrees(root, at, byName, p);
    } else {
      assert at - {p} == at;
    }
  }

  /** The whole of `set` keeps the three shadows in step with the rows. */
  lemma SetAgrees(
    root: string, at: map<Path, Device>, byName: map<string, seq<Device>>, byConfiguration: map<string, Device>,
                  p: Path, d: Device, k: nat)
    requires RowsAgree(root, at) && NamesAgree(root, at, byName) && ConfigurationsAgree(root, at, byConfiguration)
    requires p == Path(root, d.configuration) && (p in at ==> at[p].name in byName)
    requires var others := Displaced(at, byName, p);
             InsertionPoint(if d.name in others then others[d.name] else [], d, k)
    ensures var others := Displaced(at, byName, p);
            && RowsAgree(root, at[p := d])
            && NamesAgree(root, at[p := d],
              others[d.name := Inserted(if d.name in others then others[d.name] else [], k, d)])
            && ConfigurationsAgree(root, at[p := d], byConfiguration[d.configuration := d])
  {
    DisplacedAgrees(root, at, byName, p);
    IndexedAgrees(root, at - {p}, Displaced(at, byName, p), p, d, k);
    assert (at - {p})[p := d] == at[p := d];
    ShadowsAfterPut(root, at, byConfiguration, p, d);
  }

  // ----- The index -----

  /** All four maps tell of the same rows. */
  ghost predicate Coherent(root: string, devices: Dict<Device>, cacheKeys: Dict<CacheKey>,
                           byName: map<string, seq<Device>>, byConfiguration: map<string, Device>) {
    && devices.WellFormed() && cacheKeys.WellFormed()
    && devices.keys == cacheKeys.keys
    && RowsAgree(root, devices.at)
    && NamesAgree(root, devices.at, byName)
    && ConfigurationsAgree(root, devices.at, byConfiguration)
  }

  /** The name map of `set`: `d` at position `k` of its bucket. */
  function Bucketed(others: map<string, seq<Device>>, d: Device, k: nat): map<string, seq<Device>>
    requires k <= |if d.name in others then others[d.name] else []|
  {
    others[d.name := Inserted(if d.name in others then others[d.name] else [], k, d)]
  }

  lemma SetCoherent(root: string, devices: Dict<Device>, cacheKeys: Dict<CacheKey>, byName: map<string, seq<Device>>,
                    byConfiguration: map<string, Device>, p: Path, d: Device, c: CacheKey, k: nat)
    requires Coherent(root, devices, cacheKeys, byName, byConfiguration)
    requires p == Path(root, d.configuration) && (p in devices.at ==> devices.at[p].name in byName)
    requires var others := Displaced(devices.at, byName, p);
             InsertionPoint(if d.name in others then others[d.name] else [], d, k)
    ensures Coherent(root, devices.Put(p, d), cacheKeys.Put(p, c), Bucketed(Displaced(devices.at, byName, p), d, k),
                     byConfiguration[d.configuration := d])
  {
    SetAgrees(root, devices.at, byName, byConfiguration, p, d, k);
    PutKeepsShape(devices, p, d);
    PutKeepsShape(cacheKeys, p, c);
  }

  lemma DropCoherent(root: string, devices: Dict<Device>, cacheKeys: Dict<CacheKey>, byName: map<string, seq<Device>>,
                     byConfiguration: map<string, Device>, p: Path)
    requires Coherent(root, devices, cacheKeys, byName, byConfiguration) && p in devices.at
    ensures devices.at[p].name in byName
    ensures Coherent(root, devices.Drop(p), cacheKeys.Drop(p), Unindexed(byName, devices.at[p]),
                     byConfiguration - {devices.at[p].configuration})
  {
    DropKeepsShape(devices, p);
    DropKeepsShape(cacheKeys, p);
    assert Tracked(root, devices.at, devices.at[p]);
    ShadowsAfterDrop(root, devices.at, byConfiguration, p);
    UnindexedAgrees(root, devices.at, byName, p);
  }

  lemma DropAbsentCoherent(
    root: string, devices: Dict<Device>, cacheKeys: Dict<CacheKey>, byName: map<string, seq<Device>>,
                           byConfiguration: map<string, Device>, p: Path)
    requires Coherent(root, devices, cacheKeys, byName, byConfiguration) && p !in devices.at
    ensures Coherent(root, devices.Drop(p), cacheKeys.Drop(p), byName, byConfiguration)
  {
    assert p !in cacheKeys.at by {
      assert p in cacheKeys.at <==> p in cacheKeys.keys;
    }
  }

  method InsertionIndex(bucket: seq<Device>, d: Device) returns (at: nat)
    ensures InsertionPoint(bucket, d, at)
  {
    at := 0;
    while at < |bucket| && Less(bucket[at].configuration, d.configuration)
      invariant at <= |bucket|
      invariant forall i :: 0 <= i < at ==> Less(bucket[i].configuration, d.configuration)
    {
      at := at + 1;
    }
  }

  lemma RekeyCoherent(root: string, devices: Dict<Device>, cacheKeys: Dict<CacheKey>, byName: map<string, seq<Device>>,
                      byConfiguration: map<string, Device>, order: seq<Path>)
    requires Coherent(root, devices, cacheKeys, byName, byConfiguration) && forall p | p in devices.at :: p in order
    ensures Coherent(root, devices.(keys := Rekeyed(order, devices.at)), cacheKeys.(keys := Rekeyed(order, devices.at)),
            byName, byConfiguration)
  {
    RekeyedHolds(order, devices.at);
    assert forall p :: p in cacheKeys.at <==> p in cacheKeys.keys;
  }

  class Index {
    const root: string
    var devices: Dict<Device>
    var byName: map<string, seq<Device>>
    var byConfiguration: map<string, Device>
    var cacheKeys: Dict<CacheKey>

    ghost predicate Valid()
      reads this
    {
      Coherent(root, devices, cacheKeys, byName, byConfiguration)
    }

    constructor (root: string)
      ensures Valid() && this.root == root
      ensures devices == Dict([], map[]) && cacheKeys == Dict([], map[])
    {
      this.root := root;
      devices, byName := Dict([], map[]), map[];
      byConfiguration, cacheKeys := map[], Dict([], map[]);
    }

    /** The loaded devices, in the order of the path dictionary. */
    function Devices(): (all: seq<Device>)
      reads this
      requires devices.WellFormed()
    {
      Listing(devices)
    }

    /** Whatever ran before: the name index answers as a scan and sort of the whole device list would. */
    method GetByName(name: string) returns (bucket: seq<Device>)
      requires Valid()
      ensures bucket == PlainScan(Devices(), name)
    {
      bucket := if name in byName then byName[name] else [];
      BucketIsPlainScan(root, devices, byName, name);
    }

    /** The one device of that file name, or none when no device has it. */
    method GetByConfiguration(configuration: string) returns (found: Option<Device>)
      requires Valid()
      ensures found.Some? ==> found.value in Devices() && found.value.configuration == configuration
      ensures forall d | d in Devices() && d.configuration == configuration :: found == Some(d)
    {
      found := if configuration in byConfiguration then Some(byConfiguration[configuration]) else None;
      forall d {
        ListedIffTracked(root, devices, d);
      }
    }

    /** The four maps, replaced at once. */
    method Assign(
      rows: Dict<Device>, keys: Dict<CacheKey>, names: map<string, seq<Device>>, configurations: map<string, Device>)
      requires Coherent(root, rows, keys, names, configurations)
      modifies this
      ensures Valid() && devices == rows && cacheKeys == keys && byName == names && byConfiguration == configurations
    {
      devices, cacheKeys, byName, byConfiguration := rows, keys, names, configurations;
    }

    /** Insert or replace the row of `path`. */
    method Set(path: Path, device: Device, cacheKey: CacheKey)
      requires Valid() && path == Path(root, device.configuration)
      modifies this
      ensures Valid()
      ensures devices == old(devices).Put(path, device) && cacheKeys == old(cacheKeys).Put(path, cacheKey)
    {
      DisplacedAgrees(root, devices.at, byName, path);
      var others := Displaced(devices.at, byName, path);
      var at := InsertionIndex(if device.name in others then others[device.name] else [], device);
      SetCoherent(root, devices, cacheKeys, byName, byConfiguration, path, device, cacheKey, at);
      Assign(devices.Put(path, device), cacheKeys.Put(path, cacheKey), Bucketed(others, device, at),
             byConfiguration[device.configuration := device]);
    }

    method Pop(path: Path) returns (removed: Option<Device>)
      requires Valid()
      modifies this
      ensures Valid()
      ensures removed == if path in old(devices.at) then Some(old(devices.at[path])) else None
      ensures devices == old(devices.Drop(path)) && cacheKeys == old(cacheKeys.Drop(path))
    {
      if path !in devices.at {
        DropAbsentCoherent(root, devices, cacheKeys, byName, byConfiguration, path);
        Assign(devices.Drop(path), cacheKeys.Drop(path), byName, byConfiguration);
        return None;
      }
      DropCoherent(root, devices, cacheKeys, byName, byConfiguration, path);
      var device := devices.at[path];
      Assign(devices.Drop(path), cacheKeys.Drop(path), Unindexed(byName, device),
        byConfiguration - {device.configuration});
      return Some(device);
    }

    /** Re-key in `order`; refused, with nothing changed, when that would drop an indexed path. */
    method RebuildInPathOrder(order: seq<Path>) returns (ok: bool)
      requires Valid()
      modifies this
      ensures Valid()
      ensures ok <==> forall p | p in old(devices.at) :: p in order
      ensures !ok ==> devices == old(devices) && cacheKeys == old(cacheKeys)
      ensures ok ==> devices.at == old(devices.at) && cacheKeys.at == old(cacheKeys.at)
      ensures ok ==> devices.keys == Rekeyed(order, old(devices.at))
      ensures byName == old(byName) && byConfiguration == old(byConfiguration)
    {
      if exists p | p in devices.at :: p !in order {
        return false;
      }
      var keys := Rekey(order);
      RekeyCoherent(root, devices, cacheKeys, byName, byConfiguration, order);
      Assign(devices.(keys := keys), cacheKeys.(keys := keys), byName, byConfiguration);
      return true;
    }

    method Rekey(order: seq<Path>) returns (keys: seq<Path>)
      ensures keys == Rekeyed(order, devices.at)
    {
      keys := [];
      for i := 0 to |order|
        invariant keys == Rekeyed(order[..i], devices.at)
      {
        assert order[..i + 1][..i] == order[..i];
        if order[i] in devices.at && order[i] !in keys {
          keys := keys + [order[i]];
        }
      }
      assert order[..|order|] == order;
    }
  }
}
