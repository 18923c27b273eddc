/**
 The scanner on top of the device index (controllers/_device_scanner.py): what a
 scan or a forced reload does to the rows, and the change events it delivers.

 Scans and reloads run under one lock and only they write the index, so each is
 one method here.  The disk, the dependency stats and the loader are parameters.
 */
module DeviceScanner {
  import opened Optional
  import opened TextOrder
  import opened DeviceIndex

  // ----- Change events and the subscriber that folds them -----

  datatype Kind = Added | Updated | Removed | Reloaded

  datatype Event = Event(kind: Kind, device: Device, previous: Option<Device>)

  /** A subscriber's table by file name after one event. */
  function Receive(table: map<string, Device>, e: Event): map<string, Device> {
    if e.kind.Removed? then table - {e.device.configuration} else table[e.device.configuration := e.device]
  }

  function Fold(log: seq<Event>): map<string, Device> {
    if log == [] then map[] else Receive(Fold(log[..|log| - 1]), log[|log| - 1])
  }

  lemma FoldAppend(log: seq<Event>, e: Event)
    ensures Fold(log + [e]) == Receive(Fold(log), e)
  {
    assert (log + [e])[..|log|] == log;
  }

  // ----- Cache keys -----

  function KeyOf(stat: Stat, dependencies: seq<string>, depStat: string -> StatKey): CacheKey {
    CacheKey(stat.inode, stat.device, stat.mtime, stat.size,
             seq(|dependencies|, i requires 0 <= i < |dependencies| => depStat(dependencies[i])))
  }

  function WithDependencyKeys(key: CacheKey, dependencies: seq<StatKey>): CacheKey {
    key.(dependencies := dependencies)
  }

  /** The keys a scan computes: each listed file, with the dependencies its row is known to have. */
  function ScanKeys(disk: map<Path, Stat>, at: map<Path, Device>, depStat: string -> StatKey): map<Path, CacheKey> {
    map p | p in disk :: KeyOf(disk[p], if p in at then at[p].dependencies else [], depStat)
  }

  /** The paths a scan loads: new ones, and tracked ones whose key moved. */
  function ToLoad(at: map<Path, Device>, was: map<Path, CacheKey>, keys: map<Path, CacheKey>): set<Path> {
    set p | p in keys && (p !in at || p !in was || keys[p] != was[p])
  }

  // ----- Loading -----

  /** A loaded row and the stat keys of the dependencies it was read against. */
  datatype Row = Row(device: Device, dependencyKeys: seq<StatKey>)

  type Loader = Path -> Option<Row>

  ghost predicate NamesItsFile(load: Loader) {
    forall p :: load(p).Some? ==> load(p).value.device.configuration == p.name
  }

  /** The rows a scan ends with. */
  function RowsAfter(
    at: map<Path, Device>, was: map<Path, CacheKey>, keys: map<Path, CacheKey>, load: Loader): map<Path, Device>
  {
    map p | p in keys && (p in at || load(p).Some?) ::
      if p in ToLoad(at, was, keys) && load(p).Some? then load(p).value.device
      else if p in at then at[p] else load(p).value.device
  }

  function KeysAfter(
    at: map<Path, Device>, was: map<Path, CacheKey>, keys: map<Path, CacheKey>, load: Loader): map<Path, CacheKey>
  {
    map p | p in keys && (p in was || load(p).Some?) ::
      if p in ToLoad(at, was, keys) && load(p).Some? then WithDependencyKeys(keys[p], load(p).value.dependencyKeys)
      else if p in was then was[p] else keys[p]
  }

  /** `at` with every path of `done` that loads replaced by its loaded row. */
  function Landed(at: map<Path, Device>, done: set<Path>, load: Loader): map<Path, Device> {
    map p | p in at.Keys + done && (p in at || load(p).Some?) ::
      if p in done && load(p).Some? then load(p).value.device else if p in at then at[p] else load(p).value.device
  }

  function LandedKeys(
    was: map<Path, CacheKey>, done: set<Path>, keys: map<Path, CacheKey>, load: Loader): map<Path, CacheKey>
    requires done <= keys.Keys
  {
    map p | p in was.Keys + done && (p in was || load(p).Some?) ::
      if p in done && load(p).Some? then WithDependencyKeys(keys[p], load(p).value.dependencyKeys)
      else if p in was then was[p] else POISONED
  }

  function Loads(done: set<Path>, load: Loader): set<Path> {
    set p | p in done && load(p).Some?
  }

  lemma LandOne(at: map<Path, Device>, done: set<Path>, load: Loader, p: Path)
    requires p !in done
    ensures Landed(at, done + {p}, load)
            == if load(p).Some? then Landed(at, done, load)[p := load(p).value.device] else Landed(at, done, load)
    ensures Loads(done + {p}, load) == if load(p).Some? then Loads(done, load) + {p} else Loads(done, load)
  {
  }

  lemma LandedElsewhere(at: map<Path, Device>, done: set<Path>, load: Loader, p: Path)
    requires p !in done
    ensures p in Landed(at, done, load) <==> p in at
    ensures p in at ==> Landed(at, done, load)[p] == at[p]
  {
  }

  lemma LandedNothing(at: map<Path, Device>, was: map<Path, CacheKey>, keys: map<Path, CacheKey>, load: Loader)
    ensures Landed(at, {}, load) == at && LandedKeys(was, {}, keys, load) == was
  {
  }

  lemma LandOneKey(was: map<Path, CacheKey>, done: set<Path>, keys: map<Path, CacheKey>, load: Loader, p: Path)
    requires p !in done && done + {p} <= keys.Keys
    ensures var before := LandedKeys(was, done, keys, load);
            LandedKeys(was, done + {p}, keys, load)
            == if load(p).Some? then before[p := WithDependencyKeys(keys[p], load(p).value.dependencyKeys)] else before
  {
  }

  /** What one event of a scan says, given the rows before it. */
  ghost predicate Reports(root: string, at: map<Path, Device>, load: Loader, e: Event) {
    var p := Path(root, e.device.configuration);
    match e.kind
    case Added => p !in at && load(p).Some? && e.device == load(p).value.device && e.previous == None
    case Updated => p in at && load(p).Some? && e.device == load(p).value.device && e.previous == Some(at[p])
    case Removed => p in at && e.device == at[p] && e.previous == None
    case Reloaded => false
  }

  ghost predicate Tells(root: string, events: seq<Event>, p: Path, removed: bool) {
    exists i :: 0 <= i < |events| && Path(root, events[i].device.configuration) == p
      && events[i].kind.Removed? == removed
  }

  lemma TellsMore(root: string, events: seq<Event>, e: Event, p: Path, removed: bool)
    ensures Tells(root, events + [e], p, removed)
        <==> Tells(root, events, p, removed) || (Path(root, e.device.configuration) == p && e.kind.Removed? == removed)
  {
    if Tells(root, events, p, removed) {
      var i :| 0 <= i < |events| && Path(root, events[i].device.configuration) == p
        && events[i].kind.Removed? == removed;
      assert (events + [e])[i] == events[i];
    }
    assert (events + [e])[|events|] == e;
  }

  ghost predicate LandingTold(root: string, at: map<Path, Device>, done: set<Path>, load: Loader, events: seq<Event>) {
    && |events| == |Loads(done, load)|
    && (forall e | e in events ::
          !e.kind.Removed? && Reports(root, at, load, e) && Path(root, e.device.configuration) in Loads(done, load))
    && (forall p | p in Loads(done, load) :: Tells(root, events, p, false))
  }

  lemma LandingToldNext(
    root: string, at: map<Path, Device>, done: set<Path>, load: Loader, events: seq<Event>, p: Path, e: Event)
    requires LandingTold(root, at, done, load, events) && p !in done && load(p).Some?
    requires Path(root, e.device.configuration) == p && !e.kind.Removed? && Reports(root, at, load, e)
    ensures LandingTold(root, at, done + {p}, load, events + [e])
  {
    LandOne(at, done, load, p);
    forall q | q in Loads(done + {p}, load) ensures Tells(root, events + [e], q, false) {
      TellsMore(root, events, e, q, false);
    }
  }

  lemma LandingToldSkip(root: string, at: map<Path, Device>, done: set<Path>, load: Loader, events: seq<Event>, p: Path)
    requires LandingTold(root, at, done, load, events) && p !in done && load(p).None?
    ensures LandingTold(root, at, done + {p}, load, events)
  {
    LandOne(at, done, load, p);
  }

  lemma DropOneMore<V>(m: map<Path, V>, done: set<Path>, p: Path)
    ensures (m - done) - {p} == m - (done + {p})
  {
  }

  lemma OneMore(all: set<Path>, todo: set<Path>, p: Path)
    requires p in todo && todo <= all
    ensures all - (todo - {p}) == (all - todo) + {p} && p !in all - todo
  {
  }

  // Equalities of sets, maps and sequences, proved away from the heap.

  lemma NothingDone(all: set<Path>)
    ensures all - all == {}
  {
  }

  lemma NothingLeft(all: set<Path>)
    ensures all - {} == all
  {
  }

  lemma DropNothing<V>(m: map<Path, V>)
    ensures m - {} == m
  {
  }

  lemma SliceAppend(log: seq<Event>, e: Event, from: nat)
    requires from <= |log|
    ensures (log + [e])[from..] == log[from..] + [e]
  {
  }

  ghost predicate VanishTold(root: string, at: map<Path, Device>, done: set<Path>, events: seq<Event>) {
    && |events| == |done|
    && (forall e | e in events :: e.kind.Removed? && e.previous == None && Path(root, e.device.configuration) in done
          && Path(root, e.device.configuration) in at && e.device == at[Path(root, e.device.configuration)])
    && (forall p | p in done :: Tells(root, events, p, true))
  }

  lemma VanishToldNext(root: string, at: map<Path, Device>, done: set<Path>, events: seq<Event>, p: Path, e: Event)
    requires VanishTold(root, at, done, events) && p !in done && p in at && RowsAgree(root, at)
    requires e == Event(Removed, at[p], None)
    ensures VanishTold(root, at, done + {p}, events + [e])
  {
    assert Path(root, e.device.configuration) == p;
    forall q | q in done + {p} ensures Tells(root, events + [e], q, true) {
      TellsMore(root, events, e, q, true);
    }
  }

  /**
   What a scan tells its subscribers: one event for each row it loaded or dropped
   and no other, each true of the rows before the scan.
   */
  ghost predicate ScanTold(
    root: string, at: map<Path, Device>, toLoad: set<Path>, keys: map<Path, CacheKey>, load: Loader,
    events: seq<Event>)
  {
    && |events| == |Loads(toLoad, load)| + |at.Keys - keys.Keys|
    && (forall e | e in events :: Reports(root, at, load, e) && Owed(root, toLoad, keys, load, e))
    && (forall p | p in Loads(toLoad, load) :: Tells(root, events, p, false))
    && (forall p | p in at && p !in keys :: Tells(root, events, p, true))
  }

  /** The event is about a row the scan loaded or dropped. */
  ghost predicate Owed(root: string, toLoad: set<Path>, keys: map<Path, CacheKey>, load: Loader, e: Event) {
    var p := Path(root, e.device.configuration);
    if e.kind.Removed? then p !in keys else p in Loads(toLoad, load)
  }

  lemma RemovedStillThere(
    at: map<Path, Device>, toLoad: set<Path>, keys: map<Path, CacheKey>, load: Loader, mid: map<Path, Device>)
    requires toLoad <= keys.Keys && mid == Landed(at, toLoad, load)
    ensures at.Keys - keys.Keys <= mid.Keys
    ensures forall p | p in mid - (at.Keys - keys.Keys) :: p in keys
  {
  }

  lemma TellsAppend(root: string, a: seq<Event>, b: seq<Event>, p: Path, removed: bool)
    requires Tells(root, a, p, removed) || Tells(root, b, p, removed)
    ensures Tells(root, a + b, p, removed)
  {
    if Tells(root, a, p, removed) {
      var i :| 0 <= i < |a| && Path(root, a[i].device.configuration) == p && a[i].kind.Removed? == removed;
      assert (a + b)[i] == a[i];
    } else {
      var i :| 0 <= i < |b| && Path(root, b[i].device.configuration) == p && b[i].kind.Removed? == removed;
      assert (a + b)[|a| + i] == b[i];
    }
  }

  lemma VanishReports(
    root: string, at: map<Path, Device>, mid: map<Path, Device>, toLoad: set<Path>, keys: map<Path, CacheKey>,
    load: Loader, e: Event)
    requires toLoad <= keys.Keys && mid == Landed(at, toLoad, load)
    requires e.kind.Removed? && e.previous == None && Path(root, e.device.configuration) in at
             && Path(root, e.device.configuration) !in keys
    requires Path(root, e.device.configuration) in mid && e.device == mid[Path(root, e.device.configuration)]
    ensures Reports(root, at, load, e)
  {
  }

  lemma ScanToldJoin(
    root: string, at: map<Path, Device>, mid: map<Path, Device>, toLoad: set<Path>, keys: map<Path, CacheKey>,
    load: Loader,
                     a: seq<Event>, b: seq<Event>)
    requires toLoad <= keys.Keys && mid == Landed(at, toLoad, load)
    requires LandingTold(root, at, toLoad, load, a) && VanishTold(root, mid, at.Keys - keys.Keys, b)
    ensures ScanTold(root, at, toLoad, keys, load, a + b)
  {
    forall e | e in a + b ensures Reports(root, at, load, e) && Owed(root, toLoad, keys, load, e) {
      if e in b {
        VanishReports(root, at, mid, toLoad, keys, load, e);
      }
    }
    forall p | p in Loads(toLoad, load) ensures Tells(root, a + b, p, false) {
      TellsAppend(root, a, b, p, false);
    }
    forall p | p in at && p !in keys ensures Tells(root, a + b, p, true) {
      assert p in at.Keys - keys.Keys;
      TellsAppend(root, a, b, p, true);
    }
  }

  lemma LogSplit(log0: seq<Event>, log1: seq<Event>, log2: seq<Event>)
    requires log0 <= log1 && log1 <= log2
    ensures log0 <= log2 && log2[|log0|..] == log1[|log0|..] + log2[|log1|..]
  {
  }

  lemma SameKeys<V, W>(a: Dict<V>, b: Dict<W>)
    requires a.WellFormed() && b.WellFormed() && a.keys == b.keys
    ensures a.at.Keys == b.at.Keys
  {
    forall p ensures p in a.at <==> p in b.at {
      assert p in a.keys <==> p in b.keys;
    }
  }

  lemma NothingAdded(at: map<Path, Device>, was: map<Path, CacheKey>, keys: map<Path, CacheKey>)
    ensures keys.Keys - at.Keys == {} ==> ToLoad(at, was, keys) <= at.Keys
  {
    if keys.Keys - at.Keys == {} {
      forall p | p in ToLoad(at, was, keys) ensures p in at.Keys {
        assert p !in keys.Keys - at.Keys;
      }
    }
  }

  lemma ScanSetup(
    root: string, disk: map<Path, Stat>, at: map<Path, Device>, was: map<Path, CacheKey>, depStat: string -> StatKey,
    load: Loader)
    requires forall p | p in disk :: p.parent == root
    ensures var keys := ScanKeys(disk, at, depStat);
            && keys.Keys == disk.Keys
            && (forall p | p in ToLoad(at, was, keys) :: p.parent == root)
            && (forall p | p in RowsAfter(at, was, keys, load) :: p in disk)
  {
  }

  lemma RowsAndKeysAfter(at: map<Path, Device>, was: map<Path, CacheKey>, keys: map<Path, CacheKey>, load: Loader)
    requires at.Keys == was.Keys
    ensures RowsAfter(at, was, keys, load) == Landed(at, ToLoad(at, was, keys), load) - (at.Keys - keys.Keys)
    ensures KeysAfter(at, was, keys, load) == LandedKeys(was, ToLoad(at, was, keys), keys, load) - (at.Keys - keys.Keys)
  {
  }

  // ----- What a scan does about one file -----

  /** The cached key no longer describes the file: it was replaced or written, or a file its row was read with was. */
  ghost predicate Moved(stat: Stat, row: Device, key: CacheKey, depStat: string -> StatKey) {
    || key.inode != stat.inode || key.device != stat.device || key.mtime != stat.mtime || key.size != stat.size
    || |key.dependencies| != |row.dependencies|
    || exists i :: 0 <= i < |row.dependencies| && key.dependencies[i] != depStat(row.dependencies[i])
  }

  /** The key describes the file as it was listed, and the dependencies as they were read. */
  predicate Describes(key: CacheKey, stat: Stat, dependencies: seq<StatKey>) {
    && key.inode == stat.inode && key.device == stat.device && key.mtime == stat.mtime && key.size == stat.size
    && key.dependencies == dependencies
  }

  /** The events about the file are this one. */
  ghost predicate SaysOnly(root: string, events: seq<Event>, p: Path, e: Event) {
    e in events && forall o | o in events && Path(root, o.device.configuration) == p :: o == e
  }

  ghost predicate Silent(root: string, events: seq<Event>, p: Path) {
    forall o | o in events :: Path(root, o.device.configuration) != p
  }

  ghost predicate Unchanged(p: Path, at: map<Path, Device>, was: map<Path, CacheKey>, now: map<Path, Device>,
                            keys: map<Path, CacheKey>)
  {
    && (p in now <==> p in at) && (p in keys <==> p in was)
    && (p in at && p in now ==> now[p] == at[p]) && (p in was && p in keys ==> keys[p] == was[p])
  }

  /**
   What a scan makes of a path: a file that is gone loses its row; a tracked one that did not move is left alone;
   any other is loaded, and its row, its key and the subscribers follow unless the load fails.
   */
  ghost predicate Followed(
    root: string, p: Path, disk: map<Path, Stat>, depStat: string -> StatKey, load: Loader, at: map<Path, Device>,
    was: map<Path, CacheKey>, now: map<Path, Device>, keys: map<Path, CacheKey>, events: seq<Event>)
  {
    if p !in disk then
      p !in now && p !in keys && if p in at then SaysOnly(root, events, p, Event(Removed, at[p], None))
                                 else Silent(root, events, p)
    else if load(p).None? || (p in at && p in was && !Moved(disk[p], at[p], was[p], depStat)) then
      Unchanged(p, at, was, now, keys) && Silent(root, events, p)
    else
      && p in now && now[p] == load(p).value.device
      && p in keys && Describes(keys[p], disk[p], load(p).value.dependencyKeys)
      && SaysOnly(root, events, p,
        if p in at then Event(Updated, now[p], Some(at[p])) else Event(Added, now[p], None))
  }

  lemma MovedIsToLoad(
    disk: map<Path, Stat>, depStat: string -> StatKey, at: map<Path, Device>, was: map<Path, CacheKey>, p: Path)
    requires p in disk && p in at && p in was
    ensures p in ToLoad(at, was, ScanKeys(disk, at, depStat)) <==> Moved(disk[p], at[p], was[p], depStat)
  {
    var stat, deps := disk[p], at[p].dependencies;
    var key := KeyOf(stat, deps, depStat);
    if !Moved(stat, at[p], was[p], depStat) {
      assert was[p].dependencies == key.dependencies;
    }
  }

  /** The events about a path are just the one the scan owes it. */
  lemma ScanSays(
    root: string, p: Path, at: map<Path, Device>, toLoad: set<Path>, keys: map<Path, CacheKey>, load: Loader,
    events: seq<Event>)
    requires ScanTold(root, at, toLoad, keys, load, events) && toLoad <= keys.Keys
    ensures p in Loads(toLoad, load) && p in at ==>
              SaysOnly(root, events, p, Event(Updated, load(p).value.device, Some(at[p])))
    ensures p in Loads(toLoad, load) && p !in at ==>
              SaysOnly(root, events, p, Event(Added, load(p).value.device, None))
    ensures p !in keys && p in at ==> SaysOnly(root, events, p, Event(Removed, at[p], None))
    ensures p !in Loads(toLoad, load) && (p in keys || p !in at) ==> Silent(root, events, p)
  {
    if p in Loads(toLoad, load) {
      var i :| 0 <= i < |events| && Path(root, events[i].device.configuration) == p && !events[i].kind.Removed?;
      assert Reports(root, at, load, events[i]);
    } else if p in at && p !in keys {
      var i :| 0 <= i < |events| && Path(root, events[i].device.configuration) == p && events[i].kind.Removed?;
      assert Reports(root, at, load, events[i]);
    }
  }

  lemma ScanFollows(
    root: string, p: Path, disk: map<Path, Stat>, depStat: string -> StatKey, load: Loader, at: map<Path, Device>,
    was: map<Path, CacheKey>, events: seq<Event>)
    requires at.Keys == was.Keys && NamesItsFile(load) && RowsAgree(root, at)
    requires forall p | p in disk :: p.parent == root
    requires var keys := ScanKeys(disk, at, depStat);
             ScanTold(root, at, ToLoad(at, was, keys), keys, load, events)
    ensures var keys := ScanKeys(disk, at, depStat);
            Followed(root, p, disk, depStat, load, at, was, RowsAfter(at, was, keys, load),
                     KeysAfter(at, was, keys, load), events)
  {
    var keys := ScanKeys(disk, at, depStat);
    if p in disk && p in at {
      MovedIsToLoad(disk, depStat, at, was, p);
    }
    ScanSays(root, p, at, ToLoad(at, was, keys), keys, load, events);
  }

  lemma ScanFollowsAll(
    root: string, disk: map<Path, Stat>, depStat: string -> StatKey, load: Loader, at: map<Path, Device>,
    was: map<Path, CacheKey>, now: map<Path, Device>, after: map<Path, CacheKey>, events: seq<Event>)
    requires at.Keys == was.Keys && NamesItsFile(load) && RowsAgree(root, at)
    requires forall p | p in disk :: p.parent == root
    requires var keys := ScanKeys(disk, at, depStat);
             && ScanTold(root, at, ToLoad(at, was, keys), keys, load, events)
             && now == RowsAfter(at, was, keys, load) && after == KeysAfter(at, was, keys, load)
    ensures forall p :: Followed(root, p, disk, depStat, load, at, was, now, after, events)
  {
    forall p ensures Followed(root, p, disk, depStat, load, at, was, now, after, events) {
      ScanFollows(root, p, disk, depStat, load, at, was, events);
    }
  }

  // ----- The scanner -----

  lemma KeysAreRows(root: string, devices: Dict<Device>, filename: string)
    requires devices.WellFormed() && RowsAgree(root, devices.at)
    ensures forall i | 0 <= i < |devices.keys| ::
            devices.keys[i] == Path(root, devices.keys[i].name) && devices.keys[i] in devices.at
    ensures Path(root, filename) in devices.at ==>
            exists i :: 0 <= i < |devices.keys| && devices.keys[i].name == filename
  {
    forall i | 0 <= i < |devices.keys|
      ensures devices.keys[i] == Path(root, devices.keys[i].name) && devices.keys[i] in devices.at
    {
      assert devices.keys[i] in devices.keys;
    }
    if Path(root, filename) in devices.at {
      var i :| 0 <= i < |devices.keys| && devices.keys[i] == Path(root, filename);
      assert devices.keys[i].name == filename;
    }
  }

  method FirstNamed(keys: seq<Path>, filename: string) returns (path: Option<Path>)
    ensures path.None? ==> forall i | 0 <= i < |keys| :: keys[i].name != filename
    ensures path.Some? ==> path.value.name == filename && exists i :: 0 <= i < |keys| && keys[i] == path.value
  {
    for i := 0 to |keys|
      invariant forall j :: 0 <= j < i ==> keys[j].name != filename
    {
      if keys[i].name == filename {
        return Some(keys[i]);
      }
    }
    return None;
  }

  class Scanner {
    const index: Index
    var log: seq<Event>

    /** The index is in lockstep, and whoever folded every event so far holds exactly its rows. */
    ghost predicate Valid()
      reads this, index
    {
      index.Valid() && ConfigurationsAgree(index.root, index.devices.at, Fold(log))
    }

    constructor (root: string)
      ensures Valid() && fresh(index) && index.root == root && log == []
      ensures index.devices == Dict([], map[])
    {
      index := new Index(root);
      log := [];
    }

    method Notify(e: Event)
      modifies this`log
      ensures log == old(log) + [e]
      ensures Fold(log) == Receive(old(Fold(log)), e)
    {
      FoldAppend(log, e);
      log := log + [e];
    }

    /** One loaded row: into the index, then out to the subscribers. */
    method Land(path: Path, row: Row, key: CacheKey, kind: Kind)
      requires Valid() && path == Path(index.root, row.device.configuration) && !kind.Removed?
      modifies this, index
      ensures Valid()
      ensures index.devices == old(index.devices).Put(path, row.device)
      ensures index.cacheKeys == old(index.cacheKeys).Put(path, key)
      ensures log == old(log) + [Event(kind, row.device,
              if path in old(index.devices.at) then Some(old(index.devices.at[path])) else None)]
    {
      var previous := if path in index.devices.at then Some(index.devices.at[path]) else None;
      ShadowsAfterPut(index.root, index.devices.at, Fold(log), path, row.device);
      index.Set(path, row.device, key);
      Notify(Event(kind, row.device, previous));
    }

    /** One vanished row: out of the index, then out to the subscribers. */
    method Vanish(path: Path)
      requires Valid() && path in index.devices.at
      modifies this, index
      ensures Valid()
      ensures index.devices == old(index.devices).Drop(path) && index.cacheKeys == old(index.cacheKeys).Drop(path)
      ensures log == old(log) + [Event(Removed, old(index.devices.at[path]), None)]
    {
      ShadowsAfterDrop(index.root, index.devices.at, Fold(log), path);
      var device := index.Pop(path);
      Notify(Event(Removed, device.value, None));
    }

    /** How far `LandAll` is once it has gone through `done`, counted from the rows and events it started with. */
    ghost predicate Landing(start: Dict<Device>, was: map<Path, CacheKey>, log0: seq<Event>, done: set<Path>,
                            keys: map<Path, CacheKey>, load: Loader)
      requires done <= keys.Keys
      reads this, index
    {
      && index.devices.at == Landed(start.at, done, load)
      && index.cacheKeys.at == LandedKeys(was, done, keys, load)
      && (done <= start.at.Keys ==> index.devices.keys == start.keys)
      && log0 <= log
      && LandingTold(index.root, start.at, done, load, log[|log0|..])
    }

    method LandOnePath(
      p: Path, ghost start: Dict<Device>, ghost was: map<Path, CacheKey>, ghost log0: seq<Event>, ghost done: set<Path>,
                       keys: map<Path, CacheKey>, load: Loader)
      requires Valid() && NamesItsFile(load) && p.parent == index.root
      requires p !in done && done + {p} <= keys.Keys && Landing(start, was, log0, done, keys, load)
      modifies this, index
      ensures Valid() && Landing(start, was, log0, done + {p}, keys, load)
    {
      LandOne(start.at, done, load, p);
      LandOneKey(was, done, keys, load, p);
      ghost var events := log[|log0|..];
      var loaded := load(p);
      if loaded.Some? {
        var row := loaded.value;
        LandedElsewhere(start.at, done, load, p);
        var known := p in index.devices.at;
        ghost var e := Event(
          if known then Updated else Added, row.device, if known then Some(index.devices.at[p]) else None);
        SliceAppend(log, e, |log0|);
        LandingToldNext(index.root, start.at, done, load, events, p, e);
        Land(p, row, WithDependencyKeys(keys[p], row.dependencyKeys), if known then Updated else Added);
      } else {
        LandingToldSkip(index.root, start.at, done, load, events, p);
      }
    }

    /** Load every path of `toLoad` in some order; a failed load changes nothing and says nothing. */
    method LandAll(toLoad: set<Path>, keys: map<Path, CacheKey>, load: Loader)
      requires Valid() && toLoad <= keys.Keys && NamesItsFile(load)
      requires forall p | p in toLoad :: p.parent == index.root
      modifies this, index
      ensures Valid() && Landing(old(index.devices), old(index.cacheKeys.at), old(log), toLoad, keys, load)
    {
      ghost var start, was, log0 := index.devices, index.cacheKeys.at, log;
      var todo := toLoad;
      LandedNothing(start.at, was, keys, load);
      NothingDone(toLoad);
      while todo != {}
        invariant Valid() && todo <= toLoad
        invariant Landing(start, was, log0, toLoad - todo, keys, load)
        decreases todo
      {
        var p: Path :| p in todo;
        OneMore(toLoad, todo, p);
        LandOnePath(p, start, was, log0, toLoad - todo, keys, load);
        todo := todo - {p};
      }
      NothingLeft(toLoad);
    }

    ghost predicate Vanishing(start: Dict<Device>, was: map<Path, CacheKey>, log0: seq<Event>, done: set<Path>)
      requires done <= start.at.Keys
      reads this, index
    {
      && index.devices.at == start.at - done
      && index.cacheKeys.at == was - done
      && (done == {} ==> index.devices.keys == start.keys)
      && log0 <= log
      && VanishTold(index.root, start.at, done, log[|log0|..])
    }

    method VanishOnePath(
      p: Path, ghost start: Dict<Device>, ghost was: map<Path, CacheKey>, ghost log0: seq<Event>, ghost done: set<Path>)
      requires Valid() && RowsAgree(index.root, start.at)
      requires p !in done && done + {p} <= start.at.Keys && Vanishing(start, was, log0, done)
      modifies this, index
      ensures Valid() && Vanishing(start, was, log0, done + {p})
    {
      ghost var events := log[|log0|..];
      ghost var e := Event(Removed, start.at[p], None);
      DropOneMore(start.at, done, p);
      DropOneMore(was, done, p);
      SliceAppend(log, e, |log0|);
      VanishToldNext(index.root, start.at, done, events, p, e);
      Vanish(p);
    }

    method VanishAll(gone: set<Path>)
      requires Valid() && gone <= index.devices.at.Keys
      modifies this, index
      ensures Valid() && Vanishing(old(index.devices), old(index.cacheKeys.at), old(log), gone)
    {
      ghost var start, was, log0 := index.devices, index.cacheKeys.at, log;
      var todo := gone;
      NothingDone(gone);
      DropNothing(start.at);
      DropNothing(was);
      while todo != {}
        invariant Valid() && todo <= gone
        invariant Vanishing(start, was, log0, gone - todo)
        decreases todo
      {
        var p: Path :| p in todo;
        OneMore(gone, todo, p);
        VanishOnePath(p, start, was, log0, gone - todo);
        todo := todo - {p};
      }
      NothingLeft(gone);
    }

    /** The two passes of a scan: load what moved, then drop what is gone. */
    method LandAndVanish(keys: map<Path, CacheKey>, toLoad: set<Path>, removed: set<Path>, load: Loader)
      requires Valid() && NamesItsFile(load)
      requires toLoad == ToLoad(index.devices.at, index.cacheKeys.at, keys)
               && removed == index.devices.at.Keys - keys.Keys
      requires forall p | p in toLoad :: p.parent == index.root
      modifies this, index
      ensures Valid()
      ensures index.devices.at == RowsAfter(old(index.devices.at), old(index.cacheKeys.at), keys, load)
      ensures index.cacheKeys.at == KeysAfter(old(index.devices.at), old(index.cacheKeys.at), keys, load)
      ensures keys.Keys - old(index.devices.at).Keys == {} && removed == {} ==>
              index.devices.keys == old(index.devices.keys)
      ensures old(log) <= log && ScanTold(index.root, old(index.devices.at), toLoad, keys, load, log[|old(log)|..])
    {
      ghost var start, was, log0 := index.devices, index.cacheKeys.at, log;
      SameKeys(index.devices, index.cacheKeys);
      NothingAdded(start.at, was, keys);
      RowsAndKeysAfter(start.at, was, keys, load);
      LandAll(toLoad, keys, load);
      ghost var mid, log1 := index.devices, log;
      RemovedStillThere(start.at, toLoad, keys, load, mid.at);
      VanishAll(removed);
      LogSplit(log0, log1, log);
      ScanToldJoin(index.root, start.at, mid.at, toLoad, keys, load, log1[|log0|..], log[|log1|..]);
    }

    /** One scan of the directory listing `disk`. */
    method Scan(disk: Dict<Stat>, depStat: string -> StatKey, load: Loader)
      requires Valid() && disk.WellFormed() && NamesItsFile(load)
      requires forall p | p in disk.at :: p.parent == index.root
      modifies this, index
      ensures Valid()
      ensures var keys := ScanKeys(disk.at, old(index.devices.at), depStat);
              && index.devices.at == RowsAfter(old(index.devices.at), old(index.cacheKeys.at), keys, load)
              && index.cacheKeys.at == KeysAfter(old(index.devices.at), old(index.cacheKeys.at), keys, load)
      ensures var keys := ScanKeys(disk.at, old(index.devices.at), depStat);
              && old(log) <= log
              && ScanTold(index.root, old(index.devices.at),
                ToLoad(old(index.devices.at), old(index.cacheKeys.at), keys), keys, load, log[|old(log)|..])
      ensures forall p :: Followed(index.root, p, disk.at, depStat, load, old(index.devices.at),
                                   old(index.cacheKeys.at), index.devices.at, index.cacheKeys.at, log[|old(log)|..])
      ensures SortedPaths(disk.keys) && SortedPaths(old(index.devices.keys)) ==> SortedPaths(index.devices.keys)
      ensures disk.at.Keys == old(index.devices.at).Keys ==> index.devices.keys == old(index.devices.keys)
    {
      ghost var at, was, told := index.devices.at, index.cacheKeys.at, log;
      SameKeys(index.devices, index.cacheKeys);
      var keys := ScanKeys(disk.at, index.devices.at, depStat);
      var toLoad := ToLoad(index.devices.at, index.cacheKeys.at, keys);
      var removed, added := index.devices.at.Keys - keys.Keys, keys.Keys - index.devices.at.Keys;
      ScanSetup(index.root, disk.at, index.devices.at, index.cacheKeys.at, depStat, load);
      var changed := added != {} || removed != {};
      LandAndVanish(keys, toLoad, removed, load);
      ScanFollowsAll(index.root, disk.at, depStat, load, at, was, index.devices.at, index.cacheKeys.at, log[|told|..]);
      Reorder(disk, changed);
    }

    /** The end of a scan: re-key in listing order when rows came or went.  Never refused. */
    method Reorder(disk: Dict<Stat>, changed: bool)
      requires Valid() && disk.WellFormed()
      requires forall p | p in index.devices.at :: p in disk.at
      modifies index
      ensures Valid()
      ensures index.devices.at == old(index.devices.at) && index.cacheKeys.at == old(index.cacheKeys.at)
      ensures changed && SortedPaths(disk.keys) ==> SortedPaths(index.devices.keys)
      ensures !changed ==> index.devices.keys == old(index.devices.keys)
    {
      if changed {
        RekeyedHolds(disk.keys, index.devices.at);
        var ok := index.RebuildInPathOrder(disk.keys);
        assert ok;
      }
    }

    method FindPathByFilename(filename: string) returns (path: Option<Path>)
      requires Valid()
      ensures path == if Path(index.root, filename) in index.devices.at then Some(Path(index.root, filename)) else None
    {
      KeysAreRows(index.root, index.devices, filename);
      path := FirstNamed(index.devices.keys, filename);
    }

    /** What a reload leaves: untouched, poisoned, or refreshed rows and keys, and the row's event when it changed. */
    ghost predicate LeftByReload(
      p: Path, loaded: Option<Row>, stat: Option<Stat>, rows: Dict<Device>, keys: Dict<CacheKey>, told: seq<Event>)
      reads this, index
      requires p in rows.at ==> p in keys.at
    {
      if p !in rows.at then index.devices == rows && index.cacheKeys == keys && log == told
      else if loaded.None? then index.devices.at == rows.at && index.cacheKeys == keys.Put(p, POISONED) && log == told
      else
        && index.devices == rows.Put(p, loaded.value.device)
        && index.cacheKeys == keys.Put(p, ReloadKey(keys.at[p], loaded.value, stat))
        && log == if loaded.value.device != rows.at[p]
                  then told + [Event(Reloaded, loaded.value.device, Some(rows.at[p]))] else told
    }

    /** Force one file to be read again; `loaded` and `stat` are what the loader and the re-stat came back with. */
    method Reload(filename: string, loaded: Option<Row>, stat: Option<Stat>) returns (reloaded: bool)
      requires Valid() && (loaded.Some? ==> loaded.value.device.configuration == filename)
      modifies this, index
      ensures Valid()
      ensures var p := Path(index.root, filename);
              && (p in old(index.devices.at) ==> p in old(index.cacheKeys.at))
              && reloaded == (p in old(index.devices.at) && loaded.Some?)
              && LeftByReload(p, loaded, stat, old(index.devices), old(index.cacheKeys), old(log))
    {
      SameKeys(index.devices, index.cacheKeys);
      var path := FindPathByFilename(filename);
      if path.None? {
        return false;
      }
      if loaded.None? {
        Poison(path.value);
        return false;
      }
      RefreshAfterReload(path.value, loaded.value, stat);
      return true;
    }

    method RefreshAfterReload(p: Path, row: Row, stat: Option<Stat>)
      requires Valid() && p in index.devices.at && p == Path(index.root, row.device.configuration)
      modifies this, index
      ensures Valid()
      ensures index.devices == old(index.devices).Put(p, row.device) && p in old(index.cacheKeys.at)
      ensures index.cacheKeys == old(index.cacheKeys).Put(p, ReloadKey(old(index.cacheKeys.at[p]), row, stat))
      ensures log == if row.device != old(index.devices.at)[p]
                     then old(log) + [Event(Reloaded, row.device, Some(old(index.devices.at)[p]))] else old(log)
    {
      SameKeys(index.devices, index.cacheKeys);
      Refresh(p, row, ReloadKey(index.cacheKeys.at[p], row, stat));
    }

    /** A failed reload keeps the row and marks its key unmatchable. */
    method Poison(p: Path)
      requires Valid() && p in index.devices.at
      modifies index
      ensures Valid()
      ensures index.devices.at == old(index.devices.at) && index.cacheKeys == old(index.cacheKeys).Put(p, POISONED)
    {
      Rekey(p, POISONED);
    }

    /** A successful reload replaces row and key, and speaks only when the row differs. */
    method Refresh(p: Path, row: Row, key: CacheKey)
      requires Valid() && p in index.devices.at && p == Path(index.root, row.device.configuration)
      modifies this, index
      ensures Valid()
      ensures index.devices == old(index.devices).Put(p, row.device)
              && index.cacheKeys == old(index.cacheKeys).Put(p, key)
      ensures log == if row.device != old(index.devices.at)[p]
                     then old(log) + [Event(Reloaded, row.device, Some(old(index.devices.at)[p]))] else old(log)
    {
      if row.device != index.devices.at[p] {
        Land(p, row, key, Reloaded);
      } else {
        Rekey(p, key);
      }
    }

    /** The same row under a new key. */
    method Rekey(p: Path, key: CacheKey)
      requires Valid() && p in index.devices.at
      modifies index
      ensures Valid()
      ensures index.devices == old(index.devices).Put(p, old(index.devices.at)[p])
              && index.devices.at == old(index.devices.at)
      ensures index.cacheKeys == old(index.cacheKeys).Put(p, key)
    {
      SameRow(index.devices.at, p);
      index.Set(p, index.devices.at[p], key);
    }
  }

  /** The key a successful reload stores: the fresh stat, or the old key when the file is gone by then. */
  function ReloadKey(previous: CacheKey, row: Row, stat: Option<Stat>): CacheKey {
    match stat
    case Some(s) => CacheKey(s.inode, s.device, s.mtime, s.size, row.dependencyKeys)
    case None => WithDependencyKeys(previous, row.dependencyKeys)
  }

  lemma SameRow(at: map<Path, Device>, p: Path)
    requires p in at
    ensures at[p := at[p]] == at
  {
  }

  // ----- Rescans -----

  /** A row carries the dependency stats that held when it was read. */
  ghost predicate ReadAgainst(row: Row, depStat: string -> StatKey) {
    row.dependencyKeys == seq(|row.device.dependencies|,
      i requires 0 <= i < |row.device.dependencies| => depStat(row.device.dependencies[i]))
  }

  /**
   Scanning again with nothing changed on disk loads exactly the files whose load
   failed the first time, and drops nothing: after an all-successful scan it loads nothing.
   */
  lemma RescanLoadsFailures(
    disk: map<Path, Stat>, depStat: string -> StatKey, at: map<Path, Device>, was: map<Path, CacheKey>, load: Loader)
    requires at.Keys == was.Keys
    requires forall p | load(p).Some? :: ReadAgainst(load(p).value, depStat)
    ensures var keys := ScanKeys(disk, at, depStat);
            var at', was' := RowsAfter(at, was, keys, load), KeysAfter(at, was, keys, load);
            var keys' := ScanKeys(disk, at', depStat);
            && ToLoad(at', was', keys') == (set p | p in ToLoad(at, was, keys) && load(p).None?)
            && at'.Keys - keys'.Keys == {}
  {
    var keys := ScanKeys(disk, at, depStat);
    var at', was' := RowsAfter(at, was, keys, load), KeysAfter(at, was, keys, load);
    forall p | p in disk {
      RescanPath(disk, depStat, at, was, load, p);
    }
    RowsStayListed(at, was, keys, load);
  }

  lemma RowsStayListed(at: map<Path, Device>, was: map<Path, CacheKey>, keys: map<Path, CacheKey>, load: Loader)
    ensures RowsAfter(at, was, keys, load).Keys - keys.Keys == {}
  {
  }

  lemma RescanPath(
    disk: map<Path, Stat>, depStat: string -> StatKey, at: map<Path, Device>, was: map<Path, CacheKey>, load: Loader,
    p: Path)
    requires at.Keys == was.Keys && p in disk
    requires load(p).Some? ==> ReadAgainst(load(p).value, depStat)
    ensures var keys := ScanKeys(disk, at, depStat);
            var at', was' := RowsAfter(at, was, keys, load), KeysAfter(at, was, keys, load);
            p in ToLoad(at', was', ScanKeys(disk, at', depStat)) <==> p in ToLoad(at, was, keys) && load(p).None?
  {
    var keys := ScanKeys(disk, at, depStat);
    var at', was' := RowsAfter(at, was, keys, load), KeysAfter(at, was, keys, load);
    var keys' := ScanKeys(disk, at', depStat);
    if p in ToLoad(at, was, keys) && load(p).Some? {
      assert at'[p] == load(p).value.device;
      assert keys'[p] == was'[p];
    } else if p in at {
      assert at'[p] == at[p] && was'[p] == was[p] && keys'[p] == keys[p];
    }
  }

  /** With nothing to load and nothing gone, a scan neither changes a row nor says anything. */
  lemma QuietScan(
    root: string, at: map<Path, Device>, was: map<Path, CacheKey>, keys: map<Path, CacheKey>, load: Loader,
    events: seq<Event>)
    requires at.Keys == was.Keys && ToLoad(at, was, keys) == {} && at.Keys - keys.Keys == {}
    requires ScanTold(root, at, ToLoad(at, was, keys), keys, load, events)
    ensures events == [] && RowsAfter(at, was, keys, load) == at && KeysAfter(at, was, keys, load) == was
  {
    assert Loads({}, load) == {};
    forall p ensures p in keys <==> p in at {
      assert p !in at.Keys - keys.Keys;
      assert p !in ToLoad(at, was, keys);
    }
  }

  /**
   After a reload against the dependencies as they stand, a scan leaves the file alone unless it changed since
   the re-stat, or, when there was none to be had, since the key the row had before.
   */
  lemma ReloadSettles(previous: CacheKey, row: Row, stat: Option<Stat>, disk: Stat, depStat: string -> StatKey)
    requires ReadAgainst(row, depStat)
    ensures Moved(disk, row.device, ReloadKey(previous, row, stat), depStat) <==>
              match stat
              case Some(s) => s != disk
              case None => previous.inode != disk.inode || previous.device != disk.device
                             || previous.mtime != disk.mtime || previous.size != disk.size
  {
  }

  /**
   A row whose last reload failed is read again by every scan that still lists its file,
   whatever its dependencies' stats.
   */
  lemma PoisonedIsReread(
    disk: map<Path, Stat>, depStat: string -> StatKey, at: map<Path, Device>, was: map<Path, CacheKey>, p: Path,
    row: Row)
    requires p in disk && p in was
    requires was[p] == POISONED || was[p] == ReloadKey(POISONED, row, None)
    ensures p in ToLoad(at, was, ScanKeys(disk, at, depStat))
  {
  }
}
