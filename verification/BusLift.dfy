/**
 Lifting the buses a component depends on (script/sync_esphome_devices.py).

 A bus is found by `(domain, id)` or, for the sole block of a domain, by
 `(domain, none)`.  Lifting one lifts the buses it rides on in turn; a memo of
 lifted keys, written before the recursion, makes cyclic dependencies end.
 */
module BusLift {
  import opened Lists
  import opened Optional
  import opened LocalIds

  // ----- The page -----

  type Fields = map<string, string>

  /**
   A top-level block: its `id:`, its `platform:`, whether it has a `pin`, its
   `<bus>_id` references, the `@0x..` reference its I2C address (or its component's
   default address) answers to, and what field extraction makes of it (nothing when unrepresentable).
   */
  datatype Block = Block(id: Option<string>, platform: Option<string>, pinned: bool, refs: map<string, string>,
                         address: Option<string>, presets: Option<Fields>)

  /** A key with a null body, or its mapping blocks. */
  datatype Raw = Bare | Blocks(blocks: seq<Block>)

  datatype Component = Component(dependencies: seq<string>, category: string)

  datatype Page = Page(config: map<string, Raw>, index: map<string, Component>, sanitize: string -> string)

  type Key = (string, Option<string>)

  /** A block of the page, by position. */
  datatype Slot = Slot(domain: string, at: nat)

  const EMPTY := Block(None, None, false, map[], None, Some(map[]))

  const BUS_CATEGORIES := {"bus", "one_wire", "canbus"}

  const SKIPPED_FIELDS := {"platform", "id", "name"}

  function Nonempty(s: Option<string>): Option<string> {
    if s == Some("") then None else s
  }

  function FirstWithId(blocks: seq<Block>, id: string): (at: nat)
    ensures at <= |blocks|
    ensures at < |blocks| ==> blocks[at].id == Some(id)
    ensures forall i | 0 <= i < at :: blocks[i].id != Some(id)
  {
    if blocks == [] || blocks[0].id == Some(id) then 0 else 1 + FirstWithId(blocks[1..], id)
  }

  /** The id-matched block, else the sole block. */
  function SelectBlock(p: Page, domain: string, instance: Option<string>): Option<Slot> {
    if domain !in p.config then None
    else
      match p.config[domain]
      case Bare => if instance.None? then Some(Slot(domain, 0)) else None
      case Blocks(blocks) =>
        if instance.None? then
          if |blocks| == 1 then Some(Slot(domain, 0)) else None
        else
          var at := FirstWithId(blocks, instance.value);
          if at < |blocks| then Some(Slot(domain, at)) else None
  }

  predicate OnPage(p: Page, s: Slot) {
    s.domain in p.config && (p.config[s.domain].Bare? || s.at < |p.config[s.domain].blocks|)
  }

  function BlockAt(p: Page, s: Slot): Block
    requires OnPage(p, s)
  {
    if p.config[s.domain].Bare? then EMPTY else p.config[s.domain].blocks[s.at]
  }

  function BlockPlatform(domain: string, b: Block): Option<string> {
    if Nonempty(b.platform).None? && domain == "one_wire" && b.pinned then Some("gpio") else Nonempty(b.platform)
  }

  function ComponentId(p: Page, domain: string, b: Block): Option<string> {
    if domain in p.index then Some(domain)
    else
      var platform := BlockPlatform(domain, b);
      if platform.Some? && domain + "." + platform.value in p.index then Some(domain + "." + platform.value) else None
  }

  function Extracted(b: Block): Option<Fields> {
    match b.presets
    case None => None
    case Some(fields) => Some(map k | k in fields && k !in SKIPPED_FIELDS :: fields[k])
  }

  // ----- Entries -----

  datatype Entry = Entry(id: string, component: string, fields: Fields, needs: seq<string>)

  /** The bus entry for a key, still without its local id; none when the page cannot supply it. */
  function Materialize(p: Page, key: Key): Option<Entry> {
    var slot := SelectBlock(p, key.0, key.1);
    if slot.None? then None
    else
      var block := BlockAt(p, slot.value);
      var cid := ComponentId(p, key.0, block);
      if cid.None? || (p.index[cid.value].category !in BUS_CATEGORIES && p.index[cid.value].category != key.0) then None
      else
        var fields := Extracted(block);
        if fields.None? then None
        else
          var id := Nonempty(block.id);
          Some(Entry("", cid.value, if id.Some? then fields.value["id" := id.value] else fields.value, []))
  }

  predicate Liftable(p: Page, key: Key) {
    Materialize(p, key).Some?
  }

  /** The block a key names: the first with its id; without one, the only block, or a key with a null body. */
  ghost predicate NamesBlock(p: Page, key: Key, at: nat) {
    && key.0 in p.config
    && match p.config[key.0]
       case Bare => key.1.None? && at == 0
       case Blocks(blocks) =>
         && at < |blocks|
         && (key.1.None? ==> |blocks| == 1)
         && (key.1.Some? ==> blocks[at].id == key.1 && forall i | 0 <= i < at :: blocks[i].id != key.1)
  }

  /** A bare `one_wire` pin is driven by gpio. */
  predicate HasPlatform(domain: string, b: Block, platform: string) {
    platform != "" && (b.platform == Some(platform)
      || (platform == "gpio" && domain == "one_wire" && b.pinned && b.platform in {None, Some("")}))
  }

  /** The catalog knows the block's component: its domain, else the domain's platform. */
  predicate IsComponentOf(p: Page, domain: string, b: Block, component: string) {
    component in p.index
    && (component == domain
        || (domain !in p.index && exists platform <- {"gpio"} + (if b.platform.Some? then {b.platform.value} else {}) ::
              HasPlatform(domain, b, platform) && component == domain + "." + platform))
  }

  /**
   The page supplies a bus for a key if and only if the key names a block, the catalog has a bus, or a
   provider of the domain itself, for that block, and the block's fields can be presented.
   */
  lemma LiftableIff(p: Page, key: Key, at: nat, component: string)
    ensures Liftable(p, key) && SlotOf(p, key) == Slot(key.0, at)
            && Materialize(p, key).value.component == component
            <==>
            && NamesBlock(p, key, at)
            && IsComponentOf(p, key.0, BlockAt(p, Slot(key.0, at)), component)
            && p.index[component].category in {"bus", "one_wire", "canbus", key.0}
            && BlockAt(p, Slot(key.0, at)).presets.Some?
  {
  }

  function SlotOf(p: Page, key: Key): Slot
    requires Liftable(p, key)
  {
    SelectBlock(p, key.0, key.1).value
  }

  function BlockOf(p: Page, key: Key): Block
    requires Liftable(p, key)
  {
    BlockAt(p, SlotOf(p, key))
  }

  /** A sole block is the same block by its id or by no id. */
  lemma SoleBlockById(p: Page, domain: string, id: string)
    requires SelectBlock(p, domain, None).Some? && BlockAt(p, SelectBlock(p, domain, None).value).id == Some(id)
    ensures SelectBlock(p, domain, Some(id)) == SelectBlock(p, domain, None)
    ensures Materialize(p, (domain, Some(id))) == Materialize(p, (domain, None))
  {
    assert p.config[domain].blocks[0].id == Some(id);
    assert FirstWithId(p.config[domain].blocks, id) == 0;
  }

  lemma NamesItsBlock(p: Page, key: Key)
    requires Liftable(p, key)
    ensures SlotOf(p, key).domain == key.0 && NamesBlock(p, key, SlotOf(p, key).at)
  {
    LiftableIff(p, key, SlotOf(p, key).at, Materialize(p, key).value.component);
  }

  // ----- Lookup -----

  type Memo = map<Key, string>

  /** Under its own key, or, for a reference without an id, under the sole block's id. */
  function Lookup(p: Page, bus: Memo, key: Key): Option<string> {
    if key in bus then Some(bus[key])
    else if key.1.Some? then None
    else
      var slot := SelectBlock(p, key.0, None);
      if slot.Some? && BlockAt(p, slot.value).id.Some? && (key.0, BlockAt(p, slot.value).id) in bus
      then Some(bus[(key.0, BlockAt(p, slot.value).id)])
      else None
  }

  /** Every key the memo resolves, it keeps resolving the same way, by its own key or not as before. */
  ghost predicate Grows(p: Page, before: Memo, after: Memo) {
    && before.Keys <= after.Keys
    && forall key: Key :: Lookup(p, before, key).Some? ==>
         Lookup(p, after, key) == Lookup(p, before, key) && (key in after ==> key in before)
  }

  /** The memo after a bus is lifted for `key`: also under the block's id. */
  function Register(p: Page, bus: Memo, key: Key, local: string): Memo
    requires Liftable(p, key)
  {
    var id := Nonempty(BlockOf(p, key).id);
    if id.Some? && (key.0, id) != key then bus[key := local][(key.0, id) := local] else bus[key := local]
  }

  /** The page supplies a dependency through an already featured bus or a block it can lift. */
  predicate Supplied(p: Page, seeded: Memo, key: Key) {
    Lookup(p, seeded, key).Some? || Liftable(p, key)
  }

  /** Whatever the memo resolves, the page supplies. */
  ghost predicate Sound(p: Page, seeded: Memo, bus: Memo) {
    forall key: Key :: Lookup(p, bus, key).Some? ==> Supplied(p, seeded, key)
  }

  lemma RegisterResolves(p: Page, bus: Memo, key: Key, local: string)
    requires Liftable(p, key) && Lookup(p, bus, key).None? && key.1 != Some("")
    ensures Grows(p, bus, Register(p, bus, key, local))
    ensures Lookup(p, Register(p, bus, key, local), key) == Some(local)
    ensures var id := Nonempty(BlockOf(p, key).id);
            id.Some? ==> Lookup(p, Register(p, bus, key, local), (key.0, id)) == Some(local)
  {
    var after := Register(p, bus, key, local);
    forall other: Key | Lookup(p, bus, other).Some?
      ensures Lookup(p, after, other) == Lookup(p, bus, other) && (other in after ==> other in bus) {
    }
  }

  lemma RegisterSound(p: Page, seeded: Memo, bus: Memo, key: Key, local: string)
    requires Liftable(p, key) && Lookup(p, bus, key).None? && key.1 != Some("") && Sound(p, seeded, bus)
    ensures Sound(p, seeded, Register(p, bus, key, local))
  {
    var after := Register(p, bus, key, local);
    forall other: Key | Lookup(p, after, other).Some? ensures Supplied(p, seeded, other) {
      if Lookup(p, bus, other).None? {
        var id := BlockOf(p, key).id;
        if key.1.None? && id.Some? {
          SoleBlockById(p, key.0, id.value);
        }
        if other.1.None? && other != key {
          var slot := SelectBlock(p, other.0, None);
          SoleBlockById(p, other.0, BlockAt(p, slot.value).id.value);
        }
      }
    }
  }

  lemma GrowsTransitive(p: Page, a: Memo, b: Memo, c: Memo)
    requires Grows(p, a, b) && Grows(p, b, c)
    ensures Grows(p, a, c)
  {
  }

  // ----- What the lift state keeps -----

  /** The inputs of one pass: the page, the local ids already featured, and the memo seeded from them. */
  datatype Start = Start(page: Page, featured: set<string>, seeded: Memo)

  /** The entry at position `at` was lifted for `key`. */
  datatype Lift = Lift(at: nat, key: Key)

  /** `lifts` and `hubs` are history: which entries are lifted buses, and which positions hold hubs. */
  datatype Lifted = Lifted(used: set<string>, bus: Memo, extra: seq<Entry>, lifts: seq<Lift>, hubs: set<int>)

  ghost predicate Ships(s: Start, v: Lifted, id: string) {
    id in s.featured || exists i :: 0 <= i < |v.extra| && v.extra[i].id == id
  }

  /** Every new entry has a local id of its own. */
  ghost predicate FreshIds(s: Start, v: Lifted) {
    && s.featured <= v.used
    && (forall i | 0 <= i < |v.extra| :: v.extra[i].id in v.used && v.extra[i].id !in s.featured)
    && (forall i, j | 0 <= i < j < |v.extra| :: v.extra[i].id != v.extra[j].id)
  }

  /** The memo and every `requires` name only entries that ship. */
  ghost predicate NoDangling(s: Start, v: Lifted) {
    && (forall k | k in v.bus :: Ships(s, v, v.bus[k]))
    && (forall i, q | 0 <= i < |v.extra| && q in v.extra[i].needs :: Ships(s, v, q))
  }

  ghost predicate MemoGood(s: Start, v: Lifted) {
    Grows(s.page, s.seeded, v.bus) && Sound(s.page, s.seeded, v.bus)
  }

  predicate ResolvesTo(p: Page, bus: Memo, key: Key, local: string) {
    Lookup(p, bus, key) == Some(local)
  }

  /** What the page presets for a block, its platform, id and name aside. */
  predicate Given(b: Block, k: string) {
    b.presets.Some? && k in b.presets.value && k != "platform" && k != "id" && k != "name"
  }

  /** The field is the reference onto a bus that the page supplies. */
  ghost predicate IsPin(s: Start, deps: seq<string>, b: Block, k: string) {
    exists dep :: dep in deps && k == IdField(dep) && Pins(s, b, dep)
  }

  /** Pins aside, a field is there for what the page presets and for the block's own id, with their values. */
  ghost predicate Shown(s: Start, deps: seq<string>, b: Block, fields: Fields, k: string) {
    || IsPin(s, deps, b, k)
    || (k == "id" && (k in fields <==> Nonempty(b.id).Some?) && (k in fields ==> Some(fields[k]) == b.id))
    || (k != "id" && (k in fields <==> Given(b, k)) && (k in fields ==> fields[k] == b.presets.value[k]))
  }

  lemma ExtractedIsShown(s: Start, deps: seq<string>, key: Key, k: string)
    requires Liftable(s.page, key)
    ensures Shown(s, deps, BlockOf(s.page, key), Materialize(s.page, key).value.fields, k)
  {
  }

  lemma PinnedIsShown(s: Start, deps: seq<string>, b: Block, fields: Fields, refs: Fields, k: string)
    requires Shown(s, deps, b, fields, k) && Pinned(s, deps, b, refs)
    ensures Shown(s, deps, b, fields + refs, k)
  {
    if k in refs {
      var dep :| dep in deps && k == IdField(dep) && Pins(s, b, dep);
    }
  }

  /** One lift: its entry shows its block, and both its keys resolve to it. */
  ghost predicate LiftGood(s: Start, v: Lifted, l: Lift) {
    && Liftable(s.page, l.key) && l.key.1 != Some("") && l.at < |v.extra|
    && v.extra[l.at].component == Materialize(s.page, l.key).value.component
    && (forall k :: Shown(s, DepsOf(s.page, v.extra[l.at].component), BlockOf(s.page, l.key), v.extra[l.at].fields, k))
    && ResolvesTo(s.page, v.bus, l.key, v.extra[l.at].id)
    && var id := Nonempty(BlockOf(s.page, l.key).id);
       id.Some? ==> ResolvesTo(s.page, v.bus, (l.key.0, id), v.extra[l.at].id)
  }

  /** No block is lifted twice, by whatever keys it was reached. */
  ghost predicate LiftsGood(s: Start, v: Lifted) {
    && (forall n | 0 <= n < |v.lifts| :: LiftGood(s, v, v.lifts[n]) && v.lifts[n].at !in v.hubs)
    && (forall h | h in v.hubs :: 0 <= h < |v.extra|)
    && (forall n, m | 0 <= n < m < |v.lifts| ::
          v.lifts[n].at < v.lifts[m].at && SlotOf(s.page, v.lifts[n].key) != SlotOf(s.page, v.lifts[m].key))
  }

  function IdField(dep: string): string {
    dep + "_id"
  }

  /** The key a block's dependency resolves under: by its `<dep>_id` when it has one. */
  function DepKey(b: Block, dep: string): Key {
    (dep, Nonempty(if IdField(dep) in b.refs then Some(b.refs[IdField(dep)]) else None))
  }

  /** `needs` names just the buses the page supplies for the dependencies. */
  ghost predicate Wired(s: Start, bus: Memo, deps: seq<string>, b: Block, needs: seq<string>) {
    && (forall dep | dep in deps && Supplied(s.page, s.seeded, DepKey(b, dep)) ::
          Lookup(s.page, bus, DepKey(b, dep)).Some? && Lookup(s.page, bus, DepKey(b, dep)).value in needs)
    && (forall q | q in needs :: exists dep :: dep in deps && ResolvesTo(s.page, bus, DepKey(b, dep), q))
  }

  /** The block refers to this dependency by id, and the page supplies it. */
  predicate Pins(s: Start, b: Block, dep: string) {
    Supplied(s.page, s.seeded, DepKey(b, dep)) && DepKey(b, dep).1.Some?
  }

  /** `refs` pins just the supplied dependencies that the block refers to by id. */
  ghost predicate Pinned(s: Start, deps: seq<string>, b: Block, refs: Fields) {
    && (forall dep | dep in deps && Pins(s, b, dep) ::
      IdField(dep) in refs && refs[IdField(dep)] == DepKey(b, dep).1.value)
    && (forall f | f in refs :: exists dep :: dep in deps && f == IdField(dep) && Pins(s, b, dep))
  }

  function DepsOf(p: Page, component: string): seq<string> {
    if component in p.index then p.index[component].dependencies else []
  }

  /** A lifted bus carries, and is pinned to, the buses it rides on itself. */
  ghost predicate ChainGood(s: Start, v: Lifted, l: Lift)
    requires LiftGood(s, v, l)
  {
    var e, b := v.extra[l.at], BlockOf(s.page, l.key);
    && Wired(s, v.bus, DepsOf(s.page, e.component), b, e.needs)
    && forall dep | dep in DepsOf(s.page, e.component) && Pins(s, b, dep) ::
         IdField(dep) in e.fields && e.fields[IdField(dep)] == DepKey(b, dep).1.value
  }

  /** The memo never resolves to a hub. */
  ghost predicate HubsApart(v: Lifted) {
    forall k, h | k in v.bus && h in v.hubs && 0 <= h < |v.extra| :: v.bus[k] != v.extra[h].id
  }

  predicate LiftedAt(v: Lifted, n: nat, i: int) {
    n < |v.lifts| && v.lifts[n].at == i
  }

  /** Every new entry is a lifted bus or a hub. */
  ghost predicate Accounted(v: Lifted) {
    forall i | 0 <= i < |v.extra| && i !in v.hubs :: exists n :: LiftedAt(v, n, i)
  }

  /** The keys a bus is registered under when it is lifted for `key`. */
  function KeysOf(p: Page, key: Key): set<Key>
    requires Liftable(p, key)
  {
    var id := Nonempty(BlockOf(p, key).id);
    if id.Some? then {key, (key.0, id)} else {key}
  }

  function LiftedKeys(p: Page, lifts: seq<Lift>): set<Key> {
    if lifts == [] then {}
    else
      var key := lifts[|lifts| - 1].key;
      LiftedKeys(p, lifts[..|lifts| - 1]) + if Liftable(p, key) then KeysOf(p, key) else {}
  }

  /** The memo holds the keys it was seeded with and those of the lifts, no others. */
  ghost predicate Keyed(p: Page, seeded: Memo, bus: Memo, lifts: seq<Lift>) {
    bus.Keys == seeded.Keys + LiftedKeys(p, lifts)
  }

  /** `open` are the lifts whose own dependencies are still being chained. */
  ghost predicate Good(s: Start, v: Lifted, open: set<int>) {
    Sturdy(s, v, open) && Keyed(s.page, s.seeded, v.bus, v.lifts)
  }

  ghost predicate Sturdy(s: Start, v: Lifted, open: set<int>) {
    && FreshIds(s, v) && NoDangling(s, v) && MemoGood(s, v) && LiftsGood(s, v) && HubsApart(v) && Accounted(v)
    && forall n | 0 <= n < |v.lifts| && n !in open :: ChainGood(s, v, v.lifts[n])
  }

  // ----- Steps -----

  function AddBus(s: Start, v: Lifted, key: Key, local: string): Lifted
    requires Liftable(s.page, key)
  {
    Lifted(v.used + {local}, Register(s.page, v.bus, key, local),
           v.extra + [Materialize(s.page, key).value.(id := local)], v.lifts + [Lift(|v.extra|, key)], v.hubs)
  }

  /** Entries added behind the ones there disturb nothing. */
  lemma WiredStable(s: Start, before: Memo, after: Memo, deps: seq<string>, b: Block, needs: seq<string>)
    requires Wired(s, before, deps, b, needs) && Grows(s.page, before, after)
    ensures Wired(s, after, deps, b, needs)
  {
    forall q | q in needs ensures exists dep :: dep in deps && ResolvesTo(s.page, after, DepKey(b, dep), q) {
      var dep :| dep in deps && ResolvesTo(s.page, before, DepKey(b, dep), q);
      assert ResolvesTo(s.page, after, DepKey(b, dep), q);
    }
  }

  lemma LiftStable(s: Start, v: Lifted, w: Lifted, l: Lift)
    requires LiftGood(s, v, l) && Grows(s.page, v.bus, w.bus) && v.extra <= w.extra
    ensures LiftGood(s, w, l)
    ensures ChainGood(s, v, l) ==> ChainGood(s, w, l)
  {
    if ChainGood(s, v, l) {
      WiredStable(s, v.bus, w.bus, DepsOf(s.page, v.extra[l.at].component), BlockOf(s.page, l.key),
        v.extra[l.at].needs);
    }
  }

  /** An unresolved key's block has not been lifted before. */
  lemma NewSlot(s: Start, v: Lifted, key: Key, l: Lift)
    requires LiftGood(s, v, l) && Liftable(s.page, key) && Lookup(s.page, v.bus, key).None? && key.1 != Some("")
    ensures SlotOf(s.page, l.key) != SlotOf(s.page, key)
  {
  }

  lemma ShipsStable(s: Start, v: Lifted, w: Lifted, id: string)
    requires Ships(s, v, id) && |v.extra| <= |w.extra|
    requires forall i | 0 <= i < |v.extra| :: w.extra[i].id == v.extra[i].id
    ensures Ships(s, w, id)
  {
    if id !in s.featured {
      var i :| 0 <= i < |v.extra| && v.extra[i].id == id;
      assert w.extra[i].id == id;
    }
  }

  lemma AddBusDangles(s: Start, v: Lifted, key: Key, local: string)
    requires NoDangling(s, v) && Liftable(s.page, key)
    ensures NoDangling(s, AddBus(s, v, key, local))
  {
    var w := AddBus(s, v, key, local);
    assert w.extra[|v.extra|].id == local;
    forall k | k in w.bus ensures Ships(s, w, w.bus[k]) {
      if k in v.bus && w.bus[k] == v.bus[k] {
        ShipsStable(s, v, w, v.bus[k]);
      }
    }
    forall i, q | 0 <= i < |w.extra| && q in w.extra[i].needs ensures Ships(s, w, q) {
      assert i < |v.extra| && q in v.extra[i].needs;
      ShipsStable(s, v, w, q);
    }
  }

  lemma AccountedGrows(v: Lifted, w: Lifted)
    requires Accounted(v) && v.lifts <= w.lifts && v.hubs <= w.hubs && |v.extra| <= |w.extra|
    requires forall i | |v.extra| <= i < |w.extra| :: i in w.hubs || LiftedAt(w, |v.lifts|, i)
    ensures Accounted(w)
  {
    forall i | 0 <= i < |w.extra| && i !in w.hubs ensures exists n :: LiftedAt(w, n, i) {
      if i < |v.extra| {
        var n :| LiftedAt(v, n, i);
        assert LiftedAt(w, n, i);
      } else {
        assert LiftedAt(w, |v.lifts|, i);
      }
    }
  }

  lemma AddBusKeyed(s: Start, v: Lifted, key: Key, local: string)
    requires Keyed(s.page, s.seeded, v.bus, v.lifts) && Liftable(s.page, key)
    ensures Keyed(s.page, s.seeded, AddBus(s, v, key, local).bus, AddBus(s, v, key, local).lifts)
  {
    var w := AddBus(s, v, key, local);
    assert w.lifts[..|v.lifts|] == v.lifts;
    assert w.bus.Keys == v.bus.Keys + KeysOf(s.page, key);
  }

  lemma AddBusGood(s: Start, v: Lifted, key: Key, local: string, open: set<int>)
    requires Good(s, v, open) && Liftable(s.page, key) && Lookup(s.page, v.bus, key).None? && key.1 != Some("")
    requires local !in v.used
    ensures Good(s, AddBus(s, v, key, local), open + {|v.lifts|})
    ensures Grows(s.page, v.bus, AddBus(s, v, key, local).bus)
    ensures ResolvesTo(s.page, AddBus(s, v, key, local).bus, key, local)
  {
    AddBusSturdy(s, v, key, local, open);
    AddBusKeyed(s, v, key, local);
  }

  lemma AddBusSturdy(s: Start, v: Lifted, key: Key, local: string, open: set<int>)
    requires Sturdy(s, v, open) && Liftable(s.page, key) && Lookup(s.page, v.bus, key).None? && key.1 != Some("")
    requires local !in v.used
    ensures Sturdy(s, AddBus(s, v, key, local), open + {|v.lifts|})
    ensures Grows(s.page, v.bus, AddBus(s, v, key, local).bus)
    ensures ResolvesTo(s.page, AddBus(s, v, key, local).bus, key, local)
  {
    var w := AddBus(s, v, key, local);
    RegisterResolves(s.page, v.bus, key, local);
    RegisterSound(s.page, s.seeded, v.bus, key, local);
    GrowsTransitive(s.page, s.seeded, v.bus, w.bus);
    AddBusDangles(s, v, key, local);
    AddBusLifts(s, v, key, local);
    AccountedGrows(v, w);
    forall n | 0 <= n < |w.lifts| && n !in open + {|v.lifts|} ensures ChainGood(s, w, w.lifts[n]) {
      LiftStable(s, v, w, v.lifts[n]);
    }
  }

  lemma AddBusLifts(s: Start, v: Lifted, key: Key, local: string)
    requires LiftsGood(s, v) && Liftable(s.page, key) && Lookup(s.page, v.bus, key).None? && key.1 != Some("")
    ensures LiftsGood(s, AddBus(s, v, key, local))
  {
    var w := AddBus(s, v, key, local);
    RegisterResolves(s.page, v.bus, key, local);
    forall n | 0 <= n < |w.lifts| ensures LiftGood(s, w, w.lifts[n]) {
      if n < |v.lifts| {
        LiftStable(s, v, w, v.lifts[n]);
      } else {
        var e := Materialize(s.page, key).value;
        forall k ensures Shown(s, DepsOf(s.page, e.component), BlockOf(s.page, key), e.fields, k) {
          ExtractedIsShown(s, DepsOf(s.page, e.component), key, k);
        }
      }
    }
    forall n, m | 0 <= n < m < |w.lifts|
      ensures w.lifts[n].at < w.lifts[m].at && SlotOf(s.page, w.lifts[n].key) != SlotOf(s.page, w.lifts[m].key)
    {
      if m == |v.lifts| {
        NewSlot(s, v, key, v.lifts[n]);
      }
    }
  }

  /** The bus entry once its own dependencies are chained. */
  function Chain(v: Lifted, at: nat, ids: seq<string>, refs: Fields): Lifted
    requires at < |v.extra|
  {
    v.(extra := v.extra[at := v.extra[at].(fields := v.extra[at].fields + refs, needs := ids)])
  }

  lemma ChainDangles(s: Start, v: Lifted, at: nat, deps: seq<string>, b: Block, ids: seq<string>, refs: Fields)
    requires FreshIds(s, v) && NoDangling(s, v) && at < |v.extra| && Wired(s, v.bus, deps, b, ids)
    ensures FreshIds(s, Chain(v, at, ids, refs)) && NoDangling(s, Chain(v, at, ids, refs))
  {
    var w := Chain(v, at, ids, refs);
    forall q | Ships(s, v, q) ensures Ships(s, w, q) {
      ShipsStable(s, v, w, q);
    }
    forall q | q in ids ensures Ships(s, v, q) {
      var dep :| dep in deps && ResolvesTo(s.page, v.bus, DepKey(b, dep), q);
      LookupShips(s, v, DepKey(b, dep));
    }
    forall i, q | 0 <= i < |w.extra| && q in w.extra[i].needs ensures Ships(s, w, q) {
      assert Ships(s, v, q);
    }
  }

  lemma LookupShips(s: Start, v: Lifted, key: Key)
    requires NoDangling(s, v) && Lookup(s.page, v.bus, key).Some?
    ensures Ships(s, v, Lookup(s.page, v.bus, key).value)
  {
  }

  lemma ChainLifts(s: Start, v: Lifted, n: nat, ids: seq<string>, refs: Fields, open: set<int>, m: nat)
    requires LiftsGood(s, v) && n < |v.lifts| && m < |v.lifts|
    requires m != n && m !in open ==> ChainGood(s, v, v.lifts[m])
    requires Wired(s, v.bus, DepsOf(s.page, v.extra[v.lifts[n].at].component), BlockOf(s.page, v.lifts[n].key), ids)
    requires Pinned(s, DepsOf(s.page, v.extra[v.lifts[n].at].component), BlockOf(s.page, v.lifts[n].key), refs)
    ensures var w := Chain(v, v.lifts[n].at, ids, refs);
            LiftGood(s, w, w.lifts[m]) && (m == n || m !in open ==> ChainGood(s, w, w.lifts[m]))
  {
    var at := v.lifts[n].at;
    var w := Chain(v, at, ids, refs);
    assert LiftGood(s, v, v.lifts[m]);
    if m != n {
      assert v.lifts[m].at != at;
      assert w.extra[v.lifts[m].at] == v.extra[v.lifts[m].at];
    } else {
      var deps, b := DepsOf(s.page, v.extra[at].component), BlockOf(s.page, v.lifts[n].key);
      forall k ensures Shown(s, deps, b, v.extra[at].fields + refs, k) {
        PinnedIsShown(s, deps, b, v.extra[at].fields, refs, k);
      }
    }
  }

  lemma AccountedSame(v: Lifted, w: Lifted)
    requires Accounted(v) && v.lifts == w.lifts && v.hubs == w.hubs && |v.extra| == |w.extra|
    ensures Accounted(w)
  {
    AccountedGrows(v, w);
  }

  lemma ChainLiftsAll(s: Start, v: Lifted, n: nat, ids: seq<string>, refs: Fields, open: set<int>)
    requires LiftsGood(s, v) && n < |v.lifts|
    requires forall m | 0 <= m < |v.lifts| && m !in open :: ChainGood(s, v, v.lifts[m])
    requires Wired(s, v.bus, DepsOf(s.page, v.extra[v.lifts[n].at].component), BlockOf(s.page, v.lifts[n].key), ids)
    requires Pinned(s, DepsOf(s.page, v.extra[v.lifts[n].at].component), BlockOf(s.page, v.lifts[n].key), refs)
    ensures var w := Chain(v, v.lifts[n].at, ids, refs);
            LiftsGood(s, w) && forall m | 0 <= m < |w.lifts| && m !in open - {n} :: ChainGood(s, w, w.lifts[m])
  {
    var w := Chain(v, v.lifts[n].at, ids, refs);
    forall m | 0 <= m < |w.lifts|
      ensures LiftGood(s, w, w.lifts[m]) && (m !in open - {n} ==> ChainGood(s, w, w.lifts[m]))
    {
      ChainLifts(s, v, n, ids, refs, open, m);
    }
  }

  lemma ChainKept(s: Start, v: Lifted, n: nat, ids: seq<string>, refs: Fields, open: set<int>)
    requires Good(s, v, open) && n < |v.lifts| && n in open
    requires Wired(s, v.bus, DepsOf(s.page, v.extra[v.lifts[n].at].component), BlockOf(s.page, v.lifts[n].key), ids)
    requires Pinned(s, DepsOf(s.page, v.extra[v.lifts[n].at].component), BlockOf(s.page, v.lifts[n].key), refs)
    ensures Good(s, Chain(v, v.lifts[n].at, ids, refs), open - {n})
  {
    ChainSturdy(s, v, n, ids, refs, open);
  }

  lemma ChainSturdy(s: Start, v: Lifted, n: nat, ids: seq<string>, refs: Fields, open: set<int>)
    requires Sturdy(s, v, open) && n < |v.lifts| && n in open
    requires Wired(s, v.bus, DepsOf(s.page, v.extra[v.lifts[n].at].component), BlockOf(s.page, v.lifts[n].key), ids)
    requires Pinned(s, DepsOf(s.page, v.extra[v.lifts[n].at].component), BlockOf(s.page, v.lifts[n].key), refs)
    ensures Sturdy(s, Chain(v, v.lifts[n].at, ids, refs), open - {n})
  {
    var at := v.lifts[n].at;
    var w := Chain(v, at, ids, refs);
    var deps, b := DepsOf(s.page, v.extra[at].component), BlockOf(s.page, v.lifts[n].key);
    ChainDangles(s, v, at, deps, b, ids, refs);
    AccountedSame(v, w);
    ChainLiftsAll(s, v, n, ids, refs, open);
  }

  // ----- Entries other than buses: the hubs -----

  function AddHub(v: Lifted, e: Entry): Lifted {
    v.(used := v.used + {e.id}, extra := v.extra + [e], hubs := v.hubs + {|v.extra|})
  }

  lemma AddHubGood(s: Start, v: Lifted, e: Entry, deps: seq<string>, b: Block)
    requires Good(s, v, {}) && e.id !in v.used && Wired(s, v.bus, deps, b, e.needs)
    ensures Good(s, AddHub(v, e), {}) && Extends(s, v, AddHub(v, e))
  {
    AddHubSturdy(s, v, e, deps, b);
  }

  lemma AddHubDangles(s: Start, v: Lifted, e: Entry, deps: seq<string>, b: Block)
    requires NoDangling(s, v) && Wired(s, v.bus, deps, b, e.needs)
    ensures NoDangling(s, AddHub(v, e))
  {
    var w := AddHub(v, e);
    forall q | Ships(s, v, q) ensures Ships(s, w, q) {
      ShipsStable(s, v, w, q);
    }
    forall q | q in e.needs ensures Ships(s, v, q) {
      var dep :| dep in deps && ResolvesTo(s.page, v.bus, DepKey(b, dep), q);
      LookupShips(s, v, DepKey(b, dep));
    }
  }

  lemma AddHubSturdy(s: Start, v: Lifted, e: Entry, deps: seq<string>, b: Block)
    requires Sturdy(s, v, {}) && e.id !in v.used && Wired(s, v.bus, deps, b, e.needs)
    ensures Sturdy(s, AddHub(v, e), {}) && Extends(s, v, AddHub(v, e))
  {
    var w := AddHub(v, e);
    AccountedGrows(v, w);
    AddHubDangles(s, v, e, deps, b);
    forall n | 0 <= n < |w.lifts| ensures LiftGood(s, w, w.lifts[n]) && ChainGood(s, w, w.lifts[n]) {
      LiftStable(s, v, w, v.lifts[n]);
    }
  }

  /** An entry that is not a bus gets other fields. */
  function Refield(v: Lifted, at: nat, fields: Fields): Lifted
    requires at < |v.extra|
  {
    v.(extra := v.extra[at := v.extra[at].(fields := fields)])
  }

  lemma RefieldGood(s: Start, v: Lifted, at: nat, fields: Fields)
    requires Good(s, v, {}) && at < |v.extra| && at in v.hubs
    ensures Good(s, Refield(v, at, fields), {})
  {
    RefieldSturdy(s, v, at, fields);
  }

  lemma RefieldSturdy(s: Start, v: Lifted, at: nat, fields: Fields)
    requires Sturdy(s, v, {}) && at < |v.extra| && at in v.hubs
    ensures Sturdy(s, Refield(v, at, fields), {})
  {
    var w := Refield(v, at, fields);
    AccountedGrows(v, w);
    forall q | Ships(s, v, q) ensures Ships(s, w, q) {
      ShipsStable(s, v, w, q);
    }
    forall i, q | 0 <= i < |w.extra| && q in w.extra[i].needs ensures Ships(s, w, q) {
      assert q in v.extra[i].needs;
    }
    forall n | 0 <= n < |w.lifts| ensures LiftGood(s, w, w.lifts[n]) && ChainGood(s, w, w.lifts[n]) {
      assert LiftGood(s, v, v.lifts[n]) && ChainGood(s, v, v.lifts[n]);
      assert w.extra[v.lifts[n].at] == v.extra[v.lifts[n].at];
    }
  }

  /** How a block refers to its bus of a domain: by its `<dep>_id`, if it has one, else without an id. */
  predicate Refers(b: Block, dep: string, key: Key) {
    key.0 == dep && if dep + "_id" in b.refs && b.refs[dep + "_id"] != "" then key.1 == Some(b.refs[dep + "_id"])
                    else key.1.None?
  }

  /** Once the pass is over, every bus dependency of a lifted bus that the page supplies ships and is required. */
  lemma SuppliedDependencyShips(s: Start, v: Lifted, n: nat, dep: string, key: Key)
    requires Good(s, v, {}) && n < |v.lifts|
    requires var e := v.extra[v.lifts[n].at];
             e.component in s.page.index && dep in s.page.index[e.component].dependencies
    requires Refers(BlockOf(s.page, v.lifts[n].key), dep, key) && Supplied(s.page, s.seeded, key)
    ensures var found := Lookup(s.page, v.bus, key);
            found.Some? && found.value in v.extra[v.lifts[n].at].needs && Ships(s, v, found.value)
  {
    assert ChainGood(s, v, v.lifts[n]);
    assert key == DepKey(BlockOf(s.page, v.lifts[n].key), dep);
    LookupShips(s, v, key);
  }

  /** The block refers to a supplied bus by this id. */
  predicate RefersById(s: Start, b: Block, dep: string, id: string) {
    Refers(b, dep, (dep, Some(id))) && Supplied(s.page, s.seeded, (dep, Some(id)))
  }

  /** What a lift shows of its block in one field. */
  ghost predicate ShowsBlock(s: Start, e: Entry, b: Block, k: string) {
    && e.component in s.page.index
    && var deps := s.page.index[e.component].dependencies;
       && (Given(b, k) && !IsPin(s, deps, b, k) ==> k in e.fields && e.fields[k] == b.presets.value[k])
       && (forall dep, id | dep in deps && RefersById(s, b, dep, id) ::
             dep + "_id" in e.fields && e.fields[dep + "_id"] == id)
       && ("id" in e.fields <==> Nonempty(b.id).Some?)
       && ("id" in e.fields ==> Some(e.fields["id"]) == b.id)
       && (k in e.fields ==> k == "id" || Given(b, k) || IsPin(s, deps, b, k))
  }

  /**
   A lifted bus shows its block: what the page presets for it, as it stands there, each `<bus>_id` of a
   supplied dependency as the block has it, the block's own id, and nothing else.
   */
  lemma LiftShowsItsBlock(s: Start, v: Lifted, n: nat, k: string)
    requires Good(s, v, {}) && n < |v.lifts|
    ensures ShowsBlock(s, v.extra[v.lifts[n].at], BlockOf(s.page, v.lifts[n].key), k)
  {
    assert LiftGood(s, v, v.lifts[n]) && ChainGood(s, v, v.lifts[n]);
    GoodShows(s, v, v.lifts[n], k);
  }

  lemma GoodShows(s: Start, v: Lifted, l: Lift, k: string)
    requires LiftGood(s, v, l) && ChainGood(s, v, l)
    ensures ShowsBlock(s, v.extra[l.at], BlockOf(s.page, l.key), k)
  {
    var e, b := v.extra[l.at], BlockOf(s.page, l.key);
    ShowsIsShown(s, DepsOf(s.page, e.component), b, e.fields, k);
    forall dep, id | dep in DepsOf(s.page, e.component) && RefersById(s, b, dep, id)
      ensures dep + "_id" in e.fields && e.fields[dep + "_id"] == id
    {
      ReferenceIsPin(s, b, dep, id);
    }
  }

  lemma ReferenceIsPin(s: Start, b: Block, dep: string, id: string)
    requires RefersById(s, b, dep, id)
    ensures Pins(s, b, dep) && DepKey(b, dep).1 == Some(id) && IdField(dep) == dep + "_id"
  {
  }

  lemma ShowsIsShown(s: Start, deps: seq<string>, b: Block, fields: Fields, k: string)
    requires Shown(s, deps, b, fields, k) && Shown(s, deps, b, fields, "id")
    ensures Given(b, k) && !IsPin(s, deps, b, k) ==> k in fields && fields[k] == b.presets.value[k]
    ensures "id" in fields <==> Nonempty(b.id).Some?
    ensures "id" in fields ==> Some(fields["id"]) == b.id
    ensures k in fields ==> k == "id" || Given(b, k) || IsPin(s, deps, b, k)
  {
    NoIdPin(s, deps, b);
  }

  lemma NoIdPin(s: Start, deps: seq<string>, b: Block)
    ensures !IsPin(s, deps, b, "id")
  {
    forall dep ensures IdField(dep) != "id" {
      assert |IdField(dep)| == |dep| + 3;
    }
  }

  // ----- The keys a page can supply, and the measure of the recursion -----

  function Universe(p: Page): set<Key> {
    set d, i | d in p.config && i in Ids(p.config[d]) :: (d, i)
  }

  function Ids(r: Raw): set<Option<string>> {
    {None} + (if r.Bare? then {} else set b | b in r.blocks :: b.id)
  }

  function Unlifted(p: Page, bus: Memo): nat {
    |Universe(p) - bus.Keys|
  }

  lemma LiftableInUniverse(p: Page, key: Key)
    requires Liftable(p, key)
    ensures key in Universe(p)
  {
    if key.1.Some? {
      assert p.config[key.0].blocks[SlotOf(p, key).at] in p.config[key.0].blocks;
    }
    assert key.1 in Ids(p.config[key.0]);
  }

  lemma Shrinks(all: set<Key>, before: set<Key>, after: set<Key>, key: Key)
    requires before <= after && key in all && key !in before && key in after
    ensures |all - after| < |all - before|
  {
    assert all - before == (all - after) + (all * (after - before));
    assert key in all * (after - before);
  }

  lemma RegisterShrinks(p: Page, bus: Memo, key: Key, local: string)
    requires Liftable(p, key) && Lookup(p, bus, key).None?
    ensures Unlifted(p, Register(p, bus, key, local)) < Unlifted(p, bus)
  {
    LiftableInUniverse(p, key);
    Shrinks(Universe(p), bus.Keys, Register(p, bus, key, local).Keys, key);
  }

  lemma UnliftedAntitone(p: Page, before: Memo, after: Memo)
    requires before.Keys <= after.Keys
    ensures Unlifted(p, after) <= Unlifted(p, before)
  {
    assert Universe(p) - before.Keys == (Universe(p) - after.Keys) + (Universe(p) * (after.Keys - before.Keys));
  }

  /** A later state: the memo has grown, and entries were only added behind. */
  ghost predicate Extends(s: Start, v: Lifted, w: Lifted) {
    Grows(s.page, v.bus, w.bus) && v.extra <= w.extra && v.lifts <= w.lifts && v.hubs <= w.hubs
  }

  lemma ExtendsTransitive(s: Start, u: Lifted, v: Lifted, w: Lifted)
    requires Extends(s, u, v) && Extends(s, v, w)
    ensures Extends(s, u, w)
  {
    GrowsTransitive(s.page, u.bus, v.bus, w.bus);
  }

  // ----- Nothing else is lifted -----

  ghost predicate AmongDeps(key: Key, deps: seq<string>, b: Block) {
    exists dep :: dep in deps && key == DepKey(b, dep)
  }

  /** Lift `n` is a dependency of the bus that lift `m` lifted. */
  ghost predicate RiddenBy(p: Page, lifts: seq<Lift>, m: nat, n: nat)
    requires m < |lifts| && n < |lifts|
  {
    Liftable(p, lifts[m].key)
      && AmongDeps(lifts[n].key, DepsOf(p, Materialize(p, lifts[m].key).value.component), BlockOf(p, lifts[m].key))
  }

  ghost predicate Ridden(p: Page, lifts: seq<Lift>, from: nat, n: nat)
    requires n < |lifts|
  {
    exists m :: from <= m < n && RiddenBy(p, lifts, m, n)
  }

  /** Everything lifted since `before` is one of the dependencies, or ridden by a bus lifted since. */
  ghost predicate Asked(p: Page, before: seq<Lift>, after: seq<Lift>, deps: seq<string>, b: Block) {
    before <= after && forall n | |before| <= n < |after| ::
      AmongDeps(after[n].key, deps, b) || Ridden(p, after, |before|, n)
  }

  /** What one key lifts: its bus first, then only buses ridden by those. */
  ghost predicate AskedBy(p: Page, before: seq<Lift>, after: seq<Lift>, key: Key) {
    before <= after && forall n | |before| <= n < |after| ::
      (n == |before| && after[n].key == key) || Ridden(p, after, |before|, n)
  }

  lemma AskedNext(p: Page, l0: seq<Lift>, l1: seq<Lift>, l2: seq<Lift>, deps: seq<string>, i: nat, b: Block)
    requires i < |deps| && Asked(p, l0, l1, deps[..i], b) && AskedBy(p, l1, l2, DepKey(b, deps[i]))
    ensures Asked(p, l0, l2, deps[..i + 1], b)
  {
    forall n | |l0| <= n < |l2| ensures AmongDeps(l2[n].key, deps[..i + 1], b) || Ridden(p, l2, |l0|, n) {
      if n < |l1| {
        assert l2[n] == l1[n];
        if AmongDeps(l1[n].key, deps[..i], b) {
          var dep :| dep in deps[..i] && l1[n].key == DepKey(b, dep);
          assert dep in deps[..i + 1];
        } else {
          var m :| |l0| <= m < n && RiddenBy(p, l1, m, n);
          assert RiddenBy(p, l2, m, n);
        }
      } else if Ridden(p, l2, |l1|, n) {
        var m :| |l1| <= m < n && RiddenBy(p, l2, m, n);
      } else {
        assert deps[..i + 1][i] == deps[i];
      }
    }
  }

  lemma EnsuredNext(s: Start, v0: Lifted, v: Lifted, w: Lifted, deps: seq<string>, i: nat, b: Block)
    requires i < |deps| && Extends(s, v0, v) && Extends(s, v, w)
    requires Asked(s.page, v0.lifts, v.lifts, deps[..i], b) && AskedBy(s.page, v.lifts, w.lifts, DepKey(b, deps[i]))
    ensures Extends(s, v0, w) && Asked(s.page, v0.lifts, w.lifts, deps[..i + 1], b)
  {
    ExtendsTransitive(s, v0, v, w);
    AskedNext(s.page, v0.lifts, v.lifts, w.lifts, deps, i, b);
  }

  /** A lift and the chain of its own dependencies, together. */
  lemma AskedChain(p: Page, l0: seq<Lift>, first: Lift, l2: seq<Lift>)
    requires Liftable(p, first.key)
    requires Asked(p, l0 + [first], l2, DepsOf(p, Materialize(p, first.key).value.component), BlockOf(p, first.key))
    ensures AskedBy(p, l0, l2, first.key)
  {
    assert l2[|l0|] == (l0 + [first])[|l0|];
    forall n | |l0| <= n < |l2| ensures (n == |l0| && l2[n].key == first.key) || Ridden(p, l2, |l0|, n) {
      if n > |l0| {
        if AmongDeps(l2[n].key, DepsOf(p, Materialize(p, first.key).value.component), BlockOf(p, first.key)) {
          assert RiddenBy(p, l2, |l0|, n);
        } else {
          var m :| |l0| + 1 <= m < n && RiddenBy(p, l2, m, n);
        }
      }
    }
  }

  // ----- The order of the lifts -----

  function KeysFor(deps: seq<string>, b: Block): seq<Key> {
    seq(|deps|, i requires 0 <= i < |deps| => DepKey(b, deps[i]))
  }

  function DepKeys(p: Page, key: Key): seq<Key>
    requires Liftable(p, key)
  {
    KeysFor(DepsOf(p, Materialize(p, key).value.component), BlockOf(p, key))
  }

  /** Nothing is lifted for a key that the seeds resolve, or whose block was lifted before. */
  predicate Covered(p: Page, seeded: Memo, order: seq<Key>, key: Key)
    requires Liftable(p, key)
  {
    Lookup(p, seeded, key).Some? || exists k :: k in order && Liftable(p, k) && SlotOf(p, k) == SlotOf(p, key)
  }

  ghost function Unwalked(p: Page, order: seq<Key>): nat {
    |Universe(p) - set k | k in order|
  }

  lemma WalkShrinks(p: Page, order: seq<Key>, key: Key)
    requires Liftable(p, key) && key !in order
    ensures Unwalked(p, order + [key]) < Unwalked(p, order)
  {
    LiftableInUniverse(p, key);
    Shrinks(Universe(p), (set k | k in order), (set k | k in order + [key]), key);
  }

  lemma UnwalkedAntitone(p: Page, before: seq<Key>, after: seq<Key>)
    requires before <= after
    ensures Unwalked(p, after) <= Unwalked(p, before)
  {
    var b, a := (set k | k in before), (set k | k in after);
    assert b <= a;
    assert Universe(p) - b == (Universe(p) - a) + (Universe(p) * (a - b));
  }

  /**
   The depth-first walk over the blocks the first `n` of `keys` name: each block once, by the
   key that first named it.
   */
  ghost function Walk(p: Page, seeded: Memo, keys: seq<Key>, n: nat, order: seq<Key>): (after: seq<Key>)
    requires n <= |keys|
    ensures order <= after
    decreases Unwalked(p, order), n
  {
    if n == 0 then order
    else
      var before := Walk(p, seeded, keys, n - 1, order);
      UnwalkedAntitone(p, order, before);
      WalkKey(p, seeded, keys[n - 1], before)
  }

  ghost function WalkKey(p: Page, seeded: Memo, key: Key, order: seq<Key>): (after: seq<Key>)
    ensures order <= after
    decreases Unwalked(p, order), 0
  {
    if !Liftable(p, key) || Covered(p, seeded, order, key) then order
    else
      assert key !in order;
      WalkShrinks(p, order, key);
      Walk(p, seeded, DepKeys(p, key), |DepKeys(p, key)|, order + [key])
  }

  function Order(lifts: seq<Lift>): seq<Key> {
    seq(|lifts|, i requires 0 <= i < |lifts| => lifts[i].key)
  }

  lemma ResolvedIsCovered(s: Start, v: Lifted, open: set<int>, key: Key)
    requires Good(s, v, open) && Liftable(s.page, key) && key.1 != Some("")
    requires Lookup(s.page, v.bus, key).Some?
    ensures Covered(s.page, s.seeded, Order(v.lifts), key)
  {
    if Lookup(s.page, s.seeded, key).None? {
      var k := if key in v.bus then key else (key.0, BlockAt(s.page, SelectBlock(s.page, key.0, None).value).id);
      var n := LiftOfKey(s.page, v.lifts, k);
      assert Order(v.lifts)[n] == v.lifts[n].key;
      SameBlock(s.page, v.lifts[n].key, k, key);
    }
  }

  lemma UnresolvedIsUncovered(s: Start, v: Lifted, open: set<int>, key: Key)
    requires Good(s, v, open) && Liftable(s.page, key) && key.1 != Some("")
    requires Lookup(s.page, v.bus, key).None?
    ensures !Covered(s.page, s.seeded, Order(v.lifts), key)
  {
    forall k | k in Order(v.lifts) && Liftable(s.page, k) ensures SlotOf(s.page, k) != SlotOf(s.page, key) {
      var n :| 0 <= n < |v.lifts| && Order(v.lifts)[n] == k;
      assert LiftGood(s, v, v.lifts[n]);
      NewSlot(s, v, key, v.lifts[n]);
    }
  }

  /** The memo resolves a key just when the walk would not lift for it. */
  lemma CoveredIff(s: Start, v: Lifted, open: set<int>, key: Key)
    requires Good(s, v, open) && Liftable(s.page, key) && key.1 != Some("")
    ensures Lookup(s.page, v.bus, key).Some? <==> Covered(s.page, s.seeded, Order(v.lifts), key)
  {
    if Lookup(s.page, v.bus, key).Some? {
      ResolvedIsCovered(s, v, open, key);
    } else {
      UnresolvedIsUncovered(s, v, open, key);
    }
  }

  lemma {:induction false} LiftOfKey(p: Page, lifts: seq<Lift>, key: Key) returns (n: nat)
    requires key in LiftedKeys(p, lifts)
    ensures n < |lifts| && Liftable(p, lifts[n].key) && key in KeysOf(p, lifts[n].key)
  {
    n := |lifts| - 1;
    if !(Liftable(p, lifts[n].key) && key in KeysOf(p, lifts[n].key)) {
      n := LiftOfKey(p, lifts[..|lifts| - 1], key);
    }
  }

  /** A key the memo got from a lift, or resolves by such a key, denotes the lifted block. */
  lemma SameBlock(p: Page, lifted: Key, k: Key, key: Key)
    requires Liftable(p, lifted) && Liftable(p, key) && k in KeysOf(p, lifted) && key.1 != Some("")
    requires k == key || (key.1.None? && k == (key.0, BlockOf(p, key).id) && k.1.Some?)
    ensures SlotOf(p, lifted) == SlotOf(p, key)
  {
    if key.1.None? && k != key {
      SoleBlockById(p, key.0, k.1.value);
    }
    if lifted.1.None? && k.1.Some? {
      SoleBlockById(p, lifted.0, k.1.value);
    }
  }

  /** A lift and the walk of its own dependencies, together. */
  lemma WalkedLift(s: Start, v: Lifted, added: Lifted, w: Lifted, key: Key, local: string)
    requires Liftable(s.page, key) && !Covered(s.page, s.seeded, Order(v.lifts), key)
    requires added == AddBus(s, v, key, local) && ResolvesTo(s.page, added.bus, key, local)
    requires Grows(s.page, v.bus, added.bus) && Extends(s, added.(extra := added.extra[..|v.extra|]), w)
    requires Order(w.lifts)
             == Walk(s.page, s.seeded, DepKeys(s.page, key), |DepKeys(s.page, key)|, Order(added.lifts))
    requires Asked(s.page, added.lifts, w.lifts, DepsOf(s.page, Materialize(s.page, key).value.component),
                   BlockOf(s.page, key))
    ensures Extends(s, v, w) && Lookup(s.page, w.bus, key) == Some(local) && AskedBy(s.page, v.lifts, w.lifts, key)
    ensures Order(w.lifts) == WalkKey(s.page, s.seeded, key, Order(v.lifts))
  {
    AskedChain(s.page, v.lifts, Lift(|v.extra|, key), w.lifts);
    assert added.extra[..|v.extra|] == v.extra;
    ExtendsTransitive(s, v, added.(extra := v.extra), w);
    assert Order(added.lifts) == Order(v.lifts) + [key];
  }

  lemma NothingLifted(s: Start, v: Lifted, key: Key)
    requires !Liftable(s.page, key)
    ensures Extends(s, v, v) && AskedBy(s.page, v.lifts, v.lifts, key)
    ensures WalkKey(s.page, s.seeded, key, Order(v.lifts)) == Order(v.lifts)
  {
  }

  /** The local id comes from the block's id, else from its domain. */
  ghost predicate NamedForBus(p: Page, key: Key, local: string) {
    exists at :: NamesBlock(p, key, at)
      && var id := BlockAt(p, Slot(key.0, at)).id;
         IsNamedFor(local, if id in {None, Some("")} then "" else p.sanitize(id.value), key.0 + "_bus")
  }

  // ----- The lift as it runs -----

  class LiftState {
    const page: Page
    const featured: set<string>
    const seeded: Memo
    var usedIds: set<string>
    var busLocal: Memo
    var extra: seq<Entry>
    ghost var lifts: seq<Lift>
    ghost var hubs: set<int>

    ghost function From(): Start {
      Start(page, featured, seeded)
    }

    ghost function View(): Lifted
      reads this
    {
      Lifted(usedIds, busLocal, extra, lifts, hubs)
    }

    constructor (page: Page, featured: set<string>, seeded: Memo)
      requires forall k | k in seeded :: seeded[k] in featured
      ensures From() == Start(page, featured, seeded)
      ensures Good(From(), View(), {})
      ensures busLocal == seeded && extra == [] && lifts == [] && hubs == {}
    {
      this.page, this.featured, this.seeded := page, featured, seeded;
      usedIds, busLocal, extra, lifts, hubs := featured, seeded, [], [], {};
    }

    /** Materialize, once, the bus each dependency of `b` resolves to. */
    method EnsureBuses(deps: seq<string>, b: Block, ghost open: set<int>) returns (busIds: seq<string>, busRefs: Fields)
      requires Good(From(), View(), open) && forall n | n in open :: n < |lifts|
      modifies this
      ensures Good(From(), View(), open) && Extends(From(), old(View()), View()) && hubs == old(hubs)
      ensures Collected(From(), busLocal, deps, b, busIds, busRefs) && Asked(page, old(lifts), lifts, deps, b)
      ensures Order(lifts) == Walk(page, seeded, KeysFor(deps, b), |deps|, Order(old(lifts)))
      decreases Unlifted(page, busLocal), 5
    {
      busIds, busRefs := [], map[];
      for i := 0 to |deps|
        invariant Good(From(), View(), open) && Extends(From(), old(View()), View()) && hubs == old(hubs)
        invariant Collected(From(), busLocal, deps[..i], b, busIds, busRefs)
                  && Asked(page, old(lifts), lifts, deps[..i], b)
        invariant Order(lifts) == Walk(page, seeded, KeysFor(deps, b), i, Order(old(lifts)))
      {
        ghost var before := View();
        UnliftedAntitone(page, old(busLocal), busLocal);
        busIds, busRefs := EnsureNext(deps, i, b, busIds, busRefs, open, Order(old(lifts)));
        EnsuredNext(From(), old(View()), before, View(), deps, i, b);
      }
      assert deps[..|deps|] == deps;
    }

    /** One turn of the loop: the bus of one dependency. */
    method EnsureNext(deps: seq<string>, i: nat, b: Block, ids: seq<string>, refs: Fields, ghost open: set<int>,
                      ghost order: seq<Key>)
      returns (busIds: seq<string>, busRefs: Fields)
      requires Good(From(), View(), open) && forall n | n in open :: n < |lifts|
      requires i < |deps| && Collected(From(), busLocal, deps[..i], b, ids, refs)
      requires Order(lifts) == Walk(page, seeded, KeysFor(deps, b), i, order)
      modifies this
      ensures Good(From(), View(), open) && Extends(From(), old(View()), View()) && hubs == old(hubs)
      ensures Collected(From(), busLocal, deps[..i + 1], b, busIds, busRefs)
      ensures AskedBy(page, old(lifts), lifts, DepKey(b, deps[i]))
      ensures Order(lifts) == Walk(page, seeded, KeysFor(deps, b), i + 1, order)
      decreases Unlifted(page, busLocal), 4
    {
      ghost var before := busLocal;
      var key := DepKey(b, deps[i]);
      var local := EnsureBus(key, open);
      CollectedNext(From(), before, busLocal, deps, i, b, ids, refs, local);
      busIds, busRefs := Gather(ids, refs, key, local);
    }

    /** Look the bus up, else lift it. */
    method EnsureBus(key: Key, ghost open: set<int>) returns (local: Option<string>)
      requires Good(From(), View(), open) && (forall n | n in open :: n < |lifts|) && key.1 != Some("")
      modifies this
      ensures Good(From(), View(), open) && Extends(From(), old(View()), View()) && hubs == old(hubs)
      ensures local == Lookup(page, busLocal, key) && AskedBy(page, old(lifts), lifts, key)
      ensures Order(lifts) == WalkKey(page, seeded, key, Order(old(lifts)))
      ensures local.Some? <==> Supplied(page, seeded, key)
      decreases Unlifted(page, busLocal), 3
    {
      local := Lookup(page, busLocal, key);
      if local.None? {
        local := LiftBus(key, open);
      } else if Liftable(page, key) {
        ResolvedIsCovered(From(), View(), open, key);
      }
    }

    /** Lift the bus an unresolved key names, if the page can supply it. */
    method LiftBus(key: Key, ghost open: set<int>) returns (local: Option<string>)
      requires Good(From(), View(), open) && (forall n | n in open :: n < |lifts|)
      requires Lookup(page, busLocal, key).None? && key.1 != Some("")
      modifies this
      ensures Good(From(), View(), open) && Extends(From(), old(View()), View()) && hubs == old(hubs)
      ensures local == Lookup(page, busLocal, key) && AskedBy(page, old(lifts), lifts, key)
      ensures Order(lifts) == WalkKey(page, seeded, key, Order(old(lifts)))
      ensures local.Some? <==> Supplied(page, seeded, key)
      decreases Unlifted(page, busLocal), 2
    {
      if Materialize(page, key).None? {
        NothingLifted(From(), View(), key);
        return None;
      }
      local := LiftNew(key, Materialize(page, key).value, open);
    }

    /** Add the entry, then chain the buses it rides on itself. */
    method LiftNew(key: Key, entry: Entry, ghost open: set<int>) returns (local: Option<string>)
      requires Good(From(), View(), open) && (forall n | n in open :: n < |lifts|)
      requires Lookup(page, busLocal, key).None? && key.1 != Some("") && Materialize(page, key) == Some(entry)
      modifies this
      ensures Good(From(), View(), open) && Extends(From(), old(View()), View()) && hubs == old(hubs)
      ensures local.Some? && local == Lookup(page, busLocal, key) && AskedBy(page, old(lifts), lifts, key)
      ensures Order(lifts) == WalkKey(page, seeded, key, Order(old(lifts)))
      decreases Unlifted(page, busLocal), 1
    {
      ghost var before := View();
      UnresolvedIsUncovered(From(), before, open, key);
      ghost var added;
      local, added := AddAndChain(key, entry, open);
      WalkedLift(From(), before, added, View(), key, local.value);
    }

    method AddAndChain(key: Key, entry: Entry, ghost open: set<int>)
      returns (local: Option<string>, ghost added: Lifted)
      requires Good(From(), View(), open) && (forall n | n in open :: n < |lifts|)
      requires Lookup(page, busLocal, key).None? && key.1 != Some("") && Materialize(page, key) == Some(entry)
      modifies this
      ensures Good(From(), View(), open) && hubs == old(hubs) && Liftable(page, key)
      ensures local.Some? && added == AddBus(From(), old(View()), key, local.value)
      ensures ResolvesTo(page, added.bus, key, local.value) && Grows(page, old(busLocal), added.bus)
      ensures Extends(From(), added.(extra := added.extra[..|old(extra)|]), View())
      ensures Asked(page, added.lifts, lifts, DepsOf(page, Materialize(page, key).value.component), BlockOf(page, key))
      ensures Order(lifts) == Walk(page, seeded, DepKeys(page, key), |DepKeys(page, key)|, Order(added.lifts))
      decreases Unlifted(page, busLocal), 0
    {
      ghost var n := |lifts|;
      local := Add(key, entry, open);
      added := View();
      ChainBusDeps(|extra| - 1, n, BlockOf(page, key), open);
    }

    /** Give a bus entry a local id and register it under its keys. */
    method Add(key: Key, entry: Entry, ghost open: set<int>) returns (local: Option<string>)
      requires Good(From(), View(), open) && Lookup(page, busLocal, key).None? && key.1 != Some("")
      requires Materialize(page, key) == Some(entry)
      modifies this
      ensures Liftable(page, key) && local.Some? && View() == AddBus(From(), old(View()), key, local.value)
      ensures Good(From(), View(), open + {|old(lifts)|}) && Grows(page, old(busLocal), busLocal)
      ensures Unlifted(page, busLocal) < Unlifted(page, old(busLocal))
      ensures ResolvesTo(page, busLocal, key, local.value) && NamedForBus(page, key, local.value)
    {
      var newId := NameBus(key);
      AddBusGood(From(), View(), key, newId, open);
      RegisterShrinks(page, busLocal, key, newId);
      Commit(key, entry, newId);
      return Some(newId);
    }

    method NameBus(key: Key) returns (newId: string)
      requires Liftable(page, key)
      ensures newId !in usedIds && NamedForBus(page, key, newId)
    {
      var id := Nonempty(BlockOf(page, key).id);
      newId := UniqueLocalId(if id.Some? then page.sanitize(id.value) else "", usedIds, key.0 + "_bus");
      NamesItsBlock(page, key);
    }

    method Commit(key: Key, entry: Entry, local: string)
      requires Materialize(page, key) == Some(entry)
      modifies this
      ensures View() == AddBus(From(), old(View()), key, local)
    {
      usedIds := usedIds + {local};
      busLocal := Register(page, busLocal, key, local);
      extra := extra + [entry.(id := local)];
      lifts := lifts + [Lift(|extra| - 1, key)];
    }

    /** Append a hub under a new local id. */
    method AppendHub(component: string, fields: Fields, needs: seq<string>, base: string, fallback: string,
                     ghost deps: seq<string>, ghost b: Block) returns (hubId: string)
      requires Good(From(), View(), {}) && Wired(From(), busLocal, deps, b, needs)
      modifies this
      ensures Good(From(), View(), {}) && Extends(From(), old(View()), View())
      ensures hubId !in old(usedIds) && View() == AddHub(old(View()), Entry(hubId, component, fields, needs))
      ensures IsNamedFor(hubId, base, fallback)
    {
      hubId := UniqueLocalId(base, usedIds, fallback);
      AddHubGood(From(), View(), Entry(hubId, component, fields, needs), deps, b);
      PlaceHub(Entry(hubId, component, fields, needs));
    }

    method PlaceHub(e: Entry)
      modifies this
      ensures View() == AddHub(old(View()), e)
    {
      usedIds := usedIds + {e.id};
      hubs := hubs + {|extra|};
      extra := extra + [e];
    }

    /** Write through to an appended hub's fields. */
    method SetFields(at: nat, fields: Fields)
      requires Good(From(), View(), {}) && at < |extra| && at in hubs
      modifies this
      ensures Good(From(), View(), {}) && View() == Refield(old(View()), at, fields)
    {
      RefieldGood(From(), View(), at, fields);
      PlaceFields(at, fields);
    }

    method PlaceFields(at: nat, fields: Fields)
      requires at < |extra|
      modifies this
      ensures View() == Refield(old(View()), at, fields)
    {
      extra := extra[at := extra[at].(fields := fields)];
    }

    /** Chain a freshly lifted bus's own bus dependencies onto its entry. */
    method ChainBusDeps(at: nat, ghost n: nat, block: Block, ghost open: set<int>)
      requires n < |lifts| && lifts[n].at == at && n !in open && (forall k | k in open :: k < |lifts|)
      requires Good(From(), View(), open + {n}) && block == BlockOf(page, lifts[n].key)
      modifies this
      ensures Good(From(), View(), open) && Extends(From(), old(View()).(extra := old(extra)[..at]), View())
              && hubs == old(hubs)
      ensures Asked(page, old(lifts), lifts, DepsOf(page, Materialize(page, old(lifts)[n].key).value.component), block)
      ensures var keys := DepKeys(page, old(lifts)[n].key);
              Order(lifts) == Walk(page, seeded, keys, |keys|, Order(old(lifts)))
      decreases Unlifted(page, busLocal), 6
    {
      var subIds, subRefs := EnsureBuses(DepsOf(page, extra[at].component), block, open + {n});
      ChainKept(From(), View(), n, subIds, subRefs, open + {n});
      assert open + {n} - {n} == open;
      PlaceChain(at, subIds, subRefs);
    }

    method PlaceChain(at: nat, ids: seq<string>, refs: Fields)
      requires at < |extra|
      modifies this
      ensures View() == Chain(old(View()), at, ids, refs)
    {
      extra := extra[at := extra[at].(fields := extra[at].fields + refs, needs := ids)];
    }
  }

  /** What the loop over the dependencies has gathered: their buses, each once, and the pins. */
  ghost predicate Collected(s: Start, bus: Memo, deps: seq<string>, b: Block, ids: seq<string>, refs: Fields) {
    Wired(s, bus, deps, b, ids) && Pinned(s, deps, b, refs) && Distinct(ids)
  }

  function WithId(ids: seq<string>, local: Option<string>): seq<string> {
    if local.None? || local.value in ids then ids else ids + [local.value]
  }

  function WithRef(refs: Fields, key: Key, local: Option<string>): Fields {
    if local.None? || key.1.None? then refs else refs[IdField(key.0) := key.1.value]
  }

  method Gather(ids: seq<string>, refs: Fields, key: Key, local: Option<string>)
    returns (busIds: seq<string>, busRefs: Fields)
    ensures busIds == WithId(ids, local) && busRefs == WithRef(refs, key, local)
  {
    busIds, busRefs := ids, refs;
    if local.None? {
      return;
    }
    if local.value !in busIds {
      busIds := busIds + [local.value];
    }
    if key.1.Some? {
      busRefs := busRefs[IdField(key.0) := key.1.value];
    }
  }

  lemma CollectedNext(
    s: Start, before: Memo, bus: Memo, deps: seq<string>, i: nat, b: Block, ids: seq<string>, refs: Fields,
    local: Option<string>)
    requires i < |deps| && Collected(s, before, deps[..i], b, ids, refs) && Grows(s.page, before, bus)
    requires local == Lookup(s.page, bus, DepKey(b, deps[i]))
    requires local.Some? <==> Supplied(s.page, s.seeded, DepKey(b, deps[i]))
    ensures Collected(s, bus, deps[..i + 1], b, WithId(ids, local), WithRef(refs, DepKey(b, deps[i]), local))
  {
    WiredStable(s, before, bus, deps[..i], b, ids);
    assert deps[..i + 1] == deps[..i] + [deps[i]];
    WiredNext(s, bus, deps[..i], deps[i], b, ids, local);
    PinnedNext(s, deps[..i], deps[i], b, refs, local);
  }

  lemma WiredNext(
    s: Start, bus: Memo, deps: seq<string>, next: string, b: Block, ids: seq<string>, local: Option<string>)
    requires Wired(s, bus, deps, b, ids)
    requires local == Lookup(s.page, bus, DepKey(b, next))
    requires local.Some? <==> Supplied(s.page, s.seeded, DepKey(b, next))
    ensures Wired(s, bus, deps + [next], b, WithId(ids, local))
  {
    forall q | q in WithId(ids, local)
      ensures exists dep :: dep in deps + [next] && ResolvesTo(s.page, bus, DepKey(b, dep), q)
    {
      if q in ids {
        var dep :| dep in deps && ResolvesTo(s.page, bus, DepKey(b, dep), q);
        assert dep in deps + [next];
      } else {
        assert next in deps + [next] && ResolvesTo(s.page, bus, DepKey(b, next), q);
      }
    }
  }

  lemma IdFieldsDiffer(a: string, c: string)
    requires a != c
    ensures IdField(a) != IdField(c)
  {
    if |a| == |c| {
      assert IdField(a)[..|a|] == a && IdField(c)[..|c|] == c;
    } else {
      assert |IdField(a)| == |a| + 3 && |IdField(c)| == |c| + 3;
    }
  }

  lemma PinnedNext(s: Start, deps: seq<string>, next: string, b: Block, refs: Fields, local: Option<string>)
    requires Pinned(s, deps, b, refs)
    requires local.Some? <==> Supplied(s.page, s.seeded, DepKey(b, next))
    ensures Pinned(s, deps + [next], b, WithRef(refs, DepKey(b, next), local))
  {
    var more := WithRef(refs, DepKey(b, next), local);
    forall f | f in more ensures exists dep :: dep in deps + [next] && f == IdField(dep) && Pins(s, b, dep) {
      PinOwed(s, deps, next, b, refs, local, f);
    }
    forall dep | dep in deps + [next] && Pins(s, b, dep)
      ensures IdField(dep) in more && more[IdField(dep)] == DepKey(b, dep).1.value {
      PinHeld(s, deps, next, b, refs, local, dep);
    }
  }

  lemma PinHeld(s: Start, deps: seq<string>, next: string, b: Block, refs: Fields, local: Option<string>, dep: string)
    requires local.Some? <==> Supplied(s.page, s.seeded, DepKey(b, next))
    requires Pins(s, b, dep)
    requires dep != next ==> IdField(dep) in refs && refs[IdField(dep)] == DepKey(b, dep).1.value
    ensures var more := WithRef(refs, DepKey(b, next), local);
            IdField(dep) in more && more[IdField(dep)] == DepKey(b, dep).1.value
  {
    if dep != next {
      IdFieldsDiffer(dep, next);
    }
  }

  lemma PinOwed(s: Start, deps: seq<string>, next: string, b: Block, refs: Fields, local: Option<string>, f: string)
    requires forall f | f in refs :: exists dep :: dep in deps && f == IdField(dep) && Pins(s, b, dep)
    requires local.Some? ==> Supplied(s.page, s.seeded, DepKey(b, next))
    requires f in WithRef(refs, DepKey(b, next), local)
    ensures exists dep :: dep in deps + [next] && f == IdField(dep) && Pins(s, b, dep)
  {
    if f in refs {
      var dep :| dep in deps && f == IdField(dep) && Pins(s, b, dep);
      assert dep in deps + [next];
    } else {
      assert next in deps + [next];
    }
  }
}
