/**
 Lifting the I/O-expander hubs that featured pins sit on
 (script/sync_esphome_devices.py, script/_expander_pins.py).

 A pin names its hub by id or by I2C address.  Each referenced block becomes one
 locked hub entry; entries whose hub cannot be lifted are dropped, the
 others get the hub and its buses as prerequisites.
 */
module ExpanderHubs {
  import opened Lists
  import opened Optional
  import opened BusLift
  import opened BusSeeds
  import opened LocalIds

  // ----- References -----

  predicate IsAddressRef(instance: string) {
    instance != "" && instance[0] == '@'
  }

  function BlocksOf(p: Page, cid: string): seq<Block> {
    if cid in p.config && p.config[cid].Blocks? then p.config[cid].blocks else []
  }

  function FirstAtAddress(blocks: seq<Block>, ref: string): (at: nat)
    ensures at <= |blocks|
    ensures at < |blocks| ==> blocks[at].address == Some(ref)
    ensures forall i | 0 <= i < at :: blocks[i].address != Some(ref)
  {
    if blocks == [] || blocks[0].address == Some(ref) then 0 else 1 + FirstAtAddress(blocks[1..], ref)
  }

  /** The sole block at the address; otherwise the block with the id, or the sole block when it has none. */
  function FindHubBlock(p: Page, cid: string, instance: string): (slot: Option<Slot>)
    ensures slot.Some? ==> slot.value.domain == cid && OnPage(p, slot.value) && slot.value.at < |BlocksOf(p, cid)|
  {
    var blocks := BlocksOf(p, cid);
    if IsAddressRef(instance) then
      var at := FirstAtAddress(blocks, instance);
      if at < |blocks| && FirstAtAddress(blocks[at + 1..], instance) == |blocks| - at - 1
      then Some(Slot(cid, at))
      else None
    else
      var at := FirstWithId(blocks, instance);
      if at < |blocks| then Some(Slot(cid, at))
      else if |blocks| == 1 && Nonempty(blocks[0].id).None? then Some(Slot(cid, 0))
      else None
  }

  /** An address finds a block exactly when just one block is at it. */
  lemma AddressFindsSoleBlock(p: Page, cid: string, ref: string, at: nat)
    requires IsAddressRef(ref) && at < |BlocksOf(p, cid)|
    ensures FindHubBlock(p, cid, ref) == Some(Slot(cid, at)) <==>
              BlocksOf(p, cid)[at].address == Some(ref)
              && forall i | 0 <= i < |BlocksOf(p, cid)| && i != at :: BlocksOf(p, cid)[i].address != Some(ref)
  {
    var blocks := BlocksOf(p, cid);
    var first := FirstAtAddress(blocks, ref);
    if first < |blocks| {
      var rest := blocks[first + 1..];
      forall i | first < i < |blocks| ensures blocks[i] == rest[i - first - 1] {
      }
    }
  }

  /** The block a reference finds, where its component is in the catalog. */
  function Found(p: Page, ref: Key): Option<Slot> {
    if ref.1.Some? && ref.0 in p.index then FindHubBlock(p, ref.0, ref.1.value) else None
  }

  /** The page can supply the hub. */
  predicate Resolvable(p: Page, ref: Key) {
    Found(p, ref).Some? && Extracted(BlockAt(p, Found(p, ref).value)).Some?
  }

  /** A platform-carrying block's component is the one of its platform. */
  function HubComponent(p: Page, cid: string, b: Block): string {
    if b.platform.Some? && cid + "." + b.platform.value in p.index then cid + "." + b.platform.value else cid
  }

  /** The variant for the block's platform, where the catalog has one, else the referenced component. */
  predicate IsHubComponent(p: Page, cid: string, b: Block, component: string) {
    component in p.index && (component == cid || (b.platform.Some? && component == cid + "." + b.platform.value))
    && (b.platform.Some? && cid + "." + b.platform.value in p.index ==> component != cid)
  }

  // ----- Hub identity -----

  /** The id the hub is locked on for a reference. */
  function UpstreamId(instance: string, b: Block): Option<string> {
    Nonempty(if IsAddressRef(instance) then b.id else Some(instance))
  }

  function LockIdentity(fields: Fields, instance: string, b: Block): Fields {
    var addressed := if IsAddressRef(instance) then fields["address" := instance[1..]] else fields;
    var id := UpstreamId(instance, b);
    if id.Some? then addressed["id" := id.value] else addressed
  }

  /** The pin's reference resolves against an entry with these fields. */
  predicate Identifies(fields: Fields, instance: string) {
    if IsAddressRef(instance) then "address" in fields && fields["address"] == instance[1..]
    else "id" in fields && fields["id"] == instance
  }

  /** No two references name one block by two different ids. */
  ghost predicate OneIdPerBlock(p: Page, refs: seq<Key>) {
    forall a, b | a in refs && b in refs && Resolvable(p, a) && Resolvable(p, b) && Found(p, a) == Found(p, b)
                  && !IsAddressRef(a.1.value) && !IsAddressRef(b.1.value) :: a == b
  }

  /** Two pins that give one hub without an id two names both find it, and one of them cannot resolve. */
  lemma TwoNamesForOneBlock(p: Page, cid: string, a: string, b: string)
    requires cid in p.index && |BlocksOf(p, cid)| == 1 && Nonempty(BlocksOf(p, cid)[0].id).None?
             && Extracted(BlocksOf(p, cid)[0]).Some?
    requires a != b && a != "" && b != "" && !IsAddressRef(a) && !IsAddressRef(b)
    ensures Resolvable(p, (cid, Some(a))) && Resolvable(p, (cid, Some(b)))
    ensures !OneIdPerBlock(p, [(cid, Some(a)), (cid, Some(b))])
  {
    var refs := [(cid, Some(a)), (cid, Some(b))];
    assert refs[0] in refs && refs[1] in refs && refs[0] != refs[1];
    assert Found(p, refs[0]) == Found(p, refs[1]);
  }

  /** Locking a second reference to a block keeps the first one resolving, unless both are ids. */
  lemma LockKeeps(p: Page, fields: Fields, a: Key, b: Key)
    requires Resolvable(p, a) && Resolvable(p, b) && Found(p, a) == Found(p, b)
    requires Identifies(fields, a.1.value)
    requires !IsAddressRef(a.1.value) && !IsAddressRef(b.1.value) ==> a == b
    ensures Identifies(LockIdentity(fields, b.1.value, BlockAt(p, Found(p, b).value)), a.1.value)
  {
  }

  /** Locking makes the reference itself resolve; expander references are never empty. */
  lemma LockIdentifies(fields: Fields, instance: string, b: Block)
    requires instance != ""
    ensures Identifies(LockIdentity(fields, instance, b), instance)
  {
  }

  // ----- Prerequisites -----

  /** A featured entry and the expander references of its pins. */
  datatype Leaf = Leaf(entry: Entry, refs: seq<Key>)

  function Chains(refs: seq<Key>, prereqs: map<Key, seq<string>>): seq<string> {
    if refs == [] then []
    else Chains(refs[..|refs| - 1], prereqs) + (if refs[|refs| - 1] in prereqs then prereqs[refs[|refs| - 1]] else [])
  }

  /** A consumer's prerequisites: those it had, then each reference's chain, none twice. */
  function WiredLeaf(l: Leaf, prereqs: map<Key, seq<string>>): Leaf {
    l.(entry := l.entry.(needs := AppendNew(l.entry.needs, Chains(l.refs, prereqs))))
  }

  function WiredLeaves(ls: seq<Leaf>, prereqs: map<Key, seq<string>>): seq<Leaf> {
    seq(|ls|, i requires 0 <= i < |ls| => WiredLeaf(ls[i], prereqs))
  }

  method WireConsumerRequires(ls: seq<Leaf>, prereqs: map<Key, seq<string>>) returns (wired: seq<Leaf>)
    ensures wired == WiredLeaves(ls, prereqs)
  {
    wired := [];
    for i := 0 to |ls|
      invariant wired == WiredLeaves(ls[..i], prereqs)
    {
      var needs := ls[i].entry.needs;
      for k := 0 to |ls[i].refs|
        invariant needs == AppendNew(ls[i].entry.needs, Chains(ls[i].refs[..k], prereqs))
      {
        var ref := ls[i].refs[k];
        assert ls[i].refs[..k + 1][..k] == ls[i].refs[..k];
        if ref in prereqs {
          AppendNewSplits(ls[i].entry.needs, Chains(ls[i].refs[..k], prereqs), prereqs[ref]);
          needs := Merge(needs, prereqs[ref]);
        } else {
          assert Chains(ls[i].refs[..k + 1], prereqs) == Chains(ls[i].refs[..k], prereqs);
        }
      }
      assert ls[i].refs[..|ls[i].refs|] == ls[i].refs;
      wired := wired + [ls[i].(entry := ls[i].entry.(needs := needs))];
    }
    assert ls[..|ls|] == ls;
  }

  method Merge(base: seq<string>, more: seq<string>) returns (merged: seq<string>)
    ensures merged == AppendNew(base, more)
  {
    merged := base;
    for i := 0 to |more|
      invariant merged == AppendNew(base, more[..i])
    {
      assert more[..i + 1][..i] == more[..i];
      if more[i] !in merged {
        merged := merged + [more[i]];
      }
    }
    assert more[..|more|] == more;
  }

  lemma {:induction false} ChainsHold(refs: seq<Key>, prereqs: map<Key, seq<string>>, ref: Key)
    requires ref in refs && ref in prereqs
    ensures forall q | q in prereqs[ref] :: q in Chains(refs, prereqs)
  {
    assert refs == refs[..|refs| - 1] + [refs[|refs| - 1]];
    if ref != refs[|refs| - 1] {
      ChainsHold(refs[..|refs| - 1], prereqs, ref);
    }
  }

  /** In every chain, what comes before `y` somewhere comes before it everywhere. */
  lemma {:induction false} ChainsOrdered(refs: seq<Key>, prereqs: map<Key, seq<string>>, x: string, y: string)
    requires forall ref | ref in prereqs :: Before(prereqs[ref], x, y)
    ensures Before(Chains(refs, prereqs), x, y)
  {
    if refs != [] {
      var front, last := refs[..|refs| - 1], refs[|refs| - 1];
      ChainsOrdered(front, prereqs, x, y);
      BeforeConcat(Chains(front, prereqs), if last in prereqs then prereqs[last] else [], x, y);
    }
  }

  // ----- The lift loop -----

  /**
   What the loop has built: the reference each block was first reached by, the later
   references to a block already reached, and, for each lifted reference, its
   prerequisite chain and its entry's position.
   */
  datatype Hubs = Hubs(first: map<Slot, Key>, aliases: seq<Key>, prereqs: map<Key, seq<string>>, at: map<Key, nat>)

  predicate IsFirst(p: Page, first: map<Slot, Key>, ref: Key) {
    Found(p, ref).Some? && Found(p, ref).value in first && first[Found(p, ref).value] == ref
  }

  /** Every reference that found a block is the first to it or an alias of the first. */
  ghost predicate Noted(p: Page, first: map<Slot, Key>, aliases: seq<Key>, done: seq<Key>) {
    && (forall slot | slot in first :: first[slot] in done && Found(p, first[slot]) == Some(slot))
    && (forall r | r in done && Found(p, r).Some? ::
      Found(p, r).value in first && (IsFirst(p, first, r) || r in aliases))
    && (forall a | a in aliases ::
      a in done && Found(p, a).Some? && Found(p, a).value in first && !IsFirst(p, first, a))
  }

  /** The first reference to a block is lifted whenever the block can be. */
  ghost predicate Sorted(p: Page, hs: Hubs, done: seq<Key>) {
    && Noted(p, hs.first, hs.aliases, done)
    && hs.at.Keys == hs.prereqs.Keys
    && (forall r :: r in hs.at <==> Resolvable(p, r) && IsFirst(p, hs.first, r))
  }

  /**
   Pins and the locks aside, a field is there for what the page presets, with its value.  The id is the
   block's own, or a name given to a sole block without one; the address is the preset one or the block's.
   */
  ghost predicate HubShown(s: Start, cid: string, deps: seq<string>, b: Block, fields: Fields, k: string) {
    || IsPin(s, deps, b, k)
    || (k != "id" && k != "address" && (k in fields <==> Given(b, k))
        && (k in fields ==> fields[k] == b.presets.value[k]))
    || (k == "id" && (Nonempty(b.id).Some? ==> k in fields)
        && (k in fields ==> if Nonempty(b.id).Some? then Some(fields[k]) == b.id else |BlocksOf(s.page, cid)| == 1))
    || (k == "address" && (Given(b, k) ==> k in fields)
        && (k in fields ==> (Given(b, k) && fields[k] == b.presets.value[k]) || b.address == Some("@" + fields[k])))
  }

  lemma LockShows(s: Start, a: Key, deps: seq<string>, fields: Fields, k: string)
    requires Found(s.page, a).Some? && a.1 != Some("")
    requires var b := BlockAt(s.page, Found(s.page, a).value);
             (k == "id" && k !in fields) || HubShown(s, a.0, deps, b, fields, k)
    ensures var b := BlockAt(s.page, Found(s.page, a).value);
            HubShown(s, a.0, deps, b, LockIdentity(fields, a.1.value, b), k)
  {
    var instance := a.1.value;
    if IsAddressRef(instance) {
      assert instance == "@" + instance[1..];
    }
  }

  /** What a hub is first lifted with shows its block. */
  lemma HubFieldsShow(s: Start, a: Key, deps: seq<string>, refs: Fields, k: string)
    requires Resolvable(s.page, a) && a.1 != Some("")
    requires var b := BlockAt(s.page, Found(s.page, a).value); Pinned(s, deps, b, refs)
    ensures var b := BlockAt(s.page, Found(s.page, a).value);
            HubShown(s, a.0, deps, b, HubFields(b, a.1.value, refs), k)
  {
    var b := BlockAt(s.page, Found(s.page, a).value);
    LockShows(s, a, deps, Extracted(b).value, k);
    if k in refs {
      var dep :| dep in deps && k == IdField(dep) && Pins(s, b, dep);
    }
  }

  /** The entry of a lifted hub: its component, what it shows of its block, its buses, and the pins onto them. */
  ghost predicate Serves(s: Start, v: Lifted, ref: Key, at: int, chain: seq<string>) {
    && Resolvable(s.page, ref) && at in v.hubs && 0 <= at < |v.extra|
    && var e, b := v.extra[at], BlockAt(s.page, Found(s.page, ref).value);
       && chain == e.needs + [e.id]
       && e.component == HubComponent(s.page, ref.0, b)
       && Wired(s, v.bus, DepsOf(s.page, e.component), b, e.needs) && Distinct(e.needs)
       && (forall k :: HubShown(s, ref.0, DepsOf(s.page, e.component), b, e.fields, k))
       && forall dep | dep in DepsOf(s.page, e.component) && Pins(s, b, dep) ::
            IdField(dep) in e.fields && e.fields[IdField(dep)] == DepKey(b, dep).1.value
  }

  ghost predicate HubsServe(s: Start, v: Lifted, hs: Hubs) {
    && hs.at.Keys == hs.prereqs.Keys
    && (forall r | r in hs.at :: Serves(s, v, r, hs.at[r], hs.prereqs[r]))
    && (forall a, b | a in hs.at && b in hs.at && a != b :: hs.at[a] != hs.at[b])
  }

  ghost predicate HubsIdentify(v: Lifted, at: map<Key, nat>) {
    forall r | r in at :: r.1.Some? && at[r] < |v.extra| && Identifies(v.extra[at[r]].fields, r.1.value)
  }

  lemma ServesStable(s: Start, v: Lifted, w: Lifted, ref: Key, at: int, chain: seq<string>)
    requires Serves(s, v, ref, at, chain) && Extends(s, v, w)
    ensures Serves(s, w, ref, at, chain) && w.extra[at] == v.extra[at]
  {
    WiredStable(s, v.bus, w.bus, DepsOf(s.page, v.extra[at].component), BlockAt(s.page, Found(s.page, ref).value),
      v.extra[at].needs);
  }

  lemma HubsStable(s: Start, v: Lifted, w: Lifted, hs: Hubs)
    requires HubsServe(s, v, hs) && HubsIdentify(v, hs.at) && Extends(s, v, w)
    ensures HubsServe(s, w, hs) && HubsIdentify(w, hs.at)
  {
    forall r | r in hs.at ensures Serves(s, w, r, hs.at[r], hs.prereqs[r]) && w.extra[hs.at[r]] == v.extra[hs.at[r]] {
      ServesStable(s, v, w, r, hs.at[r], hs.prereqs[r]);
    }
  }

  function AllRefs(ls: seq<Leaf>): seq<Key> {
    if ls == [] then [] else AllRefs(ls[..|ls| - 1]) + ls[|ls| - 1].refs
  }

  /** The references of all pins, in first-seen order. */
  method OrderedRefs(ls: seq<Leaf>) returns (ordered: seq<Key>)
    ensures ordered == Dedup(AllRefs(ls))
  {
    ordered := [];
    for i := 0 to |ls|
      invariant ordered == Dedup(AllRefs(ls[..i]))
    {
      assert ls[..i + 1][..i] == ls[..i];
      AppendNewSplits([], AllRefs(ls[..i]), ls[i].refs);
      ghost var before := ordered;
      for k := 0 to |ls[i].refs|
        invariant ordered == AppendNew(before, ls[i].refs[..k])
      {
        assert ls[i].refs[..k + 1][..k] == ls[i].refs[..k];
        if ls[i].refs[k] !in ordered {
          ordered := ordered + [ls[i].refs[k]];
        }
      }
      assert ls[i].refs[..|ls[i].refs|] == ls[i].refs;
    }
    assert ls[..|ls|] == ls;
  }

  /** The fields a hub is first lifted with. */
  function HubFields(b: Block, instance: string, busRefs: Fields): Fields
    requires Extracted(b).Some?
  {
    LockIdentity(Extracted(b).value, instance, b) + busRefs
  }

  /** A hub entry appended with the buses gathered for its block serves the reference. */
  lemma AppendedServes(s: Start, w: Lifted, ref: Key, id: string, busIds: seq<string>, busRefs: Fields)
    requires Resolvable(s.page, ref) && ref.1 != Some("")
    requires var b := BlockAt(s.page, Found(s.page, ref).value);
             Collected(s, w.bus, DepsOf(s.page, HubComponent(s.page, ref.0, b)), b, busIds, busRefs)
    ensures var b := BlockAt(s.page, Found(s.page, ref).value);
            var e := Entry(id, HubComponent(s.page, ref.0, b), HubFields(b, ref.1.value, busRefs), busIds);
            Serves(s, AddHub(w, e), ref, |w.extra|, busIds + [id]) && Identifies(e.fields, ref.1.value)
  {
    var b := BlockAt(s.page, Found(s.page, ref).value);
    var deps := DepsOf(s.page, HubComponent(s.page, ref.0, b));
    BusRefsKeepIdentity(s, deps, b, Extracted(b).value, ref.1.value, busRefs);
    forall k ensures HubShown(s, ref.0, deps, b, HubFields(b, ref.1.value, busRefs), k) {
      HubFieldsShow(s, ref, deps, busRefs, k);
    }
  }

  /** What lifting the hub of `r` lifted besides it. */
  ghost predicate HubAsks(s: Start, v: Lifted, w: Lifted, r: Key)
    requires Resolvable(s.page, r)
  {
    var b := BlockAt(s.page, Found(s.page, r).value);
    Asked(s.page, v.lifts, w.lifts, DepsOf(s.page, HubComponent(s.page, r.0, b)), b)
  }

  lemma HubLifted(
    s: Start, before: Lifted, w: Lifted, after: Lifted, ref: Key, id: string, busIds: seq<string>, busRefs: Fields)
    requires (forall h | h in before.hubs :: h < |before.extra|) && Extends(s, before, w) && Extends(s, w, after)
    requires Resolvable(s.page, ref) && ref.1 != Some("")
    requires var b := BlockAt(s.page, Found(s.page, ref).value);
             && Collected(s, w.bus, DepsOf(s.page, HubComponent(s.page, ref.0, b)), b, busIds, busRefs)
             && after == AddHub(w, Entry(id, HubComponent(s.page, ref.0, b), HubFields(b, ref.1.value, busRefs),
               busIds))
    ensures Extends(s, before, after) && |after.extra| - 1 !in before.hubs
    ensures Serves(s, after, ref, |after.extra| - 1, busIds + [id])
            && Identifies(after.extra[|after.extra| - 1].fields, ref.1.value)
  {
    AppendedServes(s, w, ref, id, busIds, busRefs);
    ExtendsTransitive(s, before, w, after);
  }

  /** The local id comes from the id the hub answers to, else from its component. */
  ghost predicate NamedForHub(p: Page, ref: Key, local: string)
    requires Resolvable(p, ref) && ref.1 != Some("")
  {
    var id := if ref.1.value[0] == '@' then BlockAt(p, Found(p, ref).value).id else ref.1;
    IsNamedFor(local, if id in {None, Some("")} then "" else p.sanitize(id.value), ref.0)
  }

  /** Lift one hub block: its buses, its identity, its entry. */
  method LiftHub(state: LiftState, ref: Key) returns (at: nat, chain: seq<string>)
    requires Resolvable(state.page, ref) && ref.1 != Some("") && Good(state.From(), state.View(), {})
    modifies state
    ensures Good(state.From(), state.View(), {}) && Extends(state.From(), old(state.View()), state.View())
    ensures at !in old(state.hubs) && Serves(state.From(), state.View(), ref, at, chain)
    ensures Identifies(state.extra[at].fields, ref.1.value) && NamedForHub(state.page, ref, state.extra[at].id)
    ensures state.hubs == old(state.hubs) + {at} && HubAsks(state.From(), old(state.View()), state.View(), ref)
  {
    var block := BlockAt(state.page, Found(state.page, ref).value);
    var component := HubComponent(state.page, ref.0, block);
    ghost var before := state.View();
    var busIds, busRefs := state.EnsureBuses(DepsOf(state.page, component), block, {});
    ghost var ensured := state.View();
    var hubId := PlaceHub(state, ref, block, component, busIds, busRefs);
    HubLifted(state.From(), before, ensured, state.View(), ref, hubId, busIds, busRefs);
    at, chain := |state.extra| - 1, busIds + [hubId];
  }

  function BaseOf(p: Page, id: Option<string>): string {
    if id.Some? then p.sanitize(id.value) else ""
  }

  method PlaceHub(state: LiftState, ref: Key, block: Block, component: string, busIds: seq<string>, busRefs: Fields)
    returns (hubId: string)
    requires Good(state.From(), state.View(), {}) && ref.1.Some? && Extracted(block).Some?
    requires Collected(state.From(), state.busLocal, DepsOf(state.page, component), block, busIds, busRefs)
    modifies state
    ensures Good(state.From(), state.View(), {}) && Extends(state.From(), old(state.View()), state.View())
    ensures state.View() == AddHub(old(state.View()),
            Entry(hubId, component, HubFields(block, ref.1.value, busRefs), busIds))
    ensures IsNamedFor(hubId, BaseOf(state.page, UpstreamId(ref.1.value, block)), ref.0)
  {
    var id := UpstreamId(ref.1.value, block);
    hubId := state.AppendHub(component, HubFields(block, ref.1.value, busRefs), busIds, BaseOf(state.page, id), ref.0,
                             DepsOf(state.page, component), block);
  }

  /** The bus pins of a hub are not its identity. */
  lemma BusRefsKeepIdentity(s: Start, deps: seq<string>, b: Block, fields: Fields, instance: string, refs: Fields)
    requires Pinned(s, deps, b, refs) && instance != ""
    ensures Identifies(LockIdentity(fields, instance, b) + refs, instance)
  {
    forall f | f in refs ensures f != "id" && f != "address" {
      var dep :| dep in deps && f == IdField(dep) && Pins(s, b, dep);
      IdFieldIsNoIdentity(dep);
    }
    LockIdentifies(fields, instance, b);
  }

  lemma IdFieldIsNoIdentity(dep: string)
    ensures IdField(dep) != "id" && IdField(dep) != "address"
  {
    var f := IdField(dep);
    assert f[|f| - 1] == 'd' && |f| == |dep| + 3;
    assert "address"[|"address"| - 1] == 's';
  }

  function WithHub(hs: Hubs, ref: Key, at: nat, chain: seq<string>): Hubs {
    hs.(prereqs := hs.prereqs[ref := chain], at := hs.at[ref := at])
  }

  lemma SortedSkip(p: Page, hs: Hubs, done: seq<Key>, ref: Key)
    requires Sorted(p, hs, done) && Found(p, ref).None?
    ensures Sorted(p, hs, done + [ref])
  {
  }

  lemma SortedAlias(p: Page, hs: Hubs, done: seq<Key>, ref: Key)
    requires Sorted(p, hs, done) && ref !in done && Found(p, ref).Some? && Found(p, ref).value in hs.first
    ensures Sorted(p, hs.(aliases := hs.aliases + [ref]), done + [ref])
  {
    assert !IsFirst(p, hs.first, ref);
  }

  lemma NotedFirst(p: Page, first: map<Slot, Key>, aliases: seq<Key>, done: seq<Key>, ref: Key)
    requires Noted(p, first, aliases, done) && Found(p, ref).Some? && Found(p, ref).value !in first
    ensures Noted(p, first[Found(p, ref).value := ref], aliases, done + [ref])
    ensures forall r :: IsFirst(p, first[Found(p, ref).value := ref], r) <==> IsFirst(p, first, r) || r == ref
  {
    var now := first[Found(p, ref).value := ref];
    forall r ensures IsFirst(p, now, r) <==> IsFirst(p, first, r) || r == ref {
    }
    forall a | a in aliases
      ensures a in done + [ref] && Found(p, a).Some? && Found(p, a).value in now && !IsFirst(p, now, a)
    {
      assert Found(p, a).value in first;
    }
  }

  lemma SortedStuck(p: Page, hs: Hubs, done: seq<Key>, ref: Key)
    requires Sorted(p, hs, done) && Found(p, ref).Some? && Found(p, ref).value !in hs.first && !Resolvable(p, ref)
    ensures Sorted(p, hs.(first := hs.first[Found(p, ref).value := ref]), done + [ref])
  {
    NotedFirst(p, hs.first, hs.aliases, done, ref);
  }

  lemma SortedLift(p: Page, hs: Hubs, done: seq<Key>, ref: Key, at: nat, chain: seq<string>)
    requires Sorted(p, hs, done) && Resolvable(p, ref) && Found(p, ref).value !in hs.first
    ensures Sorted(p, WithHub(hs.(first := hs.first[Found(p, ref).value := ref]), ref, at, chain), done + [ref])
  {
    NotedFirst(p, hs.first, hs.aliases, done, ref);
  }

  /** A bus lifted because the hub of `r` depends on it. */
  ghost predicate HubWants(p: Page, r: Key, key: Key) {
    Resolvable(p, r) && var b := BlockAt(p, Found(p, r).value); AmongDeps(key, DepsOf(p, HubComponent(p, r.0, b)), b)
  }

  ghost predicate WantedLift(s: Start, v: Lifted, at: map<Key, nat>, n: nat)
    requires n < |v.lifts|
  {
    Ridden(s.page, v.lifts, 0, n) || exists r :: r in at && HubWants(s.page, r, v.lifts[n].key)
  }

  /** Every hub entry is some reference's, and every bus is one that a hub or another lifted bus depends on. */
  ghost predicate AllWanted(s: Start, v: Lifted, at: map<Key, nat>) {
    && (forall h | h in v.hubs :: exists r :: r in at && at[r] == h)
    && (forall n | 0 <= n < |v.lifts| :: WantedLift(s, v, at, n))
  }

  lemma AllWantedNext(s: Start, v: Lifted, w: Lifted, at: map<Key, nat>, r: Key, pos: nat)
    requires AllWanted(s, v, at) && r !in at && w.hubs == v.hubs + {pos} && Resolvable(s.page, r)
    requires HubAsks(s, v, w, r)
    ensures AllWanted(s, w, at[r := pos])
  {
    var now := at[r := pos];
    forall h | h in w.hubs ensures exists q :: q in now && now[q] == h {
      if h in v.hubs {
        var q :| q in at && at[q] == h;
        assert q in now && now[q] == h;
      } else {
        assert r in now && now[r] == h;
      }
    }
    forall n | 0 <= n < |w.lifts| ensures WantedLift(s, w, now, n) {
      if n < |v.lifts| {
        assert w.lifts[n] == v.lifts[n] && WantedLift(s, v, at, n);
        if Ridden(s.page, v.lifts, 0, n) {
          var m :| 0 <= m < n && RiddenBy(s.page, v.lifts, m, n);
          assert RiddenBy(s.page, w.lifts, m, n);
        } else {
          var q :| q in at && HubWants(s.page, q, v.lifts[n].key);
          assert q in now;
        }
      } else if Ridden(s.page, w.lifts, |v.lifts|, n) {
        var m :| |v.lifts| <= m < n && RiddenBy(s.page, w.lifts, m, n);
      } else {
        assert HubWants(s.page, r, w.lifts[n].key) && r in now;
      }
    }
  }

  /** What the lift loop keeps after `i` references. */
  ghost predicate Lifting(s: Start, v: Lifted, hs: Hubs, ordered: seq<Key>, i: nat)
    requires i <= |ordered|
  {
    Sorted(s.page, hs, ordered[..i]) && HubsServe(s, v, hs) && HubsIdentify(v, hs.at) && AllWanted(s, v, hs.at)
  }

  lemma LiftingStart(s: Start, v: Lifted, ordered: seq<Key>)
    requires v.hubs == {} && v.lifts == []
    ensures Lifting(s, v, Hubs(map[], [], map[], map[]), ordered, 0)
  {
  }

  /** Lift each block the references find, once. */
  method LiftHubs(state: LiftState, ordered: seq<Key>) returns (hs: Hubs)
    requires Distinct(ordered) && (forall r | r in ordered :: r.1 != Some("")) && Good(state.From(), state.View(), {})
    requires state.hubs == {} && state.lifts == []
    modifies state
    ensures Good(state.From(), state.View(), {}) && Lifting(state.From(), state.View(), hs, ordered, |ordered|)
  {
    hs := Hubs(map[], [], map[], map[]);
    LiftingStart(state.From(), state.View(), ordered);
    for i := 0 to |ordered|
      invariant Good(state.From(), state.View(), {}) && Lifting(state.From(), state.View(), hs, ordered, i)
    {
      hs := LiftNext(state, hs, ordered, i);
    }
  }

  lemma LiftingSkip(s: Start, v: Lifted, hs: Hubs, ordered: seq<Key>, i: nat)
    requires i < |ordered| && Distinct(ordered) && Lifting(s, v, hs, ordered, i)
    ensures var ref := ordered[i]; var slot := Found(s.page, ref);
            && (slot.None? ==> Lifting(s, v, hs, ordered, i + 1))
            && (slot.Some? && slot.value in hs.first ==>
              Lifting(s, v, hs.(aliases := hs.aliases + [ref]), ordered, i + 1))
            && (slot.Some? && slot.value !in hs.first && !Resolvable(s.page, ref) ==>
                  Lifting(s, v, hs.(first := hs.first[slot.value := ref]), ordered, i + 1))
  {
    var ref := ordered[i];
    TakeNext(ordered, i);
    DistinctSplit(ordered, i);
    if Found(s.page, ref).None? {
      SortedSkip(s.page, hs, ordered[..i], ref);
    } else if Found(s.page, ref).value in hs.first {
      SortedAlias(s.page, hs, ordered[..i], ref);
    } else if !Resolvable(s.page, ref) {
      SortedStuck(s.page, hs, ordered[..i], ref);
    }
  }

  lemma LiftingLift(s: Start, v: Lifted, w: Lifted, hs: Hubs, ordered: seq<Key>, i: nat, at: nat, chain: seq<string>)
    requires i < |ordered| && Lifting(s, v, hs, ordered, i) && Extends(s, v, w)
    requires Resolvable(s.page, ordered[i]) && Found(s.page, ordered[i]).value !in hs.first
    requires at !in v.hubs && Serves(s, w, ordered[i], at, chain) && Identifies(w.extra[at].fields, ordered[i].1.value)
    requires w.hubs == v.hubs + {at} && HubAsks(s, v, w, ordered[i])
    ensures var more := hs.(first := hs.first[Found(s.page, ordered[i]).value := ordered[i]]);
            Lifting(s, w, WithHub(more, ordered[i], at, chain), ordered, i + 1)
  {
    var ref := ordered[i];
    var noted := hs.(first := hs.first[Found(s.page, ref).value := ref]);
    TakeNext(ordered, i);
    HubsStable(s, v, w, hs);
    SortedLift(s.page, hs, ordered[..i], ref, at, chain);
    PlacedApart(s, v, hs, at);
    ServeNext(s, w, noted, ref, at, chain);
    IdentifyNext(w, noted.at, ref, at);
    AllWantedNext(s, v, w, noted.at, ref, at);
  }

  method LiftNext(state: LiftState, hs: Hubs, ordered: seq<Key>, i: nat) returns (now: Hubs)
    requires Good(state.From(), state.View(), {}) && Distinct(ordered) && i < |ordered| && ordered[i].1 != Some("")
    requires Lifting(state.From(), state.View(), hs, ordered, i)
    modifies state
    ensures Good(state.From(), state.View(), {}) && Lifting(state.From(), state.View(), now, ordered, i + 1)
  {
    var ref := ordered[i];
    LiftingSkip(state.From(), state.View(), hs, ordered, i);
    var slot := Found(state.page, ref);
    if slot.None? {
      return hs;
    }
    if slot.value in hs.first {
      return hs.(aliases := hs.aliases + [ref]);
    }
    now := hs.(first := hs.first[slot.value := ref]);
    if Extracted(BlockAt(state.page, slot.value)).None? {
      return;
    }
    ghost var before := state.View();
    var at, chain := LiftHub(state, ref);
    LiftingLift(state.From(), before, state.View(), hs, ordered, i, at, chain);
    now := WithHub(now, ref, at, chain);
  }

  lemma PlacedApart(s: Start, v: Lifted, hs: Hubs, at: nat)
    requires HubsServe(s, v, hs) && at !in v.hubs
    ensures forall a | a in hs.at :: hs.at[a] != at
  {
    forall a | a in hs.at ensures hs.at[a] != at {
      assert Serves(s, v, a, hs.at[a], hs.prereqs[a]);
    }
  }

  lemma ServesAll(s: Start, w: Lifted, hs: Hubs, ref: Key, at: nat, chain: seq<string>)
    requires HubsServe(s, w, hs) && Serves(s, w, ref, at, chain)
    ensures var now := WithHub(hs, ref, at, chain); forall r | r in now.at :: Serves(s, w, r, now.at[r], now.prereqs[r])
  {
    var now := WithHub(hs, ref, at, chain);
    forall r | r in now.at ensures Serves(s, w, r, now.at[r], now.prereqs[r]) {
      if r != ref {
        assert Serves(s, w, r, hs.at[r], hs.prereqs[r]);
      }
    }
  }

  lemma IdentifyNext(w: Lifted, at: map<Key, nat>, ref: Key, pos: nat)
    requires HubsIdentify(w, at) && ref.1.Some? && pos < |w.extra| && Identifies(w.extra[pos].fields, ref.1.value)
    ensures HubsIdentify(w, at[ref := pos])
  {
  }

  lemma ServeNext(s: Start, w: Lifted, hs: Hubs, ref: Key, at: nat, chain: seq<string>)
    requires HubsServe(s, w, hs) && forall a | a in hs.at :: hs.at[a] != at
    requires Serves(s, w, ref, at, chain)
    ensures HubsServe(s, w, WithHub(hs, ref, at, chain))
  {
    ServesAll(s, w, hs, ref, at, chain);
    var now := WithHub(hs, ref, at, chain);
    forall a, b | a in now.at && b in now.at && a != b ensures now.at[a] != now.at[b] {
    }
  }

  // ----- Aliases -----

  /** The first reference to a reference's block. */
  function FirstOf(hs: Hubs, p: Page, ref: Key): Key {
    if Found(p, ref).Some? && Found(p, ref).value in hs.first then hs.first[Found(p, ref).value] else ref
  }

  predicate HasChain(p: Page, hs: Hubs, aliases: seq<Key>, r: Key) {
    r in hs.prereqs || (r in aliases && FirstOf(hs, p, r) in hs.prereqs)
  }

  function ChainOf(p: Page, hs: Hubs, r: Key): seq<string> {
    if FirstOf(hs, p, r) in hs.prereqs then hs.prereqs[FirstOf(hs, p, r)] else []
  }

  /** Each alias merged so far shares the chain of the first reference to its block. */
  ghost predicate Merged(p: Page, hs: Hubs, aliases: seq<Key>, prereqs: map<Key, seq<string>>) {
    && (forall r :: r in prereqs <==> HasChain(p, hs, aliases, r))
    && (forall r | r in prereqs :: prereqs[r] == ChainOf(p, hs, r))
  }

  /** The reference, when its block is lifted, resolves against the entry. */
  predicate IdentifiedAt(p: Page, v: Lifted, hs: Hubs, r: Key) {
    FirstOf(hs, p, r) in hs.at ==>
      r.1.Some? && 0 <= hs.at[FirstOf(hs, p, r)] < |v.extra|
        && Identifies(v.extra[hs.at[FirstOf(hs, p, r)]].fields, r.1.value)
  }

  ghost predicate AllIdentified(p: Page, v: Lifted, hs: Hubs, refs: set<Key>) {
    forall r | r in refs :: IdentifiedAt(p, v, hs, r)
  }

  lemma FirstIsOwnFirst(p: Page, hs: Hubs, done: seq<Key>, r: Key)
    requires Sorted(p, hs, done)
    ensures r in hs.at ==> FirstOf(hs, p, r) == r
    ensures r in done && FirstOf(hs, p, r) in hs.at ==> Resolvable(p, r) && Found(p, FirstOf(hs, p, r)) == Found(p, r)
    ensures r in done && Resolvable(p, r) ==> FirstOf(hs, p, r) in hs.at && (r in hs.at || r in hs.aliases)
  {
  }

  lemma LockKeepsPins(fields: Fields, instance: string, b: Block, dep: string)
    requires IdField(dep) in fields
    ensures var locked := LockIdentity(fields, instance, b);
            IdField(dep) in locked && locked[IdField(dep)] == fields[IdField(dep)]
  {
    IdFieldIsNoIdentity(dep);
  }

  lemma RelockedServes(s: Start, v: Lifted, a: Key, at: nat, chain: seq<string>)
    requires Serves(s, v, a, at, chain) && a.1 != Some("")
    ensures var b := BlockAt(s.page, Found(s.page, a).value);
            Serves(s, Refield(v, at, LockIdentity(v.extra[at].fields, a.1.value, b)), a, at, chain)
  {
    var e, b := v.extra[at], BlockAt(s.page, Found(s.page, a).value);
    var deps := DepsOf(s.page, e.component);
    forall dep | IdField(dep) in e.fields
      ensures IdField(dep) in LockIdentity(e.fields, a.1.value, b)
              && LockIdentity(e.fields, a.1.value, b)[IdField(dep)] == e.fields[IdField(dep)]
    {
      LockKeepsPins(e.fields, a.1.value, b, dep);
    }
    forall k ensures HubShown(s, a.0, deps, b, LockIdentity(e.fields, a.1.value, b), k) {
      assert HubShown(s, a.0, deps, b, e.fields, k);
      LockShows(s, a, deps, e.fields, k);
    }
  }

  lemma RelockServes(s: Start, v: Lifted, hs: Hubs, done: seq<Key>, a: Key)
    requires Sorted(s.page, hs, done) && HubsServe(s, v, hs) && a in done && CanRelock(s.page, v, hs, a)
    ensures HubsServe(s, Relocked(s.page, v, hs, a), hs)
  {
    var f, w := FirstOf(hs, s.page, a), Relocked(s.page, v, hs, a);
    FirstIsOwnFirst(s.page, hs, done, a);
    forall r | r in hs.at ensures Serves(s, w, r, hs.at[r], hs.prereqs[r]) {
      assert Serves(s, v, r, hs.at[r], hs.prereqs[r]);
      if r == f {
        SameBlockServes(s, v, f, a, hs.at[f], hs.prereqs[f]);
        RelockedServes(s, v, a, hs.at[f], hs.prereqs[f]);
        SameBlockServes(s, w, a, f, hs.at[f], hs.prereqs[f]);
      }
    }
  }

  /** The references locked after `k` aliases. */
  function Upto(hs: Hubs, k: nat): set<Key>
    requires k <= |hs.aliases|
  {
    hs.at.Keys + set r | r in hs.aliases[..k]
  }

  lemma UptoNext(hs: Hubs, k: nat)
    requires k < |hs.aliases|
    ensures Upto(hs, k + 1) == Upto(hs, k) + {hs.aliases[k]}
  {
    TakeNext(hs.aliases, k);
  }

  /** What the merge loop keeps after `k` aliases. */
  ghost predicate Merging(s: Start, v: Lifted, hs: Hubs, done: seq<Key>, k: nat, prereqs: map<Key, seq<string>>)
    requires k <= |hs.aliases|
  {
    && HubsServe(s, v, hs)
    && Merged(s.page, hs, hs.aliases[..k], prereqs)
    && (OneIdPerBlock(s.page, done) ==> AllIdentified(s.page, v, hs, Upto(hs, k)))
  }

  lemma OwnFirst(p: Page, hs: Hubs, done: seq<Key>)
    requires Sorted(p, hs, done)
    ensures forall r | r in hs.at :: FirstOf(hs, p, r) == r
    ensures Merged(p, hs, [], hs.prereqs)
  {
    forall r | r in hs.at ensures FirstOf(hs, p, r) == r {
      FirstIsOwnFirst(p, hs, done, r);
    }
  }

  lemma MergingStart(s: Start, v: Lifted, hs: Hubs, done: seq<Key>)
    requires Sorted(s.page, hs, done) && HubsServe(s, v, hs) && HubsIdentify(v, hs.at)
    ensures Merging(s, v, hs, done, 0, hs.prereqs)
  {
    OwnFirst(s.page, hs, done);
    assert hs.aliases[..0] == [];
    assert Upto(hs, 0) == hs.at.Keys;
    forall r | r in hs.at ensures IdentifiedAt(s.page, v, hs, r) {
      assert Serves(s, v, r, hs.at[r], hs.prereqs[r]);
    }
  }

  lemma MergingEnd(s: Start, v: Lifted, hs: Hubs, done: seq<Key>, prereqs: map<Key, seq<string>>)
    requires Sorted(s.page, hs, done) && Merging(s, v, hs, done, |hs.aliases|, prereqs)
    ensures OneIdPerBlock(s.page, done) ==> AllIdentified(s.page, v, hs, set r | r in done)
    ensures forall r | r in prereqs :: r in done && prereqs[r] == ChainOf(s.page, hs, r)
    ensures forall r | r in done :: r in prereqs <==> Resolvable(s.page, r)
    ensures forall r | r in hs.at :: r in prereqs
  {
    assert hs.aliases[..|hs.aliases|] == hs.aliases;
    forall r | r in done
      ensures FirstOf(hs, s.page, r) in hs.at <==> Resolvable(s.page, r)
      ensures FirstOf(hs, s.page, r) in hs.at ==> r in hs.at || r in hs.aliases {
      FirstIsOwnFirst(s.page, hs, done, r);
    }
    forall r | r in hs.at ensures r in done && FirstOf(hs, s.page, r) == r {
      assert IsFirst(s.page, hs.first, r);
    }
  }

  lemma MergedNext(p: Page, hs: Hubs, before: seq<Key>, a: Key, prereqs: map<Key, seq<string>>)
    requires Merged(p, hs, before, prereqs)
    ensures FirstOf(hs, p, a) in hs.prereqs ==> Merged(p, hs, before + [a], prereqs[a := hs.prereqs[FirstOf(hs, p, a)]])
    ensures FirstOf(hs, p, a) !in hs.prereqs ==> Merged(p, hs, before + [a], prereqs)
  {
  }

  predicate CanRelock(p: Page, v: Lifted, hs: Hubs, a: Key) {
    && a.1.Some? && a.1 != Some("") && Found(p, a).Some?
    && FirstOf(hs, p, a) in hs.at && 0 <= hs.at[FirstOf(hs, p, a)] < |v.extra|
  }

  function Relocked(p: Page, v: Lifted, hs: Hubs, a: Key): Lifted
    requires CanRelock(p, v, hs, a)
  {
    var at := hs.at[FirstOf(hs, p, a)];
    Refield(v, at, LockIdentity(v.extra[at].fields, a.1.value, BlockAt(p, Found(p, a).value)))
  }

  /**
   Locking an alias's identity makes it resolve, and keeps every other reference resolving
   when no block has two ids.
   */
  lemma RelockKeeps(s: Start, v: Lifted, hs: Hubs, done: seq<Key>, r: Key, a: Key)
    requires Sorted(s.page, hs, done) && HubsServe(s, v, hs) && OneIdPerBlock(s.page, done)
    requires a in done && r in done && (r == a || IdentifiedAt(s.page, v, hs, r))
    requires CanRelock(s.page, v, hs, a)
    ensures IdentifiedAt(s.page, Relocked(s.page, v, hs, a), hs, r)
  {
    FirstIsOwnFirst(s.page, hs, done, a);
    FirstIsOwnFirst(s.page, hs, done, r);
    var at := hs.at[FirstOf(hs, s.page, a)];
    LockIdentifies(v.extra[at].fields, a.1.value, BlockAt(s.page, Found(s.page, a).value));
    if r != a && FirstOf(hs, s.page, r) == FirstOf(hs, s.page, a) {
      LockKeeps(s.page, v.extra[at].fields, r, a);
    }
  }

  lemma RelockIdentifies(s: Start, v: Lifted, hs: Hubs, done: seq<Key>, refs: set<Key>, a: Key)
    requires Sorted(s.page, hs, done) && HubsServe(s, v, hs) && OneIdPerBlock(s.page, done)
    requires AllIdentified(s.page, v, hs, refs) && (forall r | r in refs + {a} :: r in done)
    requires CanRelock(s.page, v, hs, a)
    ensures AllIdentified(s.page, Relocked(s.page, v, hs, a), hs, refs + {a})
  {
    var w := Relocked(s.page, v, hs, a);
    forall r | r in refs + {a} ensures IdentifiedAt(s.page, w, hs, r) {
      assert r == a || IdentifiedAt(s.page, v, hs, r);
      RelockKeeps(s, v, hs, done, r, a);
    }
  }

  lemma MergingRelock(s: Start, v: Lifted, hs: Hubs, done: seq<Key>, k: nat, prereqs: map<Key, seq<string>>)
    requires k < |hs.aliases| && Sorted(s.page, hs, done) && Merging(s, v, hs, done, k, prereqs)
    requires CanRelock(s.page, v, hs, hs.aliases[k])
    ensures Merging(s, Relocked(s.page, v, hs, hs.aliases[k]), hs, done, k + 1,
                    prereqs[hs.aliases[k] := hs.prereqs[FirstOf(hs, s.page, hs.aliases[k])]])
  {
    var a := hs.aliases[k];
    TakeNext(hs.aliases, k);
    RelockServes(s, v, hs, done, a);
    MergedNext(s.page, hs, hs.aliases[..k], a, prereqs);
    if OneIdPerBlock(s.page, done) {
      RelockAll(s, v, hs, done, k);
    }
  }

  lemma RelockAll(s: Start, v: Lifted, hs: Hubs, done: seq<Key>, k: nat)
    requires k < |hs.aliases| && Sorted(s.page, hs, done) && HubsServe(s, v, hs) && OneIdPerBlock(s.page, done)
    requires AllIdentified(s.page, v, hs, Upto(hs, k))
    requires CanRelock(s.page, v, hs, hs.aliases[k])
    ensures AllIdentified(s.page, Relocked(s.page, v, hs, hs.aliases[k]), hs, Upto(hs, k + 1))
  {
    UptoNext(hs, k);
    MergedAreDone(s.page, hs, done, k);
    RelockIdentifies(s, v, hs, done, Upto(hs, k), hs.aliases[k]);
  }

  lemma MergedAreDone(p: Page, hs: Hubs, done: seq<Key>, k: nat)
    requires k < |hs.aliases| && Sorted(p, hs, done)
    ensures forall r | r in Upto(hs, k) + {hs.aliases[k]} :: r in done
  {
    forall r | r in hs.at ensures r in done {
      assert IsFirst(p, hs.first, r);
    }
  }

  lemma MergingSkip(s: Start, v: Lifted, hs: Hubs, done: seq<Key>, k: nat, prereqs: map<Key, seq<string>>)
    requires k < |hs.aliases| && Merging(s, v, hs, done, k, prereqs) && FirstOf(hs, s.page, hs.aliases[k]) !in hs.at
    ensures Merging(s, v, hs, done, k + 1, prereqs)
  {
    TakeNext(hs.aliases, k);
    MergedNext(s.page, hs, hs.aliases[..k], hs.aliases[k], prereqs);
  }

  /** Point each alias at its first lift's chain, and lock its identity there too. */
  method MergeAliasRefs(state: LiftState, hs: Hubs, ghost done: seq<Key>) returns (prereqs: map<Key, seq<string>>)
    requires Good(state.From(), state.View(), {}) && (forall r | r in done :: r.1 != Some(""))
    requires Sorted(state.page, hs, done) && HubsServe(state.From(), state.View(), hs)
             && HubsIdentify(state.View(), hs.at)
    modifies state
    ensures Good(state.From(), state.View(), {}) && state.hubs == old(state.hubs) && state.lifts == old(state.lifts)
    ensures Merging(state.From(), state.View(), hs, done, |hs.aliases|, prereqs)
  {
    prereqs := hs.prereqs;
    MergingStart(state.From(), state.View(), hs, done);
    for k := 0 to |hs.aliases|
      invariant Good(state.From(), state.View(), {}) && state.hubs == old(state.hubs) && state.lifts == old(state.lifts)
      invariant Merging(state.From(), state.View(), hs, done, k, prereqs)
    {
      prereqs := MergeNext(state, hs, done, k, prereqs);
    }
  }

  method MergeNext(state: LiftState, hs: Hubs, ghost done: seq<Key>, k: nat, prereqs: map<Key, seq<string>>)
    returns (merged: map<Key, seq<string>>)
    requires Good(state.From(), state.View(), {}) && Sorted(state.page, hs, done)
             && (forall r | r in done :: r.1 != Some(""))
    requires k < |hs.aliases| && Merging(state.From(), state.View(), hs, done, k, prereqs)
    modifies state
    ensures Good(state.From(), state.View(), {}) && Merging(state.From(), state.View(), hs, done, k + 1, merged)
    ensures state.hubs == old(state.hubs) && state.lifts == old(state.lifts)
  {
    var a := hs.aliases[k];
    var first := FirstOf(hs, state.page, a);
    FirstIsOwnFirst(state.page, hs, done, first);
    if first !in prereqs {
      MergingSkip(state.From(), state.View(), hs, done, k, prereqs);
      return prereqs;
    }
    var at := hs.at[first];
    assert Serves(state.From(), state.View(), first, at, hs.prereqs[first]);
    MergingRelock(state.From(), state.View(), hs, done, k, prereqs);
    var b := BlockAt(state.page, Found(state.page, a).value);
    state.SetFields(at, LockIdentity(state.extra[at].fields, a.1.value, b));
    return prereqs[a := prereqs[first]];
  }

  // ----- The pass -----

  function KeepResolvable(p: Page, ls: seq<Leaf>): (kept: seq<Leaf>)
    ensures forall l :: l in kept <==> l in ls && forall r | r in l.refs :: Resolvable(p, r)
    ensures |kept| <= |ls|
  {
    if ls == [] then []
    else
      var last := ls[|ls| - 1];
      assert ls == ls[..|ls| - 1] + [last];
      KeepResolvable(p, ls[..|ls| - 1]) + if forall r | r in last.refs :: Resolvable(p, r) then [last] else []
  }

  /** The entries are judged one by one, and stay in order. */
  lemma {:induction false} KeepConcat(p: Page, a: seq<Leaf>, b: seq<Leaf>)
    ensures KeepResolvable(p, a + b) == KeepResolvable(p, a) + KeepResolvable(p, b)
  {
    if b == [] {
      assert a + b == a;
    } else {
      assert (a + b)[..|a + b| - 1] == a + b[..|b| - 1];
      KeepConcat(p, a, b[..|b| - 1]);
    }
  }

  method DropUnresolvedConsumers(p: Page, ls: seq<Leaf>, prereqs: map<Key, seq<string>>) returns (kept: seq<Leaf>)
    requires forall l, r | l in ls && r in l.refs :: r in prereqs <==> Resolvable(p, r)
    ensures kept == KeepResolvable(p, ls)
  {
    kept := [];
    for i := 0 to |ls|
      invariant kept == KeepResolvable(p, ls[..i])
    {
      TakeNext(ls, i);
      assert ls[i] in ls;
      if forall r | r in ls[i].refs :: r in prereqs {
        kept := kept + [ls[i]];
      }
    }
    assert ls[..|ls|] == ls;
  }

  lemma {:induction false} AllRefsAre(ls: seq<Leaf>)
    ensures forall r :: r in AllRefs(ls) <==> exists l :: l in ls && r in l.refs
  {
    if ls != [] {
      var last := ls[|ls| - 1];
      assert ls == ls[..|ls| - 1] + [last];
      AllRefsAre(ls[..|ls| - 1]);
    }
  }

  /** Two references share a hub entry just when they found the same block. */
  predicate SameHubIff(p: Page, hubAt: map<Key, int>, a: Key, b: Key)
    requires a in hubAt && b in hubAt
  {
    hubAt[a] == hubAt[b] <==> Found(p, a) == Found(p, b)
  }

  /** A hub shipped for a reference, at a position of the lifted entries. */
  ghost predicate Shipped(s: Start, v: Lifted, hubAt: map<Key, int>, prereqs: map<Key, seq<string>>) {
    && hubAt.Keys == prereqs.Keys
    && (forall r | r in hubAt :: Serves(s, v, r, hubAt[r], prereqs[r]))
    // each block lifts once, whatever references reach it
    && (forall a, b | a in hubAt && b in hubAt :: SameHubIff(s.page, hubAt, a, b))
  }

  ghost predicate HubOrBus(v: Lifted, hubAt: map<Key, int>, i: int) {
    (exists r :: r in hubAt && hubAt[r] == i) || exists n :: LiftedAt(v, n, i)
  }

  /** Nothing ships but the referenced hubs, the buses they depend on, and the buses those ride on. */
  ghost predicate NothingElse(s: Start, v: Lifted, hubAt: map<Key, int>) {
    && (forall i | 0 <= i < |v.extra| :: HubOrBus(v, hubAt, i))
    && (forall n | 0 <= n < |v.lifts| ::
          Ridden(s.page, v.lifts, 0, n) || exists r :: r in hubAt && HubWants(s.page, r, v.lifts[n].key))
  }

  lemma WantedShips(s: Start, v: Lifted, hs: Hubs, done: seq<Key>, prereqs: map<Key, seq<string>>)
    requires Sorted(s.page, hs, done) && Accounted(v) && AllWanted(s, v, hs.at) && forall r | r in hs.at :: r in prereqs
    ensures NothingElse(s, v, HubPositions(s.page, hs, prereqs))
  {
    var hubAt := HubPositions(s.page, hs, prereqs);
    OwnFirst(s.page, hs, done);
    forall i | 0 <= i < |v.extra| ensures HubOrBus(v, hubAt, i) {
      if i in v.hubs {
        var r :| r in hs.at && hs.at[r] == i;
        assert r in hubAt && hubAt[r] == i;
      }
    }
    forall n | 0 <= n < |v.lifts|
      ensures Ridden(s.page, v.lifts, 0, n) || exists r :: r in hubAt && HubWants(s.page, r, v.lifts[n].key)
    {
      assert WantedLift(s, v, hs.at, n);
      if !Ridden(s.page, v.lifts, 0, n) {
        var r :| r in hs.at && HubWants(s.page, r, v.lifts[n].key);
        assert r in hubAt;
      }
    }
  }

  /** Every pin's reference, by id or by address, resolves against its hub. */
  ghost predicate EveryPinResolves(v: Lifted, hubAt: map<Key, int>) {
    forall r | r in hubAt :: r.1.Some? && 0 <= hubAt[r] < |v.extra| && Identifies(v.extra[hubAt[r]].fields, r.1.value)
  }

  /**
   The expander pass.  Exactly the entries all of whose hubs the page can supply
   survive, and every pin resolves unless two pins name one block by different ids.
   */
  method MaterializeHubs(p: Page, featured: seq<Leaf>)
    returns (kept: seq<Leaf>, extra: seq<Entry>, prereqs: map<Key, seq<string>>, ghost s: Start, ghost v: Lifted,
      ghost hubAt: map<Key, int>)
    requires forall l, r | l in featured && r in l.refs :: r.1 != Some("")
    ensures s.page == p && s.featured == FeaturedIds(featured) && IsSeed(p, Entries(featured), s.seeded)
    ensures extra == v.extra && Good(s, v, {})
    ensures Shipped(s, v, hubAt, prereqs) && NothingElse(s, v, hubAt)
    ensures forall r :: r in prereqs <==> r in AllRefs(featured) && Resolvable(p, r)
    ensures EveryPinResolves(v, hubAt) <==> OneIdPerBlock(p, AllRefs(featured))
    ensures kept == WiredLeaves(KeepResolvable(p, featured), prereqs)
  {
    AllRefsAre(featured);
    var ordered := OrderedRefs(featured);
    AppendNewDistinct([], AllRefs(featured));
    var seeded := SeedBusLocal(p, Entries(featured));
    EntriesAreFeatured(featured);
    var state := new LiftState(p, FeaturedIds(featured), seeded);
    prereqs, hubAt := LiftAndMerge(state, ordered);
    s, v, extra := state.From(), state.View(), state.extra;
    var resolved := DropUnresolvedConsumers(p, featured, prereqs);
    kept := WireConsumerRequires(resolved, prereqs);
  }

  /** Lift the hubs of all references, then merge the aliases. */
  method LiftAndMerge(state: LiftState, ordered: seq<Key>)
    returns (prereqs: map<Key, seq<string>>, ghost hubAt: map<Key, int>)
    requires Distinct(ordered) && (forall r | r in ordered :: r.1 != Some("")) && Good(state.From(), state.View(), {})
    requires state.hubs == {} && state.lifts == []
    modifies state
    ensures Good(state.From(), state.View(), {})
    ensures Shipped(state.From(), state.View(), hubAt, prereqs) && NothingElse(state.From(), state.View(), hubAt)
    ensures forall r :: r in prereqs <==> r in ordered && Resolvable(state.page, r)
    ensures EveryPinResolves(state.View(), hubAt) <==> OneIdPerBlock(state.page, ordered)
  {
    var hs := LiftHubs(state, ordered);
    assert ordered[..|ordered|] == ordered;
    ghost var lifted := state.View();
    prereqs := MergeAliasRefs(state, hs, ordered);
    hubAt := HubPositions(state.page, hs, prereqs);
    HubsDone(state.From(), lifted, state.View(), hs, ordered, prereqs);
    PinsDone(state.From(), state.View(), hs, ordered, prereqs);
  }

  lemma HubsDone(s: Start, lifted: Lifted, v: Lifted, hs: Hubs, ordered: seq<Key>, prereqs: map<Key, seq<string>>)
    requires Sorted(s.page, hs, ordered) && Merging(s, v, hs, ordered, |hs.aliases|, prereqs) && Accounted(v)
    requires AllWanted(s, lifted, hs.at) && v.hubs == lifted.hubs && v.lifts == lifted.lifts
    ensures Shipped(s, v, HubPositions(s.page, hs, prereqs), prereqs)
            && NothingElse(s, v, HubPositions(s.page, hs, prereqs))
    ensures forall r :: r in prereqs <==> r in ordered && Resolvable(s.page, r)
  {
    MergingEnd(s, v, hs, ordered, prereqs);
    HubsShipped(s, v, hs, ordered, prereqs);
    StillWanted(s, lifted, v, hs.at);
    WantedShips(s, v, hs, ordered, prereqs);
  }

  lemma PinsDone(s: Start, v: Lifted, hs: Hubs, ordered: seq<Key>, prereqs: map<Key, seq<string>>)
    requires Sorted(s.page, hs, ordered) && Merging(s, v, hs, ordered, |hs.aliases|, prereqs)
    requires Shipped(s, v, HubPositions(s.page, hs, prereqs), prereqs)
    requires forall r :: r in prereqs <==> r in ordered && Resolvable(s.page, r)
    ensures EveryPinResolves(v, HubPositions(s.page, hs, prereqs)) <==> OneIdPerBlock(s.page, ordered)
  {
    var hubAt := HubPositions(s.page, hs, prereqs);
    MergingEnd(s, v, hs, ordered, prereqs);
    if OneIdPerBlock(s.page, ordered) {
      PinsResolveIfOneId(s, v, hs, ordered, prereqs);
    }
    if EveryPinResolves(v, hubAt) {
      PinsResolveOnlyIfOneId(s, v, ordered, hubAt, prereqs);
    }
  }

  lemma StillWanted(s: Start, v: Lifted, w: Lifted, at: map<Key, nat>)
    requires AllWanted(s, v, at) && w.hubs == v.hubs && w.lifts == v.lifts
    ensures AllWanted(s, w, at)
  {
    forall n | 0 <= n < |w.lifts| ensures WantedLift(s, w, at, n) {
      assert WantedLift(s, v, at, n);
    }
  }

  function Entries(ls: seq<Leaf>): seq<Entry> {
    seq(|ls|, i requires 0 <= i < |ls| => ls[i].entry)
  }

  lemma EntriesAreFeatured(ls: seq<Leaf>)
    ensures forall e | e in Entries(ls) :: e.id in FeaturedIds(ls)
  {
    forall e | e in Entries(ls) ensures e.id in FeaturedIds(ls) {
      var i :| 0 <= i < |Entries(ls)| && Entries(ls)[i] == e;
      assert ls[i] in ls && ls[i].entry.id == e.id;
    }
  }

  function FeaturedIds(ls: seq<Leaf>): set<string> {
    set l | l in ls :: l.entry.id
  }

  function HubPositions(p: Page, hs: Hubs, prereqs: map<Key, seq<string>>): (hubAt: map<Key, int>)
    ensures hubAt.Keys == prereqs.Keys
    ensures forall r | r in hubAt && FirstOf(hs, p, r) in hs.at :: hubAt[r] == hs.at[FirstOf(hs, p, r)]
  {
    map r | r in prereqs :: if FirstOf(hs, p, r) in hs.at then hs.at[FirstOf(hs, p, r)] else -1
  }

  lemma HubsShipped(s: Start, v: Lifted, hs: Hubs, done: seq<Key>, prereqs: map<Key, seq<string>>)
    requires Sorted(s.page, hs, done) && HubsServe(s, v, hs)
    requires forall r | r in prereqs :: r in done && Resolvable(s.page, r) && prereqs[r] == ChainOf(s.page, hs, r)
    ensures Shipped(s, v, HubPositions(s.page, hs, prereqs), prereqs)
  {
    var hubAt := HubPositions(s.page, hs, prereqs);
    forall r | r in hubAt ensures Serves(s, v, r, hubAt[r], prereqs[r]) {
      ServesItsBlock(s, v, hs, done, r);
    }
    forall a, b | a in hubAt && b in hubAt ensures SameHubIff(s.page, hubAt, a, b) {
      SameHubIffSameBlock(s, v, hs, done, a, b);
    }
  }

  lemma ServesItsBlock(s: Start, v: Lifted, hs: Hubs, done: seq<Key>, r: Key)
    requires Sorted(s.page, hs, done) && HubsServe(s, v, hs) && r in done && Resolvable(s.page, r)
    ensures FirstOf(hs, s.page, r) in hs.at
    ensures Serves(s, v, r, hs.at[FirstOf(hs, s.page, r)], ChainOf(s.page, hs, r))
  {
    FirstIsOwnFirst(s.page, hs, done, r);
    var f := FirstOf(hs, s.page, r);
    assert Serves(s, v, f, hs.at[f], hs.prereqs[f]);
    SameBlockServes(s, v, f, r, hs.at[f], hs.prereqs[f]);
  }

  lemma SameHubIffSameBlock(s: Start, v: Lifted, hs: Hubs, done: seq<Key>, a: Key, b: Key)
    requires Sorted(s.page, hs, done) && HubsServe(s, v, hs)
    requires a in done && Resolvable(s.page, a) && b in done && Resolvable(s.page, b)
    ensures FirstOf(hs, s.page, a) in hs.at && FirstOf(hs, s.page, b) in hs.at
    ensures hs.at[FirstOf(hs, s.page, a)] == hs.at[FirstOf(hs, s.page, b)] <==> Found(s.page, a) == Found(s.page, b)
  {
    FirstIsOwnFirst(s.page, hs, done, a);
    FirstIsOwnFirst(s.page, hs, done, b);
  }

  lemma SameBlockServes(s: Start, v: Lifted, a: Key, b: Key, at: int, chain: seq<string>)
    requires Serves(s, v, a, at, chain) && Resolvable(s.page, b) && Found(s.page, a) == Found(s.page, b)
    ensures Serves(s, v, b, at, chain)
  {
    assert a.0 == b.0;
  }

  lemma PinsResolveOnlyIfOneId(
    s: Start, v: Lifted, done: seq<Key>, hubAt: map<Key, int>, prereqs: map<Key, seq<string>>)
    requires Shipped(s, v, hubAt, prereqs) && EveryPinResolves(v, hubAt)
    requires forall r | r in done && Resolvable(s.page, r) :: r in hubAt
    ensures OneIdPerBlock(s.page, done)
  {
    forall a, b | a in done && b in done && Resolvable(s.page, a) && Resolvable(s.page, b)
      && Found(s.page, a) == Found(s.page, b)
                  && !IsAddressRef(a.1.value) && !IsAddressRef(b.1.value) ensures a == b {
      assert SameHubIff(s.page, hubAt, a, b);
    }
  }

  lemma PinsResolveIfOneId(s: Start, v: Lifted, hs: Hubs, done: seq<Key>, prereqs: map<Key, seq<string>>)
    requires Sorted(s.page, hs, done) && HubsServe(s, v, hs) && AllIdentified(s.page, v, hs, set r | r in done)
    requires forall r | r in prereqs :: r in done && Resolvable(s.page, r)
    ensures EveryPinResolves(v, HubPositions(s.page, hs, prereqs))
  {
    forall r | r in prereqs ensures FirstOf(hs, s.page, r) in hs.at && IdentifiedAt(s.page, v, hs, r) {
      FirstIsOwnFirst(s.page, hs, done, r);
    }
  }

  /**
   A shipped hub shows the block its references find: what the page presets for it, as it stands there, each
   `<bus>_id` of a supplied dependency as the block has it, the block's own id, and nothing else but the locks.
   */
  lemma HubShowsItsBlock(s: Start, v: Lifted, hubAt: map<Key, int>, prereqs: map<Key, seq<string>>, r: Key, k: string)
    requires Shipped(s, v, hubAt, prereqs) && r in hubAt
    ensures Resolvable(s.page, r) && 0 <= hubAt[r] < |v.extra| && v.extra[hubAt[r]].component in s.page.index
    ensures IsHubComponent(s.page, r.0, BlockAt(s.page, Found(s.page, r).value), v.extra[hubAt[r]].component)
    ensures var e, b := v.extra[hubAt[r]], BlockAt(s.page, Found(s.page, r).value);
            var deps := s.page.index[e.component].dependencies;
            && (Given(b, k) && k != "address" && !IsPin(s, deps, b, k) ==>
                  k in e.fields && e.fields[k] == b.presets.value[k])
            && (forall dep, id | dep in deps && RefersById(s, b, dep, id) ::
                  dep + "_id" in e.fields && e.fields[dep + "_id"] == id)
            && (Nonempty(b.id).Some? ==> "id" in e.fields && Some(e.fields["id"]) == b.id)
            && (Nonempty(b.id).None? && "id" in e.fields ==> |BlocksOf(s.page, r.0)| == 1)
            && (Given(b, "address") ==> "address" in e.fields)
            && ("address" in e.fields ==>
                  || (Given(b, "address") && e.fields["address"] == b.presets.value["address"])
                  || b.address == Some("@" + e.fields["address"]))
            && (k in e.fields ==> k in {"id", "address"} || Given(b, k) || IsPin(s, deps, b, k))
  {
    assert Serves(s, v, r, hubAt[r], prereqs[r]);
    var e, b := v.extra[hubAt[r]], BlockAt(s.page, Found(s.page, r).value);
    var deps := DepsOf(s.page, e.component);
    IdentityShown(s, r.0, deps, b, e.fields);
    assert HubShown(s, r.0, deps, b, e.fields, k);
    forall dep, id | dep in deps && RefersById(s, b, dep, id)
      ensures dep + "_id" in e.fields && e.fields[dep + "_id"] == id
    {
      ReferenceIsPin(s, b, dep, id);
    }
  }

  lemma IdentityShown(s: Start, cid: string, deps: seq<string>, b: Block, fields: Fields)
    requires HubShown(s, cid, deps, b, fields, "id") && HubShown(s, cid, deps, b, fields, "address")
    ensures Nonempty(b.id).Some? ==> "id" in fields && Some(fields["id"]) == b.id
    ensures Nonempty(b.id).None? && "id" in fields ==> |BlocksOf(s.page, cid)| == 1
    ensures Given(b, "address") ==> "address" in fields
    ensures "address" in fields ==>
              || (Given(b, "address") && fields["address"] == b.presets.value["address"])
              || b.address == Some("@" + fields["address"])
  {
    forall dep ensures IdField(dep) != "id" && IdField(dep) != "address" {
      IdFieldIsNoIdentity(dep);
    }
  }

  // ----- What a consumer gets -----

  /** A surviving consumer's prerequisites hold each hub it needs and that hub's buses, and all of them ship. */
  lemma ConsumerHasItsHub(s: Start, v: Lifted, hubAt: map<Key, int>, prereqs: map<Key, seq<string>>, l: Leaf, r: Key)
    requires Good(s, v, {}) && Shipped(s, v, hubAt, prereqs) && r in l.refs && r in prereqs
    ensures 0 <= hubAt[r] < |v.extra|
    ensures var hub := v.extra[hubAt[r]];
            && hub.id in WiredLeaf(l, prereqs).entry.needs
            && forall q | q in hub.needs :: q in WiredLeaf(l, prereqs).entry.needs && Ships(s, v, q)
  {
    assert Serves(s, v, r, hubAt[r], prereqs[r]);
    ChainsHold(l.refs, prereqs, r);
    var hub := v.extra[hubAt[r]];
    assert hub.id in prereqs[r] && forall q | q in hub.needs :: q in prereqs[r];
  }

  /** The buses come before the hub, unless the consumer already named the hub itself. */
  lemma BusesComeFirst(
    s: Start, v: Lifted, hubAt: map<Key, int>, prereqs: map<Key, seq<string>>, l: Leaf, r: Key, q: string)
    requires Good(s, v, {}) && Shipped(s, v, hubAt, prereqs) && r in l.refs && r in prereqs
    requires 0 <= hubAt[r] < |v.extra| && q in v.extra[hubAt[r]].needs && v.extra[hubAt[r]].id !in l.entry.needs
    ensures Before(WiredLeaf(l, prereqs).entry.needs, q, v.extra[hubAt[r]].id)
  {
    var hub := v.extra[hubAt[r]];
    forall other | other in prereqs ensures Before(prereqs[other], q, hub.id) {
      HubEndsItsChain(s, v, hubAt, prereqs, other, r, q);
    }
    ChainsOrdered(l.refs, prereqs, q, hub.id);
    AppendNewKeepsOrder(l.entry.needs, Chains(l.refs, prereqs), q, hub.id);
  }

  /** A hub's id stands only at the end of its own chain. */
  lemma HubEndsItsChain(
    s: Start, v: Lifted, hubAt: map<Key, int>, prereqs: map<Key, seq<string>>, other: Key, r: Key, q: string)
    requires Good(s, v, {}) && Shipped(s, v, hubAt, prereqs) && other in prereqs && r in prereqs
    requires 0 <= hubAt[r] < |v.extra| && q in v.extra[hubAt[r]].needs
    ensures Before(prereqs[other], q, v.extra[hubAt[r]].id)
  {
    var chain, hub := prereqs[other], v.extra[hubAt[r]];
    assert Serves(s, v, other, hubAt[other], chain) && Serves(s, v, r, hubAt[r], prereqs[r]);
    var e := v.extra[hubAt[other]];
    forall bus | bus in e.needs ensures bus != hub.id {
      BusIsNotHub(s, v, other, hubAt[other], chain, bus, hubAt[r]);
    }
    SameIdSameEntry(s, v, hubAt[other], hubAt[r]);
    EndsBefore(e.needs, e.id, q, hub.id);
  }

  lemma SameIdSameEntry(s: Start, v: Lifted, a: int, b: int)
    requires FreshIds(s, v) && 0 <= a < |v.extra| && 0 <= b < |v.extra|
    ensures v.extra[a].id == v.extra[b].id ==> a == b
  {
  }

  lemma EndsBefore(needs: seq<string>, last: string, q: string, id: string)
    requires id !in needs && (last == id ==> q in needs)
    ensures Before(needs + [last], q, id)
  {
    var chain := needs + [last];
    forall j | 0 <= j < |chain| && chain[j] == id ensures q in chain[..j] {
      assert j == |needs| && chain[..j] == needs;
    }
  }

  lemma BusIsNotHub(s: Start, v: Lifted, ref: Key, at: int, chain: seq<string>, q: string, h: int)
    requires Good(s, v, {}) && Serves(s, v, ref, at, chain) && q in v.extra[at].needs && h in v.hubs
             && 0 <= h < |v.extra|
    ensures q != v.extra[h].id
  {
    var b := BlockAt(s.page, Found(s.page, ref).value);
    var dep :| dep in DepsOf(s.page, v.extra[at].component) && ResolvesTo(s.page, v.bus, DepKey(b, dep), q);
  }
}
