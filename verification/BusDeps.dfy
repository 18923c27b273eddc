/**
 Lifting the buses that featured leaves depend on directly (script/sync_esphome_devices.py).
 */
module BusDeps {
  import opened Lists
  import opened Optional
  import opened BusLift
  import opened BusSeeds
  import opened ExpanderHubs

  // ----- The pass -----

  function Singles(bus: Memo): map<Key, seq<string>> {
    map k | k in bus :: [bus[k]]
  }

  /**
   Everything lifted since `before` was named by one of the first `i` references, or is ridden
   by a bus lifted since.
   */
  ghost predicate NamedOrRidden(p: Page, before: seq<Lift>, after: seq<Lift>, refs: seq<Key>, i: nat)
    requires i <= |refs|
  {
    before <= after && forall n | |before| <= n < |after| :: after[n].key in refs[..i] || Ridden(p, after, |before|, n)
  }

  lemma NamedNext(p: Page, l0: seq<Lift>, l1: seq<Lift>, l2: seq<Lift>, refs: seq<Key>, i: nat)
    requires i < |refs| && NamedOrRidden(p, l0, l1, refs, i) && AskedBy(p, l1, l2, refs[i])
    ensures NamedOrRidden(p, l0, l2, refs, i + 1)
  {
    TakeNext(refs, i);
    forall n | |l0| <= n < |l2| ensures l2[n].key in refs[..i + 1] || Ridden(p, l2, |l0|, n) {
      if n < |l1| {
        assert l2[n] == l1[n];
        if l1[n].key !in refs[..i] {
          var m :| |l0| <= m < n && RiddenBy(p, l1, m, n);
          assert RiddenBy(p, l2, m, n);
        }
      } else if Ridden(p, l2, |l1|, n) {
        var m :| |l1| <= m < n && RiddenBy(p, l2, m, n);
      }
    }
  }

  /**
   Only buses that a leaf names, or that those ride on, ship: there are no hubs, and every
   entry is one or the other.
   */
  ghost predicate OnlyNamed(p: Page, v: Lifted, refs: seq<Key>) {
    v.hubs == {} && forall n | 0 <= n < |v.lifts| :: v.lifts[n].key in refs || Ridden(p, v.lifts, 0, n)
  }

  /** What the loop keeps after `i` references. */
  ghost predicate Referenced(s: Start, v0: Lifted, v: Lifted, refs: seq<Key>, i: nat)
    requires i <= |refs|
  {
    && Extends(s, v0, v) && v.hubs == v0.hubs
    && NamedOrRidden(s.page, v0.lifts, v.lifts, refs, i)
    && forall r | r in refs[..i] :: Lookup(s.page, v.bus, r).Some? <==> Supplied(s.page, s.seeded, r)
  }

  lemma ReferencedStart(s: Start, v: Lifted, refs: seq<Key>)
    ensures Referenced(s, v, v, refs, 0) && Walk(s.page, s.seeded, refs, 0, Order(v.lifts)) == Order(v.lifts)
  {
  }

  lemma ReferencedNext(s: Start, v0: Lifted, v: Lifted, w: Lifted, refs: seq<Key>, i: nat)
    requires i < |refs| && Referenced(s, v0, v, refs, i)
    requires Extends(s, v, w) && w.hubs == v.hubs && Sound(s.page, s.seeded, w.bus)
    requires AskedBy(s.page, v.lifts, w.lifts, refs[i])
    requires Lookup(s.page, w.bus, refs[i]).Some? <==> Supplied(s.page, s.seeded, refs[i])
    ensures Referenced(s, v0, w, refs, i + 1)
  {
    TakeNext(refs, i);
    ExtendsTransitive(s, v0, v, w);
    NamedNext(s.page, v0.lifts, v.lifts, w.lifts, refs, i);
  }

  lemma ReferencedAll(s: Start, v0: Lifted, v: Lifted, refs: seq<Key>)
    requires Referenced(s, v0, v, refs, |refs|)
    ensures forall r | r in refs :: Lookup(s.page, v.bus, r).Some? <==> Supplied(s.page, s.seeded, r)
    ensures v0.lifts == [] && v0.hubs == {} ==> OnlyNamed(s.page, v, refs)
  {
    assert refs[..|refs|] == refs;
  }

  /** Lift, once each, the buses the leaves' references name. */
  method LiftReferenced(state: LiftState, refs: seq<Key>)
    requires Good(state.From(), state.View(), {}) && forall r | r in refs :: r.1 != Some("")
    modifies state
    ensures Good(state.From(), state.View(), {})
    ensures Referenced(state.From(), old(state.View()), state.View(), refs, |refs|)
    ensures Order(state.lifts) == Walk(state.page, state.seeded, refs, |refs|, Order(old(state.lifts)))
  {
    ghost var s, start := state.From(), state.View();
    ReferencedStart(s, start, refs);
    for i := 0 to |refs|
      invariant Good(s, state.View(), {}) && Referenced(s, start, state.View(), refs, i)
      invariant Order(state.lifts) == Walk(s.page, s.seeded, refs, i, Order(start.lifts))
    {
      LiftNext(state, refs, i, start);
    }
  }

  method LiftNext(state: LiftState, refs: seq<Key>, i: nat, ghost start: Lifted)
    requires Good(state.From(), state.View(), {}) && i < |refs| && refs[i].1 != Some("")
    requires Referenced(state.From(), start, state.View(), refs, i)
    requires Order(state.lifts) == Walk(state.page, state.seeded, refs, i, Order(start.lifts))
    modifies state
    ensures Good(state.From(), state.View(), {}) && Referenced(state.From(), start, state.View(), refs, i + 1)
    ensures Order(state.lifts) == Walk(state.page, state.seeded, refs, i + 1, Order(start.lifts))
  {
    ghost var before := state.View();
    var local := state.EnsureBus(refs[i], {});
    ReferencedNext(state.From(), start, before, state.View(), refs, i);
  }

  /** The fields of a leaf once locked onto each bus it named. */
  function PinFields(refs: seq<Key>, bus: Memo, fields: Fields): Fields {
    if refs == [] then fields
    else
      var r, before := refs[|refs| - 1], PinFields(refs[..|refs| - 1], bus, fields);
      if r.1.Some? && r in bus then before[IdField(r.0) := r.1.value] else before
  }

  function PinLeaf(l: Leaf, bus: Memo): Leaf {
    l.(entry := l.entry.(fields := PinFields(l.refs, bus, l.entry.fields)))
  }

  function PinLeaves(ls: seq<Leaf>, bus: Memo): seq<Leaf> {
    seq(|ls|, i requires 0 <= i < |ls| => PinLeaf(ls[i], bus))
  }

  method PinConsumers(ls: seq<Leaf>, bus: Memo) returns (pinned: seq<Leaf>)
    ensures pinned == PinLeaves(ls, bus)
  {
    pinned := [];
    for i := 0 to |ls|
      invariant pinned == PinLeaves(ls[..i], bus)
    {
      var fields := ls[i].entry.fields;
      for k := 0 to |ls[i].refs|
        invariant fields == PinFields(ls[i].refs[..k], bus, ls[i].entry.fields)
      {
        TakeNext(ls[i].refs, k);
        var r := ls[i].refs[k];
        if r.1.Some? && r in bus {
          fields := fields[IdField(r.0) := r.1.value];
        }
      }
      assert ls[i].refs[..|ls[i].refs|] == ls[i].refs;
      pinned := pinned + [ls[i].(entry := ls[i].entry.(fields := fields))];
    }
    assert ls[..|ls|] == ls;
  }

  /** Every bus the page supplies is lifted; leaves are locked onto the bus they named and stamped with it. */
  method ExtractBusDeps(p: Page, featured: seq<Leaf>)
    returns (wired: seq<Leaf>, extra: seq<Entry>, bus: Memo, ghost s: Start, ghost v: Lifted)
    requires forall l, r | l in featured && r in l.refs :: r.1 != Some("")
    ensures s.page == p && s.featured == FeaturedIds(featured) && IsSeed(p, Entries(featured), s.seeded)
    ensures extra == v.extra && bus == v.bus && Good(s, v, {}) && OnlyNamed(p, v, AllRefs(featured))
    ensures forall r | r in AllRefs(featured) :: Lookup(p, bus, r).Some? <==> Supplied(p, s.seeded, r)
    ensures wired == WiredLeaves(PinLeaves(featured, bus), Singles(bus))
    ensures var refs := Dedup(AllRefs(featured)); Order(v.lifts) == Walk(p, s.seeded, refs, |refs|, [])
  {
    AllRefsAre(featured);
    var ordered := OrderedRefs(featured);
    var seeded := SeedBusLocal(p, Entries(featured));
    EntriesAreFeatured(featured);
    var state := new LiftState(p, FeaturedIds(featured), seeded);
    ghost var start := state.View();
    LiftReferenced(state, ordered);
    ReferencedAll(state.From(), start, state.View(), ordered);
    s, v, extra, bus := state.From(), state.View(), state.extra, state.busLocal;
    var pinned := PinConsumers(featured, bus);
    wired := WireConsumerRequires(pinned, Singles(bus));
  }

  /** A leaf is locked onto the bus it named. */
  lemma {:induction false} NamedBusIsPinned(refs: seq<Key>, bus: Memo, fields: Fields, r: Key)
    requires r in refs && r.1.Some? && r in bus && forall o | o in refs && o.0 == r.0 :: o == r
    ensures IdField(r.0) in PinFields(refs, bus, fields) && PinFields(refs, bus, fields)[IdField(r.0)] == r.1.value
  {
    var last, front := refs[|refs| - 1], refs[..|refs| - 1];
    assert refs == front + [last];
    if last != r {
      NamedBusIsPinned(front, bus, fields, r);
      IdFieldsDiffer(last.0, r.0);
    }
  }

  /** A leaf's field changes only where it named a bus that the memo holds. */
  lemma {:induction false} OnlyNamedIsPinned(refs: seq<Key>, bus: Memo, fields: Fields, f: string)
    ensures var pinned := PinFields(refs, bus, fields);
            || ((f in pinned <==> f in fields) && (f in pinned ==> pinned[f] == fields[f]))
            || exists r :: r in refs && r.1.Some? && r in bus && f == IdField(r.0) && f in pinned
                 && pinned[f] == r.1.value
  {
    if refs != [] {
      var front, last := refs[..|refs| - 1], refs[|refs| - 1];
      assert refs == front + [last];
      OnlyNamedIsPinned(front, bus, fields, f);
    }
  }

  /** So a leaf naming a supplied bus by id has that bus among its prerequisites. */
  lemma NamedBusIsStamped(p: Page, seeded: Memo, bus: Memo, l: Leaf, r: Key)
    requires r in l.refs && r.1.Some? && Lookup(p, bus, r).Some?
    ensures Lookup(p, bus, r).value in WiredLeaf(l, Singles(bus)).entry.needs
  {
    ChainsHold(l.refs, Singles(bus), r);
    assert bus[r] in Singles(bus)[r];
  }

  // ----- Leaves that name no bus -----

  lemma {:induction false} NoneIsLifted(p: Page, lifts: seq<Lift>, domain: string)
    requires forall n | 0 <= n < |lifts| :: Liftable(p, lifts[n].key)
    ensures (domain, None) in LiftedKeys(p, lifts) <==> (domain, None) in Order(lifts)
  {
    if lifts != [] {
      var front, key := lifts[..|lifts| - 1], lifts[|lifts| - 1].key;
      NoneIsLifted(p, front, domain);
      assert Order(lifts) == Order(front) + [key];
    }
  }

  /** The memo holds the key of a reference without an id just when it was seeded, or some bus was lifted for it. */
  lemma NoneIsHeldIff(s: Start, v: Lifted, domain: string)
    requires Good(s, v, {})
    ensures (domain, None) in v.bus <==> (domain, None) in s.seeded || (domain, None) in Order(v.lifts)
  {
    forall n | 0 <= n < |v.lifts| ensures Liftable(s.page, v.lifts[n].key) {
      assert LiftGood(s, v, v.lifts[n]);
    }
    NoneIsLifted(s.page, v.lifts, domain);
  }

  /** The sole block of a domain was lifted by its id. */
  predicate ByItsId(p: Page, order: seq<Key>, domain: string) {
    Liftable(p, (domain, None)) && BlockOf(p, (domain, None)).id.Some?
    && (domain, BlockOf(p, (domain, None)).id) in order
  }

  lemma SameSlotAsSole(p: Page, k: Key, domain: string)
    requires Liftable(p, k) && Liftable(p, (domain, None)) && SlotOf(p, k) == SlotOf(p, (domain, None))
    ensures k == (domain, None) || k == (domain, BlockOf(p, (domain, None)).id)
  {
  }

  lemma {:induction false} WalkGrows(p: Page, seeded: Memo, keys: seq<Key>, i: nat, n: nat, order: seq<Key>)
    requires i <= n <= |keys|
    ensures Walk(p, seeded, keys, i, order) <= Walk(p, seeded, keys, n, order)
    decreases n
  {
    if i < n {
      WalkGrows(p, seeded, keys, i, n - 1, order);
    }
  }

  /** No block is lifted twice. */
  ghost predicate OneLiftPerBlock(p: Page, lifts: seq<Lift>) {
    && (forall n | 0 <= n < |lifts| :: Liftable(p, lifts[n].key))
    && forall n, m | 0 <= n < m < |lifts| :: SlotOf(p, lifts[n].key) != SlotOf(p, lifts[m].key)
  }

  lemma GoodLiftsOnce(s: Start, v: Lifted)
    requires Good(s, v, {})
    ensures OneLiftPerBlock(s.page, v.lifts)
  {
    forall n | 0 <= n < |v.lifts| ensures Liftable(s.page, v.lifts[n].key) {
      assert LiftGood(s, v, v.lifts[n]);
    }
  }

  /** One block is not lifted both by its id and without one. */
  lemma NotBoth(p: Page, lifts: seq<Lift>, domain: string)
    requires OneLiftPerBlock(p, lifts) && ByItsId(p, Order(lifts), domain)
    ensures (domain, None) !in Order(lifts)
  {
    var id := BlockOf(p, (domain, None)).id;
    SoleBlockById(p, domain, id.value);
    var n :| 0 <= n < |lifts| && Order(lifts)[n] == (domain, id);
    forall m | 0 <= m < |lifts| ensures Order(lifts)[m] != (domain, None) {
      assert lifts[n].key == (domain, id);
      assert m != n ==> SlotOf(p, lifts[n].key) != SlotOf(p, lifts[m].key);
    }
  }

  /** Not lifted by its id before, a sole block that is due is lifted without one, here if not before. */
  lemma NoneIsNext(p: Page, seeded: Memo, before: seq<Key>, domain: string)
    requires Liftable(p, (domain, None)) && Lookup(p, seeded, (domain, None)).None? && !ByItsId(p, before, domain)
    ensures (domain, None) in WalkKey(p, seeded, (domain, None), before)
  {
    var key := (domain, None);
    if Covered(p, seeded, before, key) {
      var k :| k in before && Liftable(p, k) && SlotOf(p, k) == SlotOf(p, key);
      SameSlotAsSole(p, k, domain);
    } else {
      assert key in before + [key];
    }
  }

  /**
   The sole bus of a domain, not featured before, is lifted for a reference that names
   none if and only if the references before that one, and what their buses ride on,
   have not lifted it by its id.
   */
  lemma LiftedWithoutIdIff(s: Start, v: Lifted, refs: seq<Key>, i: nat, domain: string)
    requires Good(s, v, {}) && Order(v.lifts) == Walk(s.page, s.seeded, refs, |refs|, [])
    requires i < |refs| && refs[i] == (domain, None)
    requires Liftable(s.page, (domain, None)) && Lookup(s.page, s.seeded, (domain, None)).None?
    ensures (domain, None) in Order(v.lifts) <==> !ByItsId(s.page, Walk(s.page, s.seeded, refs, i, []), domain)
  {
    GoodLiftsOnce(s, v);
    NoneInWalkIff(s.page, s.seeded, v.lifts, refs, i, domain);
  }

  lemma NoneInWalkIff(p: Page, seeded: Memo, lifts: seq<Lift>, refs: seq<Key>, i: nat, domain: string)
    requires OneLiftPerBlock(p, lifts) && Order(lifts) == Walk(p, seeded, refs, |refs|, [])
    requires i < |refs| && refs[i] == (domain, None)
    requires Liftable(p, (domain, None)) && Lookup(p, seeded, (domain, None)).None?
    ensures (domain, None) in Order(lifts) <==> !ByItsId(p, Walk(p, seeded, refs, i, []), domain)
  {
    var before := Walk(p, seeded, refs, i, []);
    WalkGrows(p, seeded, refs, i, |refs|, []);
    WalkGrows(p, seeded, refs, i + 1, |refs|, []);
    if ByItsId(p, before, domain) {
      assert ByItsId(p, Order(lifts), domain);
      NotBoth(p, lifts, domain);
    } else {
      NoneIsNext(p, seeded, before, domain);
    }
  }

  lemma {:induction false} ChainsAre(refs: seq<Key>, bus: Memo, q: string)
    ensures q in Chains(refs, Singles(bus)) <==> exists r :: r in refs && r in bus && bus[r] == q
  {
    if refs != [] {
      var front, last := refs[..|refs| - 1], refs[|refs| - 1];
      assert refs == front + [last];
      ChainsAre(front, bus, q);
    }
  }

  /** The bus a leaf's reference resolves to is among its prerequisites once it is wired. */
  ghost predicate Stamped(p: Page, bus: Memo, l: Leaf, r: Key) {
    Lookup(p, bus, r).Some? && Lookup(p, bus, r).value in WiredLeaf(PinLeaf(l, bus), Singles(bus)).entry.needs
  }

  /** Nothing but this reference can bring the leaf its bus. */
  ghost predicate OnlyBy(p: Page, bus: Memo, l: Leaf, r: Key) {
    && r in l.refs
    && forall q | Lookup(p, bus, r) == Some(q) ::
         q !in l.entry.needs && forall o | o in l.refs && o != r && o in bus :: bus[o] != q
  }

  /**
   A leaf that names no bus gets the supplied one among its prerequisites if and only if
   that bus was seeded as its domain's only one, or is not featured under its id and the
   references before this one have not lifted it by its id.
   */
  lemma UnnamedIsStampedIff(s: Start, v: Lifted, refs: seq<Key>, i: nat, l: Leaf, domain: string)
    requires Good(s, v, {}) && Order(v.lifts) == Walk(s.page, s.seeded, refs, |refs|, [])
    requires i < |refs| && refs[i] == (domain, None) && OnlyBy(s.page, v.bus, l, refs[i])
    requires Supplied(s.page, s.seeded, refs[i]) && Lookup(s.page, v.bus, refs[i]).Some?
    ensures Stamped(s.page, v.bus, l, (domain, None)) <==>
              || (domain, None) in s.seeded
              || (Lookup(s.page, s.seeded, (domain, None)).None?
                  && !ByItsId(s.page, Walk(s.page, s.seeded, refs, i, []), domain))
  {
    var key: Key := (domain, None);
    var local := Lookup(s.page, v.bus, key).value;
    ChainsAre(l.refs, v.bus, local);
    NoneIsHeldIff(s, v, domain);
    if Lookup(s.page, s.seeded, key).None? {
      LiftedWithoutIdIff(s, v, refs, i, domain);
    }
  }

  // ----- Two leaves on one bus -----

  /** A page with one bus, which has an id. */
  function OneBus(domain: string, id: string): Page {
    Page(map[domain := Blocks([Block(Some(id), None, false, map[], None, Some(map[]))])],
         map[domain := Component([], "bus")], x => x)
  }

  function Plain(component: string, local: string, ref: Key): Leaf {
    Leaf(Entry(local, component, map[], []), [ref])
  }

  lemma {:induction false} NothingSeeded(p: Page, featured: seq<Entry>, domain: string)
    requires forall e | e in featured :: Partition(e.component) != domain
    ensures BusesOf(p, featured, domain) == [] && forall id :: LastLocked(p, featured, domain, id).None?
  {
    if featured != [] {
      NothingSeeded(p, featured[..|featured| - 1], domain);
    }
  }

  lemma OneBusLifts(domain: string, id: string)
    requires id != ""
    ensures var p := OneBus(domain, id);
            && Liftable(p, (domain, None)) && Liftable(p, (domain, Some(id)))
            && BlockOf(p, (domain, None)).id == Some(id) && SlotOf(p, (domain, Some(id))) == SlotOf(p, (domain, None))
            && DepKeys(p, (domain, None)) == [] && DepKeys(p, (domain, Some(id))) == []
  {
    SoleBlockById(OneBus(domain, id), domain, id);
  }

  /** Whichever reference comes first lifts the bus, under its own key. */
  lemma FirstNamesIt(domain: string, id: string, seeded: Memo, refs: seq<Key>)
    requires id != "" && |refs| == 2 && Distinct(refs)
    requires refs[0] in {(domain, None), (domain, Some(id))} && refs[1] in {(domain, None), (domain, Some(id))}
    requires forall o: Option<string> :: (domain, o) !in seeded
    ensures Walk(OneBus(domain, id), seeded, refs, 1, []) == Walk(OneBus(domain, id), seeded, refs, 2, []) == [refs[0]]
  {
    var p := OneBus(domain, id);
    OneBusLifts(domain, id);
    var only := [refs[0]];
    assert Walk(p, seeded, refs, 0, []) == [];
    assert !Covered(p, seeded, [], refs[0]) && [] + [refs[0]] == only;
    assert Walk(p, seeded, DepKeys(p, refs[0]), 0, only) == only;
    assert WalkKey(p, seeded, refs[0], []) == only;
    assert refs[0] in only && Covered(p, seeded, only, refs[1]);
    assert WalkKey(p, seeded, refs[1], only) == only;
  }

  lemma DedupTwo(a: Key, b: Key)
    requires a != b
    ensures Dedup([a, b]) == [a, b]
  {
    assert [a][..0] == [] && [a, b][..1] == [a];
    assert AppendNew([], [a]) == [a];
  }

  lemma AllRefsOfTwo(a: Leaf, b: Leaf)
    ensures AllRefs([a, b]) == a.refs + b.refs
  {
    assert [a, b][..1] == [a] && [a][..0] == [];
    assert AllRefs([a]) == a.refs;
  }

  /** A leaf with one reference, and nothing else to require, requires just what the memo holds for it. */
  lemma WiredPlain(component: string, local: string, ref: Key, bus: Memo)
    ensures var l := WiredLeaf(PinLeaf(Plain(component, local, ref), bus), Singles(bus));
            l.entry.needs == if ref in bus then [bus[ref]] else []
  {
    var prereqs, l := Singles(bus), PinLeaf(Plain(component, local, ref), bus);
    assert l.refs[..0] == [] && Chains(l.refs[..0], prereqs) == [];
    assert Chains(l.refs, prereqs) == if ref in bus then [bus[ref]] else [];
    if ref in bus {
      var q := [bus[ref]];
      assert q[..0] == [] && AppendNew<string>([], q[..0]) == [];
      assert AppendNew([], q) == q;
    }
  }

  lemma TwoKeys(s: Start, v: Lifted, domain: string, id: string, refs: seq<Key>)
    requires Good(s, v, {}) && s.page == OneBus(domain, id) && id != "" && |refs| == 2 && Distinct(refs)
    requires refs[0] in {(domain, None), (domain, Some(id))} && refs[1] in {(domain, None), (domain, Some(id))}
    requires forall o: Option<string> :: (domain, o) !in s.seeded
    requires Order(v.lifts) == Walk(s.page, s.seeded, refs, |refs|, [])
    ensures (domain, Some(id)) in v.bus && ((domain, None) in v.bus <==> refs[0].1.None?)
    ensures (domain, None) in v.bus ==> v.bus[(domain, None)] == v.bus[(domain, Some(id))]
  {
    FirstNamesIt(domain, id, s.seeded, refs);
    OneBusLifts(domain, id);
    NoneIsHeldIff(s, v, domain);
    assert |v.lifts| == 1 && Order(v.lifts)[0] == v.lifts[0].key == refs[0];
    assert LiftGood(s, v, v.lifts[0]);
  }

  /**
   Two leaves on one bus: the one that names it is stamped either way; the one that does
   not is stamped if it comes first, and is left with no prerequisite at all if it comes second.
   */
  method TwoLeavesOnOneBus(domain: string, id: string, component: string, namedFirst: bool)
    returns (wired: seq<Leaf>, bus: Memo)
    requires id != "" && Partition(component) != domain
    ensures |wired| == 2 && (domain, Some(id)) in bus
    ensures var local := bus[(domain, Some(id))];
            if namedFirst then wired[0].entry.needs == [local] && wired[1].entry.needs == []
            else wired[0].entry.needs == [local] && wired[1].entry.needs == [local]
  {
    var p, named, unnamed := OneBus(domain, id), (domain, Some(id)), (domain, None);
    var first, second := if namedFirst then named else unnamed, if namedFirst then unnamed else named;
    var featured := [Plain(component, "a", first), Plain(component, "b", second)];
    ghost var s, v;
    var extra;
    wired, extra, bus, s, v := ExtractBusDeps(p, featured);
    assert OneEach(featured, domain, id, first, second);
    TwoLeavesWired(s, v, featured, domain, id);
  }

  lemma TwoLeavesWired(s: Start, v: Lifted, featured: seq<Leaf>, domain: string, id: string)
    requires Good(s, v, {}) && s.page == OneBus(domain, id) && id != "" && |featured| == 2
    requires IsSeed(s.page, Entries(featured), s.seeded)
    requires forall l | l in featured :: Partition(l.entry.component) != domain
    requires exists first, second :: OneEach(featured, domain, id, first, second)
    requires var refs := Dedup(AllRefs(featured)); Order(v.lifts) == Walk(s.page, s.seeded, refs, |refs|, [])
    ensures (domain, Some(id)) in v.bus
    ensures var local, wired := v.bus[(domain, Some(id))], WiredLeaves(PinLeaves(featured, v.bus), Singles(v.bus));
            && wired[0].entry.needs == [local]
            && wired[1].entry.needs == if featured[0].refs[0].1.None? then [local] else []
  {
    var first, second :| OneEach(featured, domain, id, first, second);
    AllRefsOfTwo(featured[0], featured[1]);
    assert featured == [featured[0], featured[1]] && AllRefs(featured) == [first, second];
    DedupTwo(first, second);
    UnseededTwo(s.page, featured, domain, s.seeded);
    TwoKeys(s, v, domain, id, [first, second]);
    WiredPlain(featured[0].entry.component, featured[0].entry.id, first, v.bus);
    WiredPlain(featured[1].entry.component, featured[1].entry.id, second, v.bus);
  }

  /** One of two leaves names the bus, the other does not. */
  predicate OneEach(featured: seq<Leaf>, domain: string, id: string, first: Key, second: Key)
    requires |featured| == 2
  {
    && featured[0] == Plain(featured[0].entry.component, featured[0].entry.id, first)
    && featured[1] == Plain(featured[1].entry.component, featured[1].entry.id, second)
    && first != second && first in {(domain, None), (domain, Some(id))}
      && second in {(domain, None), (domain, Some(id))}
  }

  lemma UnseededTwo(p: Page, featured: seq<Leaf>, domain: string, seeded: Memo)
    requires forall l | l in featured :: Partition(l.entry.component) != domain
    requires IsSeed(p, Entries(featured), seeded)
    ensures forall o: Option<string> :: (domain, o) !in seeded
  {
    forall e | e in Entries(featured) ensures Partition(e.component) != domain {
      var i :| 0 <= i < |featured| && Entries(featured)[i] == e;
      assert featured[i] in featured;
    }
    NothingSeeded(p, Entries(featured), domain);
    forall o: Option<string> ensures (domain, o) !in seeded {
      assert SeedFor(p, Entries(featured), (domain, o)).None?;
    }
  }
}
