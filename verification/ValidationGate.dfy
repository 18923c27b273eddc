/**
 The import-time validation gate (script/_full_setup_gate.py).

 A board's full setup is validated; each error is pinned on the featured entry
 that produced it and those entries are dropped, until the rest validates.
 */
module ValidationGate {
  import opened Lists
  import opened Optional

  // ----- Records -----

  /** A pin value: a board-pin leaf (with its GPIO number when it has one), a list, or a mapping. */
  datatype Value =
    | Leaf(gpio: Option<int>)
    | Items(items: seq<Value>)
    | Expander                       // a channel of an I/O expander
    | Numbered(number: Value)        // a mapping with a `number`
    | Group(values: seq<Value>)      // any other mapping

  /**
   A featured entry.  `name` is its `name` field when a string, `labels` every other
   string its pins may be labelled with, `pins` the values of its pin fields.
   */
  datatype Entry = Entry(
    id: string, component: string, name: Option<string>, labels: set<string>, pins: seq<Value>, needs: seq<string>)

  datatype Bundle = Bundle(id: string, members: seq<string>)

  datatype Pin = Pin(gpio: Option<int>, occupiedBy: Option<string>, rest: string)

  datatype Content = Content(entries: seq<Entry>, bundles: seq<Bundle>, pins: seq<Pin>)

  function Ids(es: seq<Entry>): set<string> {
    set e | e in es :: e.id
  }

  // ----- From an error's path to an entry -----

  datatype Part = Name(name: string) | At(index: nat) | Other

  datatype Error = Error(path: seq<Part>, text: string)

  /** A generated block or list item, by its `id` when it is a mapping with a string one. */
  datatype Item = Mapping(id: Option<string>) | Opaque

  datatype Node = Block(item: Item) | Listing(items: seq<Item>)

  type Yaml = map<string, Node>

  function ItemFor(path: seq<Part>, data: Yaml): Item
    requires path != [] && path[0].Name?
  {
    if path[0].name !in data then Opaque
    else
      match data[path[0].name]
      case Listing(items) =>
        if |path| > 1 && path[1].At? && path[1].index < |items| then items[path[1].index] else Opaque
      case Block(item) => item
  }

  predicate InDomain(e: Entry, domain: string) {
    e.component == domain || domain + "." <= e.component
  }

  function OfDomain(es: seq<Entry>, domain: string): seq<string> {
    if es == [] then []
    else OfDomain(es[..|es| - 1], domain) + if InDomain(es[|es| - 1], domain) then [es[|es| - 1].id] else []
  }

  /** The entry whose generated item the path leads to, else the sole featured entry of the domain. */
  function EntryForPath(path: seq<Part>, data: Yaml, es: seq<Entry>): Option<string> {
    if path == [] || !path[0].Name? then None
    else
      var item := ItemFor(path, data);
      if item.Mapping? && item.id.Some? && item.id.value in Ids(es) then item.id
      else
        var matches := OfDomain(es, path[0].name);
        if |matches| == 1 then Some(matches[0]) else None
  }

  lemma {:induction false} OfDomainAreEntries(es: seq<Entry>, domain: string)
    ensures forall m | m in OfDomain(es, domain) :: exists e :: e in es && e.id == m && InDomain(e, domain)
  {
    if es != [] {
      OfDomainAreEntries(es[..|es| - 1], domain);
      assert es == es[..|es| - 1] + [es[|es| - 1]];
    }
  }

  /** An error is only ever pinned on an entry of the record. */
  lemma PinnedOnEntry(path: seq<Part>, data: Yaml, es: seq<Entry>)
    requires EntryForPath(path, data, es).Some?
    ensures EntryForPath(path, data, es).value in Ids(es)
  {
    OfDomainAreEntries(es, path[0].name);
    var matches := OfDomain(es, path[0].name);
    if |matches| == 1 {
      assert matches[0] in matches;
    }
  }

  /** The generated item the path leads to carries this id. */
  ghost predicate LeadsTo(path: seq<Part>, data: Yaml, id: string)
    requires path != [] && path[0].Name?
  {
    && path[0].name in data
    && match data[path[0].name]
       case Block(item) => item == Mapping(Some(id))
       case Listing(items) =>
         |path| > 1 && path[1].At? && path[1].index < |items| && items[path[1].index] == Mapping(Some(id))
  }

  /** Position `n` holds the only entry of the domain. */
  ghost predicate SoleOf(es: seq<Entry>, domain: string, n: int) {
    0 <= n < |es|
    && forall m | 0 <= m < |es| :: (es[m].component == domain || domain + "." <= es[m].component) <==> m == n
  }

  lemma {:induction false} NoneOfDomain(es: seq<Entry>, domain: string)
    ensures OfDomain(es, domain) == [] <==> forall m | 0 <= m < |es| :: !InDomain(es[m], domain)
  {
    if es != [] {
      var front, last := es[..|es| - 1], es[|es| - 1];
      assert es == front + [last];
      NoneOfDomain(front, domain);
    }
  }

  lemma {:induction false} SoleIs(es: seq<Entry>, domain: string, n: int)
    requires SoleOf(es, domain, n)
    ensures OfDomain(es, domain) == [es[n].id]
  {
    if n == |es| - 1 {
      NoneOfDomain(es[..|es| - 1], domain);
    } else {
      SoleIs(es[..|es| - 1], domain, n);
    }
  }

  lemma {:induction false} FindSole(es: seq<Entry>, domain: string) returns (n: int)
    requires |OfDomain(es, domain)| == 1
    ensures SoleOf(es, domain, n)
  {
    var front := es[..|es| - 1];
    if InDomain(es[|es| - 1], domain) {
      NoneOfDomain(front, domain);
      n := |front|;
    } else {
      n := FindSole(front, domain);
    }
  }

  /**
   An error is pinned on the featured entry whose generated item its path leads to; if it leads to none, on the
   only featured entry of the domain.
   */
  lemma EntryForPathIff(path: seq<Part>, data: Yaml, es: seq<Entry>, d: string)
    ensures EntryForPath(path, data, es) == Some(d) <==>
              && path != [] && path[0].Name?
              && if exists id :: id in Ids(es) && LeadsTo(path, data, id) then d in Ids(es) && LeadsTo(path, data, d)
                 else exists n :: SoleOf(es, path[0].name, n) && es[n].id == d
  {
    if path != [] && path[0].Name? {
      if |OfDomain(es, path[0].name)| == 1 {
        var n := FindSole(es, path[0].name);
      }
      forall n | SoleOf(es, path[0].name, n) ensures OfDomain(es, path[0].name) == [es[n].id] {
        SoleIs(es, path[0].name, n);
      }
    }
  }

  // ----- Outcomes -----

  datatype Outcome = Outcome(drops: seq<string>, errors: seq<string>)

  /** A whole list of errors: the entries to drop, unless one error cannot be pinned. */
  ghost predicate IsMapped(errors: seq<Error>, data: Yaml, es: seq<Entry>, o: Outcome) {
    if forall e | e in errors :: EntryForPath(e.path, data, es).Some?
    then o.errors == [] && Distinct(o.drops)
         && forall d :: d in o.drops <==> exists e :: e in errors && EntryForPath(e.path, data, es) == Some(d)
    else o.drops == []
         && exists i ::
              0 <= i < |errors| && EntryForPath(errors[i].path, data, es).None? && o.errors == [errors[i].text]
                        && forall j | 0 <= j < i :: EntryForPath(errors[j].path, data, es).Some?
  }

  method MapErrors(errors: seq<Error>, data: Yaml, es: seq<Entry>) returns (o: Outcome)
    ensures IsMapped(errors, data, es, o)
  {
    var drops: seq<string> := [];
    for i := 0 to |errors|
      invariant Distinct(drops)
      invariant forall j | 0 <= j < i :: EntryForPath(errors[j].path, data, es).Some?
      invariant forall d :: d in drops <==> exists e :: e in errors[..i] && EntryForPath(e.path, data, es) == Some(d)
    {
      TakeNext(errors, i);
      assert errors[i] in errors;
      var local := EntryForPath(errors[i].path, data, es);
      if local.None? {
        return Outcome([], [errors[i].text]);
      }
      if local.value !in drops {
        drops := drops + [local.value];
      }
    }
    assert errors[..|errors|] == errors;
    return Outcome(drops, []);
  }

  /** A failed validation always names something: an entry of the record to drop, or an error. */
  lemma FailureIsActedOn(errors: seq<Error>, data: Yaml, es: seq<Entry>, o: Outcome)
    requires IsMapped(errors, data, es, o)
    ensures errors != [] <==> o.drops != [] || o.errors != []
    ensures forall d | d in o.drops :: d in Ids(es)
  {
    forall d | d in o.drops ensures d in Ids(es) {
      var e :| e in errors && EntryForPath(e.path, data, es) == Some(d);
      PinnedOnEntry(e.path, data, es);
    }
    if o.drops != [] {
      assert o.drops[0] in o.drops;
    }
    if errors != [] && forall e | e in errors :: EntryForPath(e.path, data, es).Some? {
      assert errors[0] in errors;
      assert EntryForPath(errors[0].path, data, es).value in o.drops;
    }
  }

  // ----- Dropping entries -----

  function Without(needs: seq<string>, drop: set<string>): (kept: seq<string>)
    ensures forall q :: q in kept <==> q in needs && q !in drop
    ensures |kept| <= |needs|
  {
    if needs == [] then []
    else
      assert needs == needs[..|needs| - 1] + [needs[|needs| - 1]];
      Without(needs[..|needs| - 1], drop) + if needs[|needs| - 1] in drop then [] else [needs[|needs| - 1]]
  }

  function KeepEntries(es: seq<Entry>, drop: set<string>): (kept: seq<Entry>)
    ensures |kept| <= |es|
    ensures forall e | e in kept :: e.id !in drop && forall q | q in e.needs :: q !in drop
  {
    if es == [] then []
    else
      var last := es[|es| - 1];
      KeepEntries(es[..|es| - 1], drop) + if last.id in drop then [] else [last.(needs := Without(last.needs, drop))]
  }

  function KeepBundle(b: Bundle, drop: set<string>): seq<Bundle> {
    var members := Without(b.members, drop);
    if members == [] then [] else [b.(members := members)]
  }

  function KeepBundles(bs: seq<Bundle>, drop: set<string>): (kept: seq<Bundle>)
    ensures |kept| <= |bs|
  {
    if bs == [] then [] else KeepBundles(bs[..|bs| - 1], drop) + KeepBundle(bs[|bs| - 1], drop)
  }

  function DroppedEntries(es: seq<Entry>, drop: set<string>): (gone: seq<Entry>)
    ensures forall e :: e in gone <==> e in es && e.id in drop
  {
    if es == [] then []
    else
      assert es == es[..|es| - 1] + [es[|es| - 1]];
      DroppedEntries(es[..|es| - 1], drop) + if es[|es| - 1].id in drop then [es[|es| - 1]] else []
  }

  // ----- Pins -----

  /** Every board GPIO a pin value names. */
  function GpiosOf(v: Value): set<int> {
    match v
    case Leaf(gpio) => if gpio.Some? then {gpio.value} else {}
    case Items(items) => set i, g | 0 <= i < |items| && g in GpiosOf(items[i]) :: g
    case Expander => {}
    case Numbered(number) =>
      // a mapping below `number` is no pin
      if number.Leaf? || number.Items? then GpiosOf(number) else {}
    case Group(values) => set i, g | 0 <= i < |values| && g in GpiosOf(values[i]) :: g
  }

  ghost predicate Locks(e: Entry, gpio: int) {
    exists i :: 0 <= i < |e.pins| && gpio in GpiosOf(e.pins[i])
  }

  function LabelOf(e: Entry): string {
    if e.name.Some? then e.name.value else e.id
  }

  type Claims = map<int, string>

  /** `g` is claimed for the first entry that locks it. */
  ghost predicate FirstClaim(es: seq<Entry>, g: int, tag: string) {
    exists i :: 0 <= i < |es| && Locks(es[i], g) && tag == LabelOf(es[i]) && forall j | 0 <= j < i :: !Locks(es[j], g)
  }

  /** Each GPIO some entry locks, under the label of the first entry that does. */
  ghost predicate IsClaims(es: seq<Entry>, claimed: Claims) {
    && (forall g :: g in claimed <==> exists e :: e in es && Locks(e, g))
    && forall g | g in claimed :: FirstClaim(es, g, claimed[g])
  }

  /** `gpios` claimed for `tag`, where nothing claimed them before. */
  function Claimed(claimed: Claims, gpios: set<int>, tag: string): Claims {
    map g | g in claimed.Keys + gpios :: if g in claimed then claimed[g] else tag
  }

  lemma ClaimsCompose(claimed: Claims, a: set<int>, b: set<int>, tag: string)
    ensures Claimed(Claimed(claimed, a, tag), b, tag) == Claimed(claimed, a + b, tag)
  {
  }

  /** Claim a value's leaves for `tag`, where nothing claimed them before. */
  method WalkGpioLeaves(v: Value, tag: string, claimed: Claims) returns (after: Claims)
    ensures after == Claimed(claimed, GpiosOf(v), tag)
    decreases v
  {
    after := claimed;
    match v
    case Expander =>
    case Group(values) => after := WalkAll(values, tag, claimed);
    case Items(items) => after := WalkAll(items, tag, claimed);
    case Numbered(number) =>
      if number.Leaf? || number.Items? {
        after := WalkGpioLeaves(number, tag, claimed);
      }
    case Leaf(gpio) =>
      if gpio.Some? && gpio.value !in claimed {
        after := claimed[gpio.value := tag];
      }
  }

  function GpiosOfAll(vs: seq<Value>): set<int> {
    set i, g | 0 <= i < |vs| && g in GpiosOf(vs[i]) :: g
  }

  lemma GpiosOfNext(vs: seq<Value>, i: nat)
    requires i < |vs|
    ensures GpiosOfAll(vs[..i + 1]) == GpiosOfAll(vs[..i]) + GpiosOf(vs[i])
  {
    forall g | g in GpiosOfAll(vs[..i]) ensures g in GpiosOfAll(vs[..i + 1]) {
      var j :| 0 <= j < i && g in GpiosOf(vs[..i][j]);
      assert g in GpiosOf(vs[..i + 1][j]);
    }
    forall g | g in GpiosOf(vs[i]) ensures g in GpiosOfAll(vs[..i + 1]) {
      assert g in GpiosOf(vs[..i + 1][i]);
    }
  }

  method WalkAll(vs: seq<Value>, tag: string, claimed: Claims) returns (after: Claims)
    ensures after == Claimed(claimed, GpiosOfAll(vs), tag)
    decreases vs
  {
    after := claimed;
    for i := 0 to |vs|
      invariant after == Claimed(claimed, GpiosOfAll(vs[..i]), tag)
    {
      GpiosOfNext(vs, i);
      ClaimsCompose(claimed, GpiosOfAll(vs[..i]), GpiosOf(vs[i]), tag);
      after := WalkGpioLeaves(vs[i], tag, after);
    }
    assert vs[..|vs|] == vs;
  }

  lemma LocksIff(e: Entry, g: int)
    ensures Locks(e, g) <==> g in GpiosOfAll(e.pins)
  {
  }

  method SurvivingGpioLabels(es: seq<Entry>) returns (claimed: Claims)
    ensures IsClaims(es, claimed)
  {
    claimed := map[];
    for i := 0 to |es|
      invariant IsClaims(es[..i], claimed)
    {
      TakeNext(es, i);
      ghost var before := claimed;
      claimed := WalkAll(es[i].pins, LabelOf(es[i]), claimed);
      ClaimsNext(es[..i], es[i], before, claimed);
    }
    assert es[..|es|] == es;
  }

  lemma FirstClaimGrows(es: seq<Entry>, e: Entry, g: int, tag: string)
    ensures FirstClaim(es, g, tag) ==> FirstClaim(es + [e], g, tag)
    ensures (forall o | o in es :: !Locks(o, g)) && Locks(e, g) ==> FirstClaim(es + [e], g, LabelOf(e))
  {
    var all := es + [e];
    if FirstClaim(es, g, tag) {
      var i :| 0 <= i < |es| && Locks(es[i], g) && tag == LabelOf(es[i]) && forall j | 0 <= j < i :: !Locks(es[j], g);
      assert all[i] == es[i] && forall j | 0 <= j < i :: all[j] == es[j];
    }
    if (forall o | o in es :: !Locks(o, g)) && Locks(e, g) {
      assert all[|es|] == e;
      forall j | 0 <= j < |es| ensures !Locks(all[j], g) {
        assert all[j] == es[j] && es[j] in es;
      }
    }
  }

  lemma ClaimsNext(es: seq<Entry>, e: Entry, before: Claims, after: Claims)
    requires IsClaims(es, before) && after == Claimed(before, GpiosOfAll(e.pins), LabelOf(e))
    ensures IsClaims(es + [e], after)
  {
    var all := es + [e];
    forall g ensures g in after <==> exists o :: o in all && Locks(o, g) {
      LocksIff(e, g);
      if g in before {
        var o :| o in es && Locks(o, g);
        assert o in all;
      } else if g in after {
        assert e in all;
      }
    }
    forall g | g in after ensures FirstClaim(all, g, after[g]) {
      LocksIff(e, g);
      FirstClaimGrows(es, e, g, after[g]);
    }
  }

  /** Every label an entry's pins can carry. */
  function PinLabels(e: Entry): set<string> {
    {e.id, e.component} + e.labels + if e.name.Some? then {e.name.value} else {}
  }

  function LabelsOf(gone: seq<Entry>): set<string> {
    set e, l | e in gone && l in PinLabels(e) :: l
  }

  predicate OwnedBy(p: Pin, labels: set<string>) {
    p.occupiedBy.Some? && p.occupiedBy.value in labels
  }

  /** A pin of nobody dropped stays; one that a survivor still claims stays under its label; the rest go. */
  function Pruned(ps: seq<Pin>, labels: set<string>, claimed: Claims): seq<Pin> {
    if ps == [] then []
    else
      var last := ps[|ps| - 1];
      Pruned(ps[..|ps| - 1], labels, claimed) +
        if !OwnedBy(last, labels) then [last]
        else if last.gpio.Some? && last.gpio.value in claimed then [last.(occupiedBy := Some(claimed[last.gpio.value]))]
        else []
  }

  /** A declared GPIO that a survivor locks stays declared, by the same pin. */
  lemma {:induction false} LockedPinStays(ps: seq<Pin>, labels: set<string>, claimed: Claims, p: Pin)
    requires p in ps && p.gpio.Some? && p.gpio.value in claimed
    ensures exists q :: q in Pruned(ps, labels, claimed) && q.gpio == p.gpio && q.rest == p.rest
  {
    var front, last := ps[..|ps| - 1], ps[|ps| - 1];
    assert ps == front + [last];
    if p != last {
      LockedPinStays(front, labels, claimed, p);
      var q :| q in Pruned(front, labels, claimed) && q.gpio == p.gpio && q.rest == p.rest;
      assert q in Pruned(ps, labels, claimed);
    } else {
      var q := if OwnedBy(p, labels) then p.(occupiedBy := Some(claimed[p.gpio.value])) else p;
      assert q in Pruned(ps, labels, claimed);
    }
  }

  /** And no pin that stays is still labelled for a dropped entry, unless that is a survivor's label too. */
  lemma {:induction false} PrunedIsOwned(ps: seq<Pin>, labels: set<string>, claimed: Claims, q: Pin)
    requires q in Pruned(ps, labels, claimed) && OwnedBy(q, labels)
    ensures q.gpio.Some? && q.gpio.value in claimed && q.occupiedBy == Some(claimed[q.gpio.value])
  {
    if q in Pruned(ps[..|ps| - 1], labels, claimed) {
      PrunedIsOwned(ps[..|ps| - 1], labels, claimed, q);
    }
  }

  // ----- One round of drops -----

  ghost predicate IsDropped(c: Content, drop: set<string>, after: Content) {
    && after.entries == KeepEntries(c.entries, drop)
    && after.bundles == KeepBundles(c.bundles, drop)
    && exists claimed ::
         IsClaims(after.entries, claimed)
         && after.pins == Pruned(c.pins, LabelsOf(DroppedEntries(c.entries, drop)), claimed)
  }

  /** Nothing in the record names a dropped id. */
  ghost predicate NamesNone(c: Content, drop: set<string>) {
    && (forall e | e in c.entries :: e.id !in drop && forall q | q in e.needs :: q !in drop)
    && (forall b | b in c.bundles :: b.members != [] && forall m | m in b.members :: m !in drop)
  }

  /** Every prerequisite and every bundle member is a featured entry. */
  ghost predicate Closed(c: Content) {
    && (forall e, q | e in c.entries && q in e.needs :: q in Ids(c.entries))
    && (forall b, m | b in c.bundles && m in b.members :: m in Ids(c.entries))
  }

  lemma {:induction false} KeptEntriesFrom(es: seq<Entry>, drop: set<string>)
    ensures forall k | k in KeepEntries(es, drop) :: exists e :: e in es && k == e.(needs := Without(e.needs, drop))
    ensures Ids(KeepEntries(es, drop)) == Ids(es) - drop
  {
    if es != [] {
      var front, last := es[..|es| - 1], es[|es| - 1];
      assert es == front + [last];
      KeptEntriesFrom(front, drop);
      assert Ids(es) == Ids(front) + {last.id};
      var tail := if last.id in drop then [] else [last.(needs := Without(last.needs, drop))];
      assert Ids(KeepEntries(front, drop) + tail) == Ids(KeepEntries(front, drop)) + Ids(tail);
      forall k | k in KeepEntries(es, drop) ensures exists e :: e in es && k == e.(needs := Without(e.needs, drop)) {
        if k in KeepEntries(front, drop) {
          var e :| e in front && k == e.(needs := Without(e.needs, drop));
          assert e in es;
        } else {
          assert last in es;
        }
      }
    }
  }

  /** An entry survives just when it is not dropped, without the prerequisites that are. */
  lemma {:induction false} KeptEntriesAre(es: seq<Entry>, drop: set<string>)
    ensures forall k :: k in KeepEntries(es, drop) <==>
              exists e :: e in es && k == e.(needs := Without(e.needs, drop)) && k.id !in drop
  {
    if es != [] {
      var front, last := es[..|es| - 1], es[|es| - 1];
      assert es == front + [last];
      KeptEntriesAre(front, drop);
    }
  }

  /** A bundle survives just when some member does, with just the members that do. */
  lemma {:induction false} KeptBundlesAre(bs: seq<Bundle>, drop: set<string>)
    ensures forall k :: k in KeepBundles(bs, drop) <==>
              exists b :: b in bs && k == b.(members := Without(b.members, drop)) && k.members != []
  {
    if bs != [] {
      var front, last := bs[..|bs| - 1], bs[|bs| - 1];
      assert bs == front + [last];
      KeptBundlesAre(front, drop);
    }
  }

  // Each of the lists is gone through item by item, in order.

  lemma {:induction false} WithoutSplits(a: seq<string>, b: seq<string>, drop: set<string>)
    ensures Without(a + b, drop) == Without(a, drop) + Without(b, drop)
  {
    if b == [] {
      assert a + b == a;
    } else {
      assert (a + b)[..|a + b| - 1] == a + b[..|b| - 1];
      WithoutSplits(a, b[..|b| - 1], drop);
    }
  }

  lemma {:induction false} EntriesSplit(a: seq<Entry>, b: seq<Entry>, drop: set<string>)
    ensures KeepEntries(a + b, drop) == KeepEntries(a, drop) + KeepEntries(b, drop)
  {
    if b == [] {
      assert a + b == a;
    } else {
      assert (a + b)[..|a + b| - 1] == a + b[..|b| - 1];
      EntriesSplit(a, b[..|b| - 1], drop);
    }
  }

  lemma {:induction false} BundlesSplit(a: seq<Bundle>, b: seq<Bundle>, drop: set<string>)
    ensures KeepBundles(a + b, drop) == KeepBundles(a, drop) + KeepBundles(b, drop)
  {
    if b == [] {
      assert a + b == a;
    } else {
      var front, last := KeepBundles(b[..|b| - 1], drop), KeepBundle(b[|b| - 1], drop);
      assert (a + b)[..|a + b| - 1] == a + b[..|b| - 1];
      BundlesSplit(a, b[..|b| - 1], drop);
      assert KeepBundles(a + b, drop) == (KeepBundles(a, drop) + front) + last;
    }
  }

  lemma {:induction false} PinsSplit(a: seq<Pin>, b: seq<Pin>, labels: set<string>, claimed: Claims)
    ensures Pruned(a + b, labels, claimed) == Pruned(a, labels, claimed) + Pruned(b, labels, claimed)
  {
    if b == [] {
      assert a + b == a;
    } else {
      assert (a + b)[..|a + b| - 1] == a + b[..|b| - 1];
      PinsSplit(a, b[..|b| - 1], labels, claimed);
    }
  }

  // ----- What becomes of the pins -----

  /** The pin is labelled for a dropped entry: by its id, its component, its name or another label of its pins. */
  ghost predicate LabelledForDropped(c: Content, drop: set<string>, p: Pin) {
    p.occupiedBy.Some?
    && exists e ::
      e in c.entries && e.id in drop
      && (p.occupiedBy.value in {e.id, e.component} || p.occupiedBy == e.name || p.occupiedBy.value in e.labels)
  }

  /** The first entry that locks the GPIO has this name, or this id when it has no name. */
  ghost predicate FirstLockedBy(es: seq<Entry>, g: int, tag: string) {
    exists i :: 0 <= i < |es| && Locks(es[i], g) && (forall j | 0 <= j < i :: !Locks(es[j], g))
      && tag == if es[i].name.Some? then es[i].name.value else es[i].id
  }

  ghost predicate Becomes(c: Content, drop: set<string>, after: Content, p: Pin, q: Pin) {
    if !LabelledForDropped(c, drop, p) then q == p
    else
      && p.gpio.Some? && q.gpio == p.gpio && q.rest == p.rest
      && q.occupiedBy.Some? && FirstLockedBy(after.entries, p.gpio.value, q.occupiedBy.value)
  }

  lemma {:induction false} PrunedAre(ps: seq<Pin>, labels: set<string>, claimed: Claims, q: Pin)
    ensures q in Pruned(ps, labels, claimed) <==>
              exists p :: p in ps
                && if !OwnedBy(p, labels) then q == p
                   else p.gpio.Some? && p.gpio.value in claimed
                        && q == p.(occupiedBy := Some(claimed[p.gpio.value]))
  {
    if ps != [] {
      assert ps == ps[..|ps| - 1] + [ps[|ps| - 1]];
      PrunedAre(ps[..|ps| - 1], labels, claimed, q);
    }
  }

  lemma LabelledIsOwned(c: Content, drop: set<string>, p: Pin)
    ensures LabelledForDropped(c, drop, p) <==> OwnedBy(p, LabelsOf(DroppedEntries(c.entries, drop)))
  {
    var gone := DroppedEntries(c.entries, drop);
    if LabelledForDropped(c, drop, p) {
      var e :| e in c.entries && e.id in drop
        && (p.occupiedBy.value in {e.id, e.component} || p.occupiedBy == e.name || p.occupiedBy.value in e.labels);
      assert e in gone && p.occupiedBy.value in PinLabels(e);
    }
  }

  lemma FirstLockIsClaim(es: seq<Entry>, claimed: Claims, g: int, tag: string)
    requires IsClaims(es, claimed)
    ensures FirstLockedBy(es, g, tag) <==> g in claimed && claimed[g] == tag
  {
    if FirstLockedBy(es, g, tag) {
      var i :| 0 <= i < |es| && Locks(es[i], g) && (forall j | 0 <= j < i :: !Locks(es[j], g))
        && tag == if es[i].name.Some? then es[i].name.value else es[i].id;
      assert es[i] in es && FirstClaim(es, g, claimed[g]);
    }
  }

  /**
   A drop leaves the pins of the dropped entries only where a surviving entry locks the GPIO, under that entry's
   label, and every other pin as it was.
   */
  lemma DropRelabelsPins(c: Content, drop: set<string>, after: Content, q: Pin)
    requires IsDropped(c, drop, after)
    ensures q in after.pins <==> exists p :: p in c.pins && Becomes(c, drop, after, p, q)
  {
    var labels := LabelsOf(DroppedEntries(c.entries, drop));
    var claimed :| IsClaims(after.entries, claimed) && after.pins == Pruned(c.pins, labels, claimed);
    PrunedAre(c.pins, labels, claimed, q);
    forall p | p in c.pins
      ensures Becomes(c, drop, after, p, q) <==>
                if !OwnedBy(p, labels) then q == p
                else p.gpio.Some? && p.gpio.value in claimed && q == p.(occupiedBy := Some(claimed[p.gpio.value]))
    {
      LabelledIsOwned(c, drop, p);
      if p.gpio.Some? && q.occupiedBy.Some? {
        FirstLockIsClaim(after.entries, claimed, p.gpio.value, q.occupiedBy.value);
      }
    }
  }

  /** After a drop nothing names a dropped id; and a record whose names all resolved keeps that. */
  lemma DropLeavesNoDangling(c: Content, drop: set<string>, after: Content)
    requires IsDropped(c, drop, after)
    ensures NamesNone(after, drop) && Ids(after.entries) == Ids(c.entries) - drop
    ensures Closed(c) ==> Closed(after)
  {
    KeptEntriesFrom(c.entries, drop);
    KeptBundlesAre(c.bundles, drop);
    if Closed(c) {
      forall k, q | k in after.entries && q in k.needs ensures q in Ids(after.entries) {
        var e :| e in c.entries && k == e.(needs := Without(e.needs, drop));
      }
      forall k, m | k in after.bundles && m in k.members ensures m in Ids(after.entries) {
        var b :| b in c.bundles && k == b.(members := Without(b.members, drop));
      }
    }
  }

  /** A declared GPIO that a surviving entry locks keeps its declaration. */
  lemma DropKeepsLockedPins(c: Content, drop: set<string>, after: Content, p: Pin, e: Entry)
    requires IsDropped(c, drop, after) && p in c.pins && p.gpio.Some? && e in after.entries && Locks(e, p.gpio.value)
    ensures exists q :: q in after.pins && q.gpio == p.gpio && q.rest == p.rest
  {
    var claimed :| IsClaims(after.entries, claimed)
      && after.pins == Pruned(c.pins, LabelsOf(DroppedEntries(c.entries, drop)), claimed);
    LockedPinStays(c.pins, LabelsOf(DroppedEntries(c.entries, drop)), claimed, p);
  }

  /** Dropping an entry's id makes the record smaller. */
  lemma {:induction false} DropShrinks(es: seq<Entry>, drop: set<string>)
    requires exists d :: d in drop && d in Ids(es)
    ensures |KeepEntries(es, drop)| < |es|
  {
    var front, last := es[..|es| - 1], es[|es| - 1];
    assert es == front + [last];
    if last.id !in drop {
      var d :| d in drop && d in Ids(es);
      var e :| e in es && e.id == d;
      assert e in front;
      DropShrinks(front, drop);
    }
  }

  class Record {
    const id: string
    var entries: seq<Entry>
    var bundles: seq<Bundle>
    var pins: seq<Pin>

    constructor (id: string, content: Content)
      ensures this.id == id && View() == content
    {
      this.id := id;
      entries, bundles, pins := content.entries, content.bundles, content.pins;
    }

    function View(): Content
      reads this
    {
      Content(entries, bundles, pins)
    }

    /** Remove `drop` from the entries, their prerequisites, the bundles and the pins. */
    method ApplyDrops(drop: set<string>)
      modifies this
      ensures IsDropped(old(View()), drop, View())
    {
      var gone := DroppedEntries(entries, drop);
      entries := KeepEntries(entries, drop);
      bundles := KeepBundles(bundles, drop);
      var claimed := SurvivingGpioLabels(entries);
      pins := PruneDroppedPins(pins, LabelsOf(gone), claimed);
    }
  }

  method PruneDroppedPins(ps: seq<Pin>, labels: set<string>, claimed: Claims) returns (kept: seq<Pin>)
    ensures kept == Pruned(ps, labels, claimed)
  {
    kept := [];
    for i := 0 to |ps|
      invariant kept == Pruned(ps[..i], labels, claimed)
    {
      TakeNext(ps, i);
      if !OwnedBy(ps[i], labels) {
        kept := kept + [ps[i]];
      } else if ps[i].gpio.Some? && ps[i].gpio.value in claimed {
        kept := kept + [ps[i].(occupiedBy := Some(claimed[ps[i].gpio.value]))];
      }
    }
    assert ps[..|ps|] == ps;
  }

  // ----- The gate -----

  const MAX_PASSES := 12

  /** One validation: not applicable, crashed before any error list, or run to a list of errors. */
  datatype Verdict = NotApplicable | Crashed(text: string) | Ran(errors: seq<Error>, data: Yaml)

  /** The verdict of each pass on a record with this id and content. */
  type Validation = (nat, string, Content) -> Verdict

  predicate Accepts(v: Verdict) {
    v.NotApplicable? || (v.Ran? && v.errors == [])
  }

  /** The board-level error a verdict comes down to, if it does. */
  ghost predicate Refuses(v: Verdict, es: seq<Entry>, text: string) {
    match v
    case NotApplicable => false
    case Crashed(t) => text == t
    case Ran(errors, data) => exists o :: IsMapped(errors, data, es, o) && o.errors == [text]
  }

  /** Each declared GPIO that an entry still locks is still declared, by the same pin. */
  ghost predicate PinsKept(c: Content, after: Content) {
    forall p, e | p in c.pins && p.gpio.Some? && e in after.entries && Locks(e, p.gpio.value) :: Declared(p, after)
  }

  ghost predicate Declared(p: Pin, c: Content) {
    exists q :: q in c.pins && q.gpio == p.gpio && q.rest == p.rest
  }

  /** `after` is `c` with some entries dropped. */
  ghost predicate Descends(c: Content, after: Content) {
    && (after.entries == c.entries || exists drop :: after.entries == KeepEntries(c.entries, drop))
    && (Closed(c) ==> Closed(after))
    && PinsKept(c, after)
  }

  lemma {:induction false} WithoutBoth(needs: seq<string>, a: set<string>, b: set<string>)
    ensures Without(Without(needs, a), b) == Without(needs, a + b)
  {
    if needs != [] {
      var front, last := needs[..|needs| - 1], needs[|needs| - 1];
      WithoutBoth(front, a, b);
      if last !in a {
        assert Without(needs, a)[..|Without(needs, a)| - 1] == Without(front, a);
      } else {
        assert Without(needs, a) == Without(front, a);
      }
    }
  }

  lemma {:induction false} KeepBoth(es: seq<Entry>, a: set<string>, b: set<string>)
    ensures KeepEntries(KeepEntries(es, a), b) == KeepEntries(es, a + b)
  {
    if es != [] {
      var front, last := es[..|es| - 1], es[|es| - 1];
      KeepBoth(front, a, b);
      WithoutBoth(last.needs, a, b);
      if last.id !in a {
        assert KeepEntries(es, a)[..|KeepEntries(es, a)| - 1] == KeepEntries(front, a);
      } else {
        assert KeepEntries(es, a) == KeepEntries(front, a);
      }
    }
  }

  lemma DescendsSelf(c: Content)
    ensures Descends(c, c)
  {
    forall p | p in c.pins ensures Declared(p, c) {
    }
  }

  lemma DescendsDrop(c0: Content, c: Content, drop: set<string>, after: Content)
    requires Descends(c0, c) && IsDropped(c, drop, after)
    ensures Descends(c0, after)
  {
    if a :| c.entries == KeepEntries(c0.entries, a) {
      KeepBoth(c0.entries, a, drop);
    }
    DropLeavesNoDangling(c, drop, after);
    KeptEntriesFrom(c.entries, drop);
    forall p, e | p in c0.pins && p.gpio.Some? && e in after.entries && Locks(e, p.gpio.value)
      ensures Declared(p, after)
    {
      var m :| m in c.entries && e == m.(needs := Without(m.needs, drop));
      assert Locks(m, p.gpio.value);
      assert Declared(p, c);
      var q :| q in c.pins && q.gpio == p.gpio && q.rest == p.rest;
      DropKeepsLockedPins(c, drop, after, q, e);
    }
  }

  // ----- The repairs of one record -----

  function DropSet(o: Outcome): set<string> {
    set d | d in o.drops
  }

  /** A verdict calls for `after`: all its errors are pinned, and just the entries they are pinned on are dropped. */
  ghost predicate Repairs(v: Verdict, c: Content, after: Content) {
    v.Ran? && exists o :: IsMapped(v.errors, v.data, c.entries, o) && o.drops != [] && IsDropped(c, DropSet(o), after)
  }

  /** Each pass validates what the one before it left, and repairs it. */
  ghost predicate IsRepairRun(run: Validation, id: string, cs: seq<Content>) {
    cs != [] && forall i | 0 <= i < |cs| - 1 :: Repairs(run(i, id, cs[i]), cs[i], cs[i + 1])
  }

  /** `c` is what `k` passes make of `c0`. */
  ghost predicate Repaired(run: Validation, id: string, c0: Content, k: nat, c: Content) {
    exists cs: seq<Content> :: IsRepairRun(run, id, cs) && |cs| == k + 1 && cs[0] == c0 && cs[k] == c
  }

  lemma RepairedStart(run: Validation, id: string, c0: Content)
    ensures Repaired(run, id, c0, 0, c0)
  {
    assert IsRepairRun(run, id, [c0]);
  }

  lemma RepairedNext(run: Validation, id: string, c0: Content, k: nat, c: Content, after: Content)
    requires Repaired(run, id, c0, k, c) && Repairs(run(k, id, c), c, after)
    ensures Repaired(run, id, c0, k + 1, after)
  {
    var cs: seq<Content> :| IsRepairRun(run, id, cs) && |cs| == k + 1 && cs[0] == c0 && cs[k] == c;
    assert IsRepairRun(run, id, cs + [after]);
  }

  /** Whatever the verdicts, each repair costs an entry and keeps references resolved and locked GPIOs declared. */
  lemma {:induction false} RepairsDescend(run: Validation, id: string, cs: seq<Content>, k: nat)
    requires IsRepairRun(run, id, cs) && k < |cs|
    ensures Descends(cs[0], cs[k]) && |cs[k].entries| + k <= |cs[0].entries|
  {
    if k == 0 {
      DescendsSelf(cs[0]);
    } else {
      RepairsDescend(run, id, cs, k - 1);
      assert Repairs(run(k - 1, id, cs[k - 1]), cs[k - 1], cs[k - 1 + 1]);
      RepairDescends(run(k - 1, id, cs[k - 1]), cs[0], cs[k - 1], cs[k]);
    }
  }

  lemma RepairedDescends(run: Validation, id: string, c0: Content, k: nat, c: Content)
    requires Repaired(run, id, c0, k, c)
    ensures Descends(c0, c) && |c.entries| + k <= |c0.entries|
  {
    var cs: seq<Content> :| IsRepairRun(run, id, cs) && |cs| == k + 1 && cs[0] == c0 && cs[k] == c;
    RepairsDescend(run, id, cs, k);
  }

  lemma RepairDescends(v: Verdict, c0: Content, b: Content, c: Content)
    requires Descends(c0, b) && Repairs(v, b, c)
    ensures Descends(c0, c) && |c.entries| < |b.entries|
  {
    var o :| IsMapped(v.errors, v.data, b.entries, o) && o.drops != [] && IsDropped(b, DropSet(o), c);
    var drop := DropSet(o);
    FailureIsActedOn(v.errors, v.data, b.entries, o);
    assert o.drops[0] in drop && o.drops[0] in Ids(b.entries);
    DropShrinks(b.entries, drop);
    DescendsDrop(c0, b, drop, c);
  }

  /** Why a board is skipped: its last validation failed, nothing was left of it, or the passes ran out. */
  datatype Reason = Fails(error: string) | NoneLeft | StillFails

  /** Still to be judged: every pass so far has repaired it, and something is left. */
  ghost predicate InPlay(run: Validation, r: Record, c0: Content, pass: nat)
    reads r
  {
    Repaired(run, r.id, c0, pass, r.View()) && (pass > 0 ==> r.entries != [])
  }

  /** What the record was judged by, on its content after `k` repairs. */
  ghost predicate Fits(v: Verdict, c: Content, reason: Option<Reason>, k: nat) {
    match reason
    case None => k < MAX_PASSES && Accepts(v)
    case Some(NoneLeft) => c.entries == [] && k > 0
    case Some(StillFails) => c.entries != [] && k == MAX_PASSES
    case Some(Fails(error)) => k < MAX_PASSES && Refuses(v, c.entries, error)
  }

  ghost predicate JudgedAfter(run: Validation, id: string, c0: Content, c: Content, reason: Option<Reason>, k: nat) {
    Repaired(run, id, c0, k, c) && Fits(run(k, id, c), c, reason, k)
  }

  /** Judged: after its repairs, accepted as it now stands or skipped for a reason. */
  ghost predicate Judged(run: Validation, r: Record, c0: Content, reason: Option<Reason>)
    reads r
  {
    exists k :: 0 <= k <= MAX_PASSES && JudgedAfter(run, r.id, c0, r.View(), reason, k)
  }

  /**
   Nothing judged has lost a resolved name or a locked pin; and the passes only run out on
   more than twelve entries.
   */
  lemma JudgedDescends(run: Validation, r: Record, c0: Content, reason: Option<Reason>)
    requires Judged(run, r, c0, reason)
    ensures Descends(c0, r.View())
    ensures reason == Some(StillFails) ==> |c0.entries| > 12
  {
    var k :| 0 <= k <= MAX_PASSES && JudgedAfter(run, r.id, c0, r.View(), reason, k);
    RepairedDescends(run, r.id, c0, k, r.View());
  }

  function ReasonFor(skipped: map<string, Reason>, id: string): Option<Reason> {
    if id in skipped then Some(skipped[id]) else None
  }

  /** Validate one record and act on the outcome; `again` when it was repaired and must revalidate. */
  method Judge(run: Validation, pass: nat, r: Record, ghost c0: Content) returns (reason: Option<Reason>, again: bool)
    requires InPlay(run, r, c0, pass) && pass < MAX_PASSES
    modifies r
    ensures again ==> reason.None? && InPlay(run, r, c0, pass + 1)
    ensures !again ==> Judged(run, r, c0, reason)
  {
    var verdict := run(pass, r.id, r.View());
    if verdict.NotApplicable? {
      assert JudgedAfter(run, r.id, c0, r.View(), None, pass);
      return None, false;
    }
    if verdict.Crashed? {
      assert JudgedAfter(run, r.id, c0, r.View(), Some(Fails(verdict.text)), pass);
      return Some(Fails(verdict.text)), false;
    }
    var o := MapErrors(verdict.errors, verdict.data, r.entries);
    FailureIsActedOn(verdict.errors, verdict.data, r.entries, o);
    if o.drops == [] {
      reason := if o.errors != [] then Some(Fails(o.errors[0])) else None;
      assert o.errors != [] ==> Refuses(verdict, r.entries, o.errors[0]);
      assert JudgedAfter(run, r.id, c0, r.View(), reason, pass);
      return reason, false;
    }
    ghost var before := r.View();
    r.ApplyDrops(DropSet(o));
    assert Repairs(verdict, before, r.View());
    RepairedNext(run, r.id, c0, pass, before, r.View());
    if r.entries == [] {
      assert JudgedAfter(run, r.id, c0, r.View(), Some(NoneLeft), pass + 1);
      return Some(NoneLeft), false;
    }
    return None, true;
  }

  type Starts = map<Record, Content>

  /** Where one record stands after `pass` passes. */
  ghost predicate Stands(run: Validation, r: Record, c0: Content, pending: bool, reason: Option<Reason>, pass: nat)
    reads r
  {
    if pending then reason.None? && InPlay(run, r, c0, pass) else Judged(run, r, c0, reason)
  }

  ghost predicate DistinctIds(rs: seq<Record>) {
    Distinct(rs) && forall a, b | a in rs && b in rs && a != b :: a.id != b.id
  }

  lemma StandsAtStart(run: Validation, r: Record)
    ensures Stands(run, r, r.View(), true, None, 0)
  {
    RepairedStart(run, r.id, r.View());
  }

  /**
   Each record ends judged: repaired by its verdicts, pass by pass, until one
   accepts it or gives the reason it is skipped for.
   */
  method ApplyValidationGate(records: seq<Record>, run: Validation) returns (skipped: map<string, Reason>)
    requires DistinctIds(records)
    modifies records
    ensures forall r | r in records :: Judged(run, r, old(r.View()), ReasonFor(skipped, r.id))
    ensures forall id | id in skipped :: exists r :: r in records && r.id == id
  {
    ghost var start: Starts := map r | r in records :: r.View();
    forall r | r in records ensures Stands(run, r, start[r], true, None, 0) {
      StandsAtStart(run, r);
    }
    skipped := RunPasses(run, records, start);
  }

  method RunPasses(run: Validation, records: seq<Record>, ghost start: Starts) returns (skipped: map<string, Reason>)
    requires DistinctIds(records)
    requires forall r | r in records :: r in start && Stands(run, r, start[r], true, None, 0)
    modifies records
    ensures forall r | r in records :: Judged(run, r, start[r], ReasonFor(skipped, r.id))
    ensures forall id | id in skipped :: exists r :: r in records && r.id == id
  {
    skipped := map[];
    var pending := records;
    var pass := 0;
    while pass < MAX_PASSES && pending != []
      invariant pass <= MAX_PASSES && Distinct(pending) && forall r | r in pending :: r in records
      invariant forall r | r in records :: Stands(run, r, start[r], r in pending, ReasonFor(skipped, r.id), pass)
      invariant forall id | id in skipped :: exists r :: r in records && r.id == id
    {
      pending, skipped := JudgePass(run, pass, records, pending, skipped, start);
      pass := pass + 1;
    }
    skipped := RefuseRest(run, records, pending, skipped, start, pass);
  }

  /** In the middle of a pass: the records `ahead` are where they were, the others have been through it. */
  ghost predicate Midway(run: Validation, records: seq<Record>, start: Starts, retry: seq<Record>, ahead: seq<Record>,
                         skipped: map<string, Reason>, pass: nat)
    reads records
    requires forall r | r in records :: r in start
  {
    forall r | r in records ::
      if r in ahead then Stands(run, r, start[r], true, ReasonFor(skipped, r.id), pass)
      else Stands(run, r, start[r], r in retry, ReasonFor(skipped, r.id), pass + 1)
  }

  /**
   Validate every pending record, and act on each outcome; a record's verdict depends on
   nothing but its own content.
   */
  method JudgePass(
    run: Validation, pass: nat, ghost records: seq<Record>, pending: seq<Record>, skipped: map<string, Reason>,
    ghost start: Starts)
    returns (retry: seq<Record>, after: map<string, Reason>)
    requires DistinctIds(records) && Distinct(pending) && (forall r | r in pending :: r in records) && pass < MAX_PASSES
    requires forall r | r in records ::
             r in start && Stands(run, r, start[r], r in pending, ReasonFor(skipped, r.id), pass)
    requires forall id | id in skipped :: exists r :: r in records && r.id == id
    modifies records
    ensures Distinct(retry) && forall r | r in retry :: r in records
    ensures forall r | r in records :: Stands(run, r, start[r], r in retry, ReasonFor(after, r.id), pass + 1)
    ensures forall id | id in after :: exists r :: r in records && r.id == id
  {
    retry, after := [], skipped;
    for i := 0 to |pending|
      invariant Distinct(retry) && forall r | r in retry :: r in records && r !in pending[i..]
      invariant Midway(run, records, start, retry, pending[i..], after, pass)
      invariant forall id | id in after :: exists r :: r in records && r.id == id
    {
      DistinctSplit(pending, i);
      assert pending[i] in pending && pending[i] in records;
      retry, after := JudgeNext(run, pass, records, pending[i], retry, pending[i..], pending[i + 1..], after, start);
    }
  }

  method JudgeNext(run: Validation, pass: nat, ghost records: seq<Record>, r: Record, retry: seq<Record>,
                   ghost ahead: seq<Record>, ghost rest: seq<Record>, skipped: map<string, Reason>, ghost start: Starts)
    returns (now: seq<Record>, after: map<string, Reason>)
    requires DistinctIds(records) && pass < MAX_PASSES && r in records && forall o | o in records :: o in start
    requires r !in rest && r in ahead && forall o :: o in ahead <==> o == r || o in rest
    requires Distinct(retry) && forall o | o in retry :: o in records && o !in ahead
    requires Midway(run, records, start, retry, ahead, skipped, pass)
    requires forall id | id in skipped :: exists o :: o in records && o.id == id
    modifies r
    ensures Distinct(now) && forall o | o in now :: o in records && o !in rest
    ensures Midway(run, records, start, now, rest, after, pass)
    ensures forall id | id in after :: exists o :: o in records && o.id == id
  {
    assert Stands(run, r, start[r], true, ReasonFor(skipped, r.id), pass);
    var reason, again := Judge(run, pass, r, start[r]);
    now, after := retry, skipped;
    if again {
      DistinctSnoc(retry, r);
      now := retry + [r];
    }
    if reason.Some? {
      after := skipped[r.id := reason.value];
    }
  }

  /** Refuse what still fails after the last pass. */
  method RefuseRest(
    run: Validation, ghost records: seq<Record>, pending: seq<Record>, skipped: map<string, Reason>,
    ghost start: Starts, ghost pass: nat)
    returns (after: map<string, Reason>)
    requires DistinctIds(records) && Distinct(pending) && (forall r | r in pending :: r in records)
             && (pass == MAX_PASSES || pending == [])
    requires forall r | r in records ::
             r in start && Stands(run, r, start[r], r in pending, ReasonFor(skipped, r.id), pass)
    requires forall id | id in skipped :: exists r :: r in records && r.id == id
    ensures forall r | r in records :: Judged(run, r, start[r], ReasonFor(after, r.id))
    ensures forall id | id in after :: exists r :: r in records && r.id == id
  {
    after := skipped;
    for i := 0 to |pending|
      invariant forall r | r in records :: Stands(run, r, start[r], r in pending[i..], ReasonFor(after, r.id), pass)
      invariant forall id | id in after :: exists r :: r in records && r.id == id
    {
      DistinctSplit(pending, i);
      var r := pending[i];
      assert Stands(run, r, start[r], true, ReasonFor(after, r.id), pass);
      assert JudgedAfter(run, r.id, start[r], r.View(), Some(StillFails), pass);
      if r.id !in after {
        after := after[r.id := StillFails];
      }
    }
    forall r | r in records ensures Judged(run, r, start[r], ReasonFor(after, r.id)) {
      assert Stands(run, r, start[r], r in pending[|pending|..], ReasonFor(after, r.id), pass);
    }
  }
}
