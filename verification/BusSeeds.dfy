/**
 The buses of a manifest that are featured already (script/sync_esphome_devices.py).
 */
module BusSeeds {
  import opened Lists
  import opened Optional
  import opened BusLift

  function Partition(s: string): string {
    if s == "" || s[0] == '.' then "" else [s[0]] + Partition(s[1..])
  }

  predicate IsBusDep(p: Page, domain: string) {
    domain in p.index ==> p.index[domain].category in BUS_CATEGORIES
  }

  predicate IsBusOf(p: Page, e: Entry, domain: string) {
    Partition(e.component) == domain && IsBusDep(p, domain)
  }

  /** The last featured bus locked on an id. */
  function LastLocked(p: Page, featured: seq<Entry>, domain: string, id: string): Option<string> {
    if featured == [] then None
    else
      var e := featured[|featured| - 1];
      if IsBusOf(p, e, domain) && "id" in e.fields && e.fields["id"] == id then Some(e.id)
      else LastLocked(p, featured[..|featured| - 1], domain, id)
  }

  function BusesOf(p: Page, featured: seq<Entry>, domain: string): seq<string> {
    if featured == [] then []
    else
      var e := featured[|featured| - 1];
      BusesOf(p, featured[..|featured| - 1], domain) + if IsBusOf(p, e, domain) then [e.id] else []
  }

  /** By id, the last featured bus locked on it; without one, the domain's only featured bus. */
  function SeedFor(p: Page, featured: seq<Entry>, key: Key): Option<string> {
    match key.1
    case Some(id) => LastLocked(p, featured, key.0, id)
    case None =>
      var buses := BusesOf(p, featured, key.0);
      if |buses| == 1 then Some(buses[0]) else None
  }

  ghost predicate IsSeed(p: Page, featured: seq<Entry>, seeded: Memo) {
    forall key: Key :: SeedFor(p, featured, key) == if key in seeded then Some(seeded[key]) else None
  }

  ghost predicate LocksAre(p: Page, featured: seq<Entry>, locked: Memo) {
    && (forall key: Key :: key in locked ==> key.1.Some?)
    && forall d, id ::
         LastLocked(p, featured, d, id) == if (d, Some(id)) in locked then Some(locked[(d, Some(id))]) else None
  }

  ghost predicate DomainsAre(p: Page, featured: seq<Entry>, byDomain: map<string, seq<string>>) {
    forall d :: BusesOf(p, featured, d) == if d in byDomain then byDomain[d] else []
  }

  function WithLock(p: Page, e: Entry, locked: Memo): Memo {
    if IsBusDep(p, Partition(e.component)) && "id" in e.fields
    then locked[(Partition(e.component), Some(e.fields["id"])) := e.id]
    else locked
  }

  function WithBus(p: Page, e: Entry, byDomain: map<string, seq<string>>): map<string, seq<string>> {
    var d := Partition(e.component);
    if IsBusDep(p, d) then byDomain[d := (if d in byDomain then byDomain[d] else []) + [e.id]] else byDomain
  }

  lemma SeedNext(p: Page, front: seq<Entry>, e: Entry, locked: Memo, byDomain: map<string, seq<string>>)
    requires LocksAre(p, front, locked) && DomainsAre(p, front, byDomain)
    ensures LocksAre(p, front + [e], WithLock(p, e, locked)) && DomainsAre(p, front + [e], WithBus(p, e, byDomain))
  {
    assert (front + [e])[..|front|] == front;
  }

  method SeedBusLocal(p: Page, featured: seq<Entry>) returns (seeded: Memo)
    ensures IsSeed(p, featured, seeded)
    ensures forall k | k in seeded :: exists e :: e in featured && e.id == seeded[k]
  {
    seeded := map[];
    var byDomain: map<string, seq<string>> := map[];
    for i := 0 to |featured|
      invariant LocksAre(p, featured[..i], seeded) && DomainsAre(p, featured[..i], byDomain)
    {
      TakeNext(featured, i);
      var e := featured[i];
      var domain := Partition(e.component);
      SeedNext(p, featured[..i], e, seeded, byDomain);
      if !IsBusDep(p, domain) {
        continue;
      }
      if "id" in e.fields {
        seeded := seeded[(domain, Some(e.fields["id"])) := e.id];
      }
      byDomain := byDomain[domain := (if domain in byDomain then byDomain[domain] else []) + [e.id]];
    }
    assert featured[..|featured|] == featured;
    seeded := AddSoles(p, featured, seeded, byDomain);
    forall k | k in seeded ensures exists e :: e in featured && e.id == seeded[k] {
      assert SeedFor(p, featured, k) == Some(seeded[k]);
      SeedIsFeatured(p, featured, k);
    }
  }

  method AddSoles(p: Page, featured: seq<Entry>, locked: Memo, byDomain: map<string, seq<string>>)
    returns (seeded: Memo)
    requires LocksAre(p, featured, locked) && DomainsAre(p, featured, byDomain)
    ensures IsSeed(p, featured, seeded)
  {
    var sole := map d | d in byDomain && |byDomain[d]| == 1 :: byDomain[d][0];
    seeded := map key: Key | key in locked.Keys + (set d | d in sole :: (d, None)) ::
      if key in locked then locked[key] else sole[key.0];
    forall key: Key ensures SeedFor(p, featured, key) == if key in seeded then Some(seeded[key]) else None {
      SeedOf(p, featured, locked, byDomain, sole, key);
    }
  }

  lemma SeedOf(
    p: Page, featured: seq<Entry>, locked: Memo, byDomain: map<string, seq<string>>, sole: map<string, string>,
    key: Key)
    requires LocksAre(p, featured, locked) && DomainsAre(p, featured, byDomain)
    requires sole == map d | d in byDomain && |byDomain[d]| == 1 :: byDomain[d][0]
    ensures SeedFor(p, featured, key) ==
              if key in locked then Some(locked[key])
              else if key.1.None? && key.0 in sole then Some(sole[key.0])
              else None
  {
    var (d, id) := key;
    assert BusesOf(p, featured, d) == if d in byDomain then byDomain[d] else [];
    if id.Some? {
      assert LastLocked(p, featured, d, id.value)
        == if (d, Some(id.value)) in locked then Some(locked[(d, Some(id.value))]) else None;
    }
  }

  // ----- What the seeds mean -----

  /** A featured bus of the domain, or of one of the domain's platforms. */
  ghost predicate FeaturesBus(p: Page, e: Entry, domain: string) {
    && '.' !in domain && (e.component == domain || domain + "." <= e.component)
    && (domain in p.index ==> p.index[domain].category in {"bus", "one_wire", "canbus"})
  }

  lemma {:induction false} PartitionIff(s: string, domain: string)
    ensures Partition(s) == domain <==> '.' !in domain && (s == domain || domain + "." <= s)
  {
    if s != "" && s[0] != '.' {
      if domain == "" {
      } else if domain[0] == s[0] {
        PartitionIff(s[1..], domain[1..]);
        assert domain == [domain[0]] + domain[1..] && s == [s[0]] + s[1..];
        assert domain + "." == [domain[0]] + (domain[1..] + ".");
        if domain[1..] + "." <= s[1..] {
          assert s[..|domain| + 1] == [s[0]] + s[1..][..|domain|];
        }
      }
    }
  }

  lemma BusIff(p: Page, e: Entry, domain: string)
    ensures IsBusOf(p, e, domain) <==> FeaturesBus(p, e, domain)
  {
    PartitionIff(e.component, domain);
  }

  ghost predicate LocksBus(p: Page, e: Entry, domain: string, id: string) {
    FeaturesBus(p, e, domain) && "id" in e.fields && e.fields["id"] == id
  }

  /** An id is seeded with the last featured bus of the domain that is locked on it, if there is one. */
  lemma {:induction false} SeededById(p: Page, featured: seq<Entry>, domain: string, id: string)
    ensures var seed := LastLocked(p, featured, domain, id);
            && (seed.None? <==> forall m | 0 <= m < |featured| :: !LocksBus(p, featured[m], domain, id))
            && (seed.Some? ==> exists n :: 0 <= n < |featured| && LocksBus(p, featured[n], domain, id)
                                 && featured[n].id == seed.value
                                 && forall m | n < m < |featured| :: !LocksBus(p, featured[m], domain, id))
  {
    if featured != [] {
      BusIff(p, featured[|featured| - 1], domain);
      SeededById(p, featured[..|featured| - 1], domain, id);
    }
  }

  /** Without an id, the seed is the domain's only featured bus. */
  lemma SeededAlone(p: Page, featured: seq<Entry>, domain: string)
    ensures var seed := SeedFor(p, featured, (domain, None));
            && (seed.Some? <==> exists n :: OnlyBus(p, featured, domain, n))
            && (forall n | OnlyBus(p, featured, domain, n) :: seed == Some(featured[n].id))
  {
    forall n | OnlyBus(p, featured, domain, n) ensures BusesOf(p, featured, domain) == [featured[n].id] {
      OnlyBusIs(p, featured, domain, n);
    }
    if |BusesOf(p, featured, domain)| == 1 {
      var n := FindOnlyBus(p, featured, domain);
    }
  }

  ghost predicate OnlyBus(p: Page, featured: seq<Entry>, domain: string, n: int) {
    0 <= n < |featured| && forall m | 0 <= m < |featured| :: FeaturesBus(p, featured[m], domain) <==> m == n
  }

  lemma {:induction false} NoBuses(p: Page, featured: seq<Entry>, domain: string)
    ensures BusesOf(p, featured, domain) == [] <==>
              forall m | 0 <= m < |featured| :: !FeaturesBus(p, featured[m], domain)
  {
    if featured != [] {
      BusIff(p, featured[|featured| - 1], domain);
      NoBuses(p, featured[..|featured| - 1], domain);
    }
  }

  lemma {:induction false} OnlyBusIs(p: Page, featured: seq<Entry>, domain: string, n: int)
    requires OnlyBus(p, featured, domain, n)
    ensures BusesOf(p, featured, domain) == [featured[n].id]
  {
    var front, last := featured[..|featured| - 1], featured[|featured| - 1];
    BusIff(p, last, domain);
    if n == |front| {
      NoBuses(p, front, domain);
    } else {
      OnlyBusIs(p, front, domain, n);
    }
  }

  lemma {:induction false} FindOnlyBus(p: Page, featured: seq<Entry>, domain: string) returns (n: int)
    requires |BusesOf(p, featured, domain)| == 1
    ensures OnlyBus(p, featured, domain, n)
  {
    var front, last := featured[..|featured| - 1], featured[|featured| - 1];
    BusIff(p, last, domain);
    if FeaturesBus(p, last, domain) {
      NoBuses(p, front, domain);
      n := |front|;
    } else {
      n := FindOnlyBus(p, front, domain);
    }
  }

  lemma {:induction false} SeedIsFeatured(p: Page, featured: seq<Entry>, key: Key)
    requires SeedFor(p, featured, key).Some?
    ensures exists e :: e in featured && e.id == SeedFor(p, featured, key).value
  {
    match key.1
    case Some(id) => LockedIsFeatured(p, featured, key.0, id);
    case None => BusIsFeatured(p, featured, key.0, BusesOf(p, featured, key.0)[0]);
  }

  lemma {:induction false} LockedIsFeatured(p: Page, featured: seq<Entry>, domain: string, id: string)
    requires LastLocked(p, featured, domain, id).Some?
    ensures exists e :: e in featured && e.id == LastLocked(p, featured, domain, id).value
  {
    var e := featured[|featured| - 1];
    if !(IsBusOf(p, e, domain) && "id" in e.fields && e.fields["id"] == id) {
      LockedIsFeatured(p, featured[..|featured| - 1], domain, id);
    }
  }

  lemma {:induction false} BusIsFeatured(p: Page, featured: seq<Entry>, domain: string, b: string)
    requires b in BusesOf(p, featured, domain)
    ensures exists e :: e in featured && e.id == b
  {
    var e := featured[|featured| - 1];
    if b in BusesOf(p, featured[..|featured| - 1], domain) {
      BusIsFeatured(p, featured[..|featured| - 1], domain, b);
    } else {
      assert e.id == b;
    }
  }
}
