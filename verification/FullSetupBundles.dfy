/**
 One "(full setup)" bundle per imported board (script/sync_boards.py).
 */
module FullSetupBundles {
  import opened Lists

  const ALL_RECOMMENDED := "all_recommended"

  datatype Usage = Usage(gpio: int, allowsReuse: bool)

  /** A featured component: its id and the board GPIOs its locked pins use. */
  datatype Component = Component(id: string, usages: seq<Usage>)

  datatype Bundle = Bundle(id: string, name: string, members: seq<string>)

  function Usages(components: seq<Component>): seq<Usage> {
    if components == [] then [] else Usages(components[..|components| - 1]) + components[|components| - 1].usages
  }

  /** The reuse permissions recorded for one GPIO, in order. */
  function PermissionsOf(usages: seq<Usage>, gpio: int): seq<bool> {
    if usages == [] then []
    else
      var rest, last := PermissionsOf(usages[..|usages| - 1], gpio), usages[|usages| - 1];
      if last.gpio == gpio then rest + [last.allowsReuse] else rest
  }

  /** Two usages of one GPIO, at least one of which does not allow the other. */
  ghost predicate Conflicts(usages: seq<Usage>) {
    exists i, j :: 0 <= i < |usages| && 0 <= j < |usages| && i != j && usages[i].gpio == usages[j].gpio
      && !usages[i].allowsReuse
  }

  /** The recorded permissions are a renumbering of the usages of that GPIO. */
  lemma {:induction false} PermissionsTrace(usages: seq<Usage>, gpio: int) returns (at: seq<nat>)
    ensures |at| == |PermissionsOf(usages, gpio)|
    ensures forall k :: 0 <= k < |at| ==>
            at[k] < |usages| && usages[at[k]] == Usage(gpio, PermissionsOf(usages, gpio)[k])
    ensures forall k, m :: 0 <= k < m < |at| ==> at[k] < at[m]
    ensures forall i :: 0 <= i < |usages| && usages[i].gpio == gpio ==> i in at
  {
    if usages == [] {
      at := [];
    } else {
      var front := usages[..|usages| - 1];
      at := PermissionsTrace(front, gpio);
      if usages[|usages| - 1].gpio == gpio {
        at := at + [|usages| - 1];
      }
    }
  }

  predicate Refused(uses: seq<bool>) {
    |uses| > 1 && exists k :: 0 <= k < |uses| && !uses[k]
  }

  lemma ConflictIsRefusal(usages: seq<Usage>)
    ensures Conflicts(usages) <==> exists gpio :: Refused(PermissionsOf(usages, gpio))
  {
    if Conflicts(usages) {
      var i, j :| 0 <= i < |usages| && 0 <= j < |usages| && i != j && usages[i].gpio == usages[j].gpio
        && !usages[i].allowsReuse;
      var at := PermissionsTrace(usages, usages[i].gpio);
      var k :| 0 <= k < |at| && at[k] == i;
      var m :| 0 <= m < |at| && at[m] == j;
      assert Refused(PermissionsOf(usages, usages[i].gpio));
    }
    if gpio :| Refused(PermissionsOf(usages, gpio)) {
      var at := PermissionsTrace(usages, gpio);
      var k :| 0 <= k < |at| && !PermissionsOf(usages, gpio)[k];
      var m := if k == 0 then 1 else 0;
      assert usages[at[k]].gpio == usages[at[m]].gpio;
    }
  }

  method HasPinConflict(components: seq<Component>) returns (conflict: bool)
    ensures conflict <==> Conflicts(Usages(components))
  {
    var usages: map<int, seq<bool>> := map[];
    for i := 0 to |components|
      invariant forall gpio ::
                  PermissionsOf(Usages(components[..i]), gpio) == if gpio in usages then usages[gpio] else []
    {
      var c := components[i];
      ghost var done := Usages(components[..i]);
      assert done + c.usages[..0] == done;
      for k := 0 to |c.usages|
        invariant forall gpio ::
                    PermissionsOf(done + c.usages[..k], gpio) == if gpio in usages then usages[gpio] else []
      {
        assert (done + c.usages[..k + 1])[..|done| + k] == done + c.usages[..k];
        var u := c.usages[k];
        usages := usages[u.gpio := (if u.gpio in usages then usages[u.gpio] else []) + [u.allowsReuse]];
      }
      assert components[..i + 1][..i] == components[..i];
      assert done + c.usages[..|c.usages|] == Usages(components[..i + 1]);
    }
    assert components[..|components|] == components;
    ConflictIsRefusal(Usages(components));
    conflict := exists gpio | gpio in usages :: Refused(usages[gpio]);
    assert forall gpio :: gpio in usages ==> PermissionsOf(Usages(components), gpio) == usages[gpio];
  }

  // ----- Consolidation -----

  lemma DedupPrefix(a: seq<string>, b: seq<string>)
    ensures Dedup(a) <= Dedup(a + b)
  {
    AppendNewSplits([], a, b);
  }

  function Ids(components: seq<Component>): (ids: seq<string>)
    ensures |ids| == |components| && forall i :: 0 <= i < |ids| ==> ids[i] == components[i].id
  {
    seq(|components|, i requires 0 <= i < |components| => components[i].id)
  }

  /** The members of the bundles, in order, that are featured. */
  function FeaturedMembers(bundles: seq<Bundle>, featured: seq<string>): seq<string> {
    if bundles == [] then []
    else FeaturedMembers(bundles[..|bundles| - 1], featured) + Keep(bundles[|bundles| - 1].members, featured)
  }

  function Keep(members: seq<string>, featured: seq<string>): (kept: seq<string>)
    ensures forall m :: m in kept <==> m in members && m in featured
    ensures |kept| <= |members|
  {
    if members == [] then []
    else
      var rest := Keep(members[..|members| - 1], featured);
      assert members == members[..|members| - 1] + [members[|members| - 1]];
      if members[|members| - 1] in featured then rest + [members[|members| - 1]] else rest
  }

  /** The members are judged one by one, and stay in order. */
  lemma {:induction false} KeepSplits(a: seq<string>, b: seq<string>, featured: seq<string>)
    ensures Keep(a + b, featured) == Keep(a, featured) + Keep(b, featured)
  {
    if b == [] {
      assert a + b == a;
    } else {
      assert (a + b)[..|a + b| - 1] == a + b[..|b| - 1];
      KeepSplits(a, b[..|b| - 1], featured);
    }
  }

  lemma {:induction false} FeaturedMembersAreFeatured(bundles: seq<Bundle>, featured: seq<string>)
    ensures forall m | m in FeaturedMembers(bundles, featured) :: m in featured
  {
    if bundles != [] {
      FeaturedMembersAreFeatured(bundles[..|bundles| - 1], featured);
    }
  }

  ghost predicate Covers(b: Bundle, featured: seq<string>) {
    forall f | f in featured :: f in b.members
  }

  class Board {
    const id: string
    const name: string
    const fullConfig: bool
    const components: seq<Component>
    var bundles: seq<Bundle>

    constructor (id: string, name: string, fullConfig: bool, components: seq<Component>, bundles: seq<Bundle>)
      ensures this.id == id && this.name == name && this.fullConfig == fullConfig
      ensures this.components == components && this.bundles == bundles
    {
      this.id, this.name, this.fullConfig := id, name, fullConfig;
      this.components, this.bundles := components, bundles;
    }

    /** The boards the pass leaves alone: hand-curated, a single component, or one that cannot be set up at once. */
    ghost predicate LeftAlone() {
      !fullConfig || |components| < 2 || Conflicts(Usages(components))
    }

    method Consolidate()
      modifies this
      ensures LeftAlone() ==> bundles == old(bundles)
      ensures !LeftAlone() ==> |bundles| == 1 && Covers(bundles[0], Ids(components))
      // a covering bundle, the first one, is kept as it is
      ensures !LeftAlone() && (exists b :: b in old(bundles) && Covers(b, Ids(components))) ==>
                exists k :: 0 <= k < |old(bundles)| && bundles[0] == old(bundles)[k]
                  && forall j :: 0 <= j < k ==> !Covers(old(bundles)[j], Ids(components))
      // otherwise the new bundle holds exactly the featured ids, once each: the old members first, in their order,
      // then the components in theirs
      ensures !LeftAlone() && !(exists b :: b in old(bundles) && Covers(b, Ids(components))) ==>
                && bundles[0].id == ALL_RECOMMENDED
                && bundles[0].name == name + " (full setup)"
                && Distinct(bundles[0].members)
                && (forall m :: m in bundles[0].members <==> m in Ids(components))
                && Dedup(FeaturedMembers(old(bundles), Ids(components))) <= bundles[0].members
                && bundles[0].members == Dedup(FeaturedMembers(old(bundles), Ids(components)) + Ids(components))
    {
      if !fullConfig {
        return;
      }
      var featuredIds := Ids(components);
      if |featuredIds| < 2 {
        return;
      }
      var conflict := HasPinConflict(components);
      if conflict {
        return;
      }
      for k := 0 to |bundles|
        invariant bundles == old(bundles)
        invariant forall j :: 0 <= j < k ==> !Covers(bundles[j], featuredIds)
      {
        if forall f | f in featuredIds :: f in bundles[k].members {
          bundles := [bundles[k]];
          return;
        }
      }
      var existing: seq<string> := [];
      for k := 0 to |bundles|
        invariant existing == FeaturedMembers(bundles[..k], featuredIds)
      {
        assert bundles[..k + 1][..k] == bundles[..k];
        existing := existing + Keep(bundles[k].members, featuredIds);
      }
      assert bundles[..|bundles|] == bundles;
      FeaturedMembersAreFeatured(bundles, featuredIds);
      AppendNewDistinct([], existing + featuredIds);
      DedupPrefix(existing, featuredIds);
      bundles := [Bundle(ALL_RECOMMENDED, name + " (full setup)", Dedup(existing + featuredIds))];
    }
  }
}
