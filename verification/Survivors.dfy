/**
 Which extracted candidates land in a manifest (script/sync_esphome_devices.py).

 A candidate with a preset of its own survives, and pulls in whatever its
 id-references name.  References are by upstream id, survival is by local id.
 */
module Survivors {
  import opened LocalIds
  import opened Optional
  import opened RequiresClosure

  /**
   One extracted item: its upstream `id:`, its assigned local id, whether its component
   takes a name, the keys of its extracted fields, the item's string-valued
   fields in order, and the keys its component types as ids.
   */
  datatype Candidate = Candidate(upstream: Option<string>, local: string, takesName: bool, fields: set<string>,
                                 item: seq<(string, string)>, idKeys: set<string>)

  const SKIPPED_FIELDS := {"platform", "id", "name"}

  type IdMap = map<string, string>

  // ----- Local ids -----

  /** Where an item stands on the page, and its own id made fit for a manifest, empty if it has none that can be. */
  datatype Source = Source(domain: string, platform: string, clean: string)

  /** How many of the first `n` items are of a component. */
  function Occurrences(ss: seq<Source>, n: nat, domain: string, platform: string): nat
    requires n <= |ss|
  {
    if n == 0 then 0
    else
      Occurrences(ss, n - 1, domain, platform)
      + if ss[n - 1].domain == domain && ss[n - 1].platform == platform then 1 else 0
  }

  function Fallback(domain: string, platform: string, n: nat): string {
    Numbered(domain + "_" + platform, n)
  }

  /** The number item `i` falls back to: its place among the items of its component. */
  function FallbackAt(ss: seq<Source>, i: nat): string
    requires i < |ss|
  {
    Fallback(ss[i].domain, ss[i].platform, Occurrences(ss, i + 1, ss[i].domain, ss[i].platform))
  }

  predicate OwnIdFits(s: Source, used: seq<string>) {
    s.clean != "" && s.clean != s.domain && s.clean !in used
  }

  function NextId(ss: seq<Source>, i: nat, used: seq<string>): string
    requires i < |ss|
  {
    if OwnIdFits(ss[i], used) then ss[i].clean else FallbackAt(ss, i)
  }

  /** In turn, each item takes its own id if that fits, else its number, which nobody checks against the used ids. */
  function AssignedIds(ss: seq<Source>, n: nat): (ls: seq<string>)
    requires n <= |ss|
    ensures |ls| == n
  {
    if n == 0 then []
    else
      var used := AssignedIds(ss, n - 1);
      used + [NextId(ss, n - 1, used)]
  }

  function Count(counters: map<(string, string), nat>, domain: string, platform: string): nat {
    if (domain, platform) in counters then counters[(domain, platform)] else 0
  }

  ghost predicate Counts(counters: map<(string, string), nat>, ss: seq<Source>, n: nat)
    requires n <= |ss|
  {
    forall d, p :: Count(counters, d, p) == Occurrences(ss, n, d, p)
  }

  method AssignLocalIds(ss: seq<Source>) returns (ls: seq<string>)
    ensures ls == AssignedIds(ss, |ss|)
  {
    ls := [];
    var used: set<string> := {};
    var counters: map<(string, string), nat> := map[];
    for i := 0 to |ss|
      invariant ls == AssignedIds(ss, i)
      invariant used == set l | l in ls
      invariant Counts(counters, ss, i)
    {
      var Source(domain, platform, _) := ss[i];
      var n := Count(counters, domain, platform) + 1;
      CountsStep(counters, ss, i);
      counters := counters[(domain, platform) := n];
      var id := AssignLocalId(ss[i], used, n, ls);
      used := used + {id};
      ls := ls + [id];
    }
  }

  method AssignLocalId(item: Source, used: set<string>, counter: nat, ghost ls: seq<string>) returns (id: string)
    requires used == set l | l in ls
    ensures id == if OwnIdFits(item, ls) then item.clean else Fallback(item.domain, item.platform, counter)
  {
    if item.clean != "" && item.clean != item.domain && item.clean !in used {
      return item.clean;
    }
    return Fallback(item.domain, item.platform, counter);
  }

  lemma CountsStep(counters: map<(string, string), nat>, ss: seq<Source>, n: nat)
    requires n < |ss| && Counts(counters, ss, n)
    ensures var Source(d, p, _) := ss[n];
            Counts(counters[(d, p) := Count(counters, d, p) + 1], ss, n + 1)
  {
    var Source(domain, platform, _) := ss[n];
    var more := counters[(domain, platform) := Count(counters, domain, platform) + 1];
    forall d, p ensures Count(more, d, p) == Occurrences(ss, n + 1, d, p) {
      assert (d, p) == (domain, platform) <==> d == domain && p == platform;
      assert Count(counters, d, p) == Occurrences(ss, n, d, p);
    }
  }

  lemma {:induction false} LocalIdAt(ss: seq<Source>, i: nat, n: nat)
    requires i < n <= |ss|
    ensures AssignedIds(ss, n)[i] == NextId(ss, i, AssignedIds(ss, i))
  {
    if i < n - 1 {
      LocalIdAt(ss, i, n - 1);
    }
  }

  /** An item has its own id unless that is its domain's name or an earlier item's id, and else its number. */
  lemma OwnIdUnlessTaken(ss: seq<Source>, i: nat)
    requires i < |ss|
    ensures var ls, s := AssignedIds(ss, |ss|), ss[i];
            ls[i] == if s.clean !in {"", s.domain} && forall j | 0 <= j < i :: ls[j] != s.clean then s.clean
                     else Numbered(s.domain + "_" + s.platform, Occurrences(ss, i + 1, s.domain, s.platform))
  {
    var ls, front := AssignedIds(ss, |ss|), AssignedIds(ss, i);
    LocalIdAt(ss, i, |ss|);
    EarlierStay(ss, i);
    assert (forall j | 0 <= j < i :: ls[j] != ss[i].clean) <==> ss[i].clean !in front;
  }

  lemma EarlierStay(ss: seq<Source>, i: nat)
    requires i <= |ss|
    ensures AssignedIds(ss, |ss|)[..i] == AssignedIds(ss, i)
  {
    forall j | 0 <= j < i ensures AssignedIds(ss, |ss|)[j] == AssignedIds(ss, i)[j] {
      LocalIdAt(ss, j, |ss|);
      LocalIdAt(ss, j, i);
    }
  }

  lemma {:induction false} OccurrencesRise(ss: seq<Source>, i: nat, j: nat, domain: string, platform: string)
    requires i <= j <= |ss|
    ensures Occurrences(ss, i, domain, platform) <= Occurrences(ss, j, domain, platform)
    decreases j
  {
    if i < j {
      OccurrencesRise(ss, i, j - 1, domain, platform);
    }
  }

  /** Within one component no two items fall back to one number. */
  lemma FallbacksDiffer(ss: seq<Source>, i: nat, j: nat)
    requires i < j < |ss| && ss[i].domain == ss[j].domain && ss[i].platform == ss[j].platform
    ensures FallbackAt(ss, i) != FallbackAt(ss, j)
  {
    var Source(d, p, _) := ss[j];
    OccurrencesRise(ss, i + 1, j, d, p);
    if FallbackAt(ss, i) == FallbackAt(ss, j) {
      NumberedInjective(d + "_" + p, Occurrences(ss, i + 1, d, p), Occurrences(ss, j + 1, d, p));
    }
  }

  /**
   Two items share a local id if and only if the later one falls back to a number that
   reads like the earlier one's id; within one component the earlier one then has that id of its own.
   */
  lemma LocalsCollideIff(ss: seq<Source>, i: nat, j: nat)
    requires i < j < |ss|
    ensures var ls := AssignedIds(ss, |ss|);
            && (ls[i] == ls[j] <==> !OwnIdFits(ss[j], AssignedIds(ss, j)) && ls[i] == FallbackAt(ss, j))
            && (ls[i] == ls[j] && ss[i].domain == ss[j].domain && ss[i].platform == ss[j].platform ==>
                  OwnIdFits(ss[i], AssignedIds(ss, i)))
  {
    LocalIdAt(ss, i, |ss|);
    LocalIdAt(ss, j, |ss|);
    LocalIdAt(ss, i, j);
    assert AssignedIds(ss, j)[i] in AssignedIds(ss, j);
    if ss[i].domain == ss[j].domain && ss[i].platform == ss[j].platform {
      FallbacksDiffer(ss, i, j);
    }
  }

  // ----- References -----

  predicate IsRef(c: Candidate, f: (string, string)) {
    f.0 !in SKIPPED_FIELDS && f.0 in c.idKeys
  }

  /** The local ids a candidate's references resolve to, in item order. */
  function Targets(c: Candidate, item: seq<(string, string)>, ids: IdMap): (ts: seq<string>)
    ensures forall t :: t in ts <==> exists f :: f in item && IsRef(c, f) && f.1 in ids && ids[f.1] == t
  {
    if item == [] then []
    else if IsRef(c, item[0]) && item[0].1 in ids then
      assert forall f :: f in item <==> f == item[0] || f in item[1..];
      [ids[item[0].1]] + Targets(c, item[1..], ids)
    else Targets(c, item[1..], ids)
  }

  function TargetsOf(c: Candidate, ids: IdMap): seq<string> {
    Targets(c, c.item, ids)
  }

  /** Just the id-typed fields of the item count, and of those what the map resolves. */
  lemma TargetsAre(c: Candidate, ids: IdMap, t: string)
    ensures t in TargetsOf(c, ids) <==>
              exists f :: f in c.item && f.0 in c.idKeys && f.0 !in {"platform", "id", "name"}
                && f.1 in ids && ids[f.1] == t
  {
    if t in TargetsOf(c, ids) {
      var f :| f in c.item && IsRef(c, f) && f.1 in ids && ids[f.1] == t;
    }
    if f :| f in c.item && f.0 in c.idKeys && f.0 !in {"platform", "id", "name"} && f.1 in ids && ids[f.1] == t {
      assert IsRef(c, f);
    }
  }

  // ----- Id maps -----

  predicate Claims(c: Candidate, u: string) {
    u != "" && c.upstream == Some(u)
  }

  /** The first candidate to carry an upstream id owns it. */
  function Owner(cs: seq<Candidate>, u: string): Option<string> {
    if cs == [] then None
    else if Claims(cs[0], u) then Some(cs[0].local)
    else Owner(cs[1..], u)
  }

  ghost predicate IsIdMap(ids: IdMap, cs: seq<Candidate>) {
    forall u :: if u in ids then Owner(cs, u) == Some(ids[u]) else Owner(cs, u) == None
  }

  lemma {:induction false} OwnerAppend(cs: seq<Candidate>, c: Candidate, u: string)
    ensures Owner(cs + [c], u)
            == if Owner(cs, u).Some? then Owner(cs, u) else if Claims(c, u) then Some(c.local) else None
  {
    if cs != [] {
      assert (cs + [c])[1..] == cs[1..] + [c];
      OwnerAppend(cs[1..], c, u);
    }
  }

  lemma {:induction false} OwnerIsCandidate(cs: seq<Candidate>, u: string)
    requires Owner(cs, u).Some?
    ensures exists c :: c in cs && Claims(c, u) && c.local == Owner(cs, u).value
  {
    if !Claims(cs[0], u) {
      OwnerIsCandidate(cs[1..], u);
    }
  }

  method BuildIdMap(cs: seq<Candidate>) returns (ids: IdMap)
    ensures IsIdMap(ids, cs)
    ensures forall u | u in ids :: exists c :: c in cs && c.local == ids[u]
  {
    ids := map[];
    for i := 0 to |cs|
      invariant IsIdMap(ids, cs[..i])
    {
      assert cs[..i + 1] == cs[..i] + [cs[i]];
      forall u
        ensures Owner(cs[..i + 1], u)
                == if Owner(cs[..i], u).Some? then Owner(cs[..i], u)
                   else if Claims(cs[i], u) then Some(cs[i].local) else None
      {
        OwnerAppend(cs[..i], cs[i], u);
      }
      if cs[i].upstream.Some? && cs[i].upstream.value != "" && cs[i].upstream.value !in ids {
        ids := ids[cs[i].upstream.value := cs[i].local];
      }
    }
    assert cs[..|cs|] == cs;
    forall u | u in ids ensures exists c :: c in cs && c.local == ids[u] {
      OwnerIsCandidate(cs, u);
    }
  }

  /** All id maps of the same candidates are the same map. */
  lemma IdMapUnique(a: IdMap, b: IdMap, cs: seq<Candidate>)
    requires IsIdMap(a, cs) && IsIdMap(b, cs)
    ensures a == b
  {
    forall u ensures (u in a) == (u in b) && (u in a ==> a[u] == b[u]) {
      assert (if u in a then Owner(cs, u) == Some(a[u]) else Owner(cs, u) == None);
      assert (if u in b then Owner(cs, u) == Some(b[u]) else Owner(cs, u) == None);
    }
  }

  // ----- Useful presets -----

  /** The rendered entry has a field beyond the injected `id` and `name`. */
  predicate Useful(c: Candidate, ids: IdMap) {
    var injected := if c.takesName then {"id", "name"} else {"id"};
    var resolved := set f | f in c.item && IsRef(c, f) && f.1 in ids :: f.0;
    exists k :: k in c.fields + resolved + injected && k !in injected
  }

  /** A consumer whose only content is one resolved reference is worth keeping. */
  lemma UsefulIffPresetOrReference(c: Candidate, ids: IdMap)
    ensures Useful(c, ids) <==>
              (exists k :: k in c.fields && k != "id" && (c.takesName ==> k != "name")) || TargetsOf(c, ids) != []
  {
    if Useful(c, ids) {
      var injected := if c.takesName then {"id", "name"} else {"id"};
      var resolved := set f | f in c.item && IsRef(c, f) && f.1 in ids :: f.0;
      var k :| k in c.fields + resolved + injected && k !in injected;
      if k in resolved {
        var f :| f in c.item && IsRef(c, f) && f.1 in ids && f.0 == k;
        assert ids[f.1] in TargetsOf(c, ids);
      }
    }
    if TargetsOf(c, ids) != [] {
      assert TargetsOf(c, ids)[0] in TargetsOf(c, ids);
      var f :| f in c.item && IsRef(c, f) && f.1 in ids && ids[f.1] == TargetsOf(c, ids)[0];
      assert f.0 in (set f | f in c.item && IsRef(c, f) && f.1 in ids :: f.0);
    }
  }

  // ----- The selection -----

  function Locals(cs: seq<Candidate>): set<string> {
    set c | c in cs :: c.local
  }

  /** Where two candidates share a local id, the last one speaks for it. */
  function ByLocal(cs: seq<Candidate>): (last: map<string, Candidate>)
    ensures last.Keys == Locals(cs)
    ensures forall l | l in last :: last[l] in cs && last[l].local == l
  {
    if cs == [] then map[]
    else
      var c := cs[|cs| - 1];
      assert cs == cs[..|cs| - 1] + [c];
      ByLocal(cs[..|cs| - 1])[c.local := c]
  }

  lemma {:induction false} LastSpeaks(cs: seq<Candidate>, i: nat)
    requires i < |cs| && forall j | i < j < |cs| :: cs[j].local != cs[i].local
    ensures ByLocal(cs)[cs[i].local] == cs[i]
  {
    if i < |cs| - 1 {
      LastSpeaks(cs[..|cs| - 1], i);
    }
  }

  function RefGraph(cs: seq<Candidate>, ids: IdMap): Graph {
    map l | l in Locals(cs) :: TargetsOf(ByLocal(cs)[l], ids)
  }

  function Seeds(cs: seq<Candidate>, ids: IdMap): set<string> {
    set c | c in cs && Useful(c, ids) :: c.local
  }

  /** The nodes some seed leads to. */
  ghost function Reached(g: Graph, seeds: set<string>): set<string> {
    set l | l in g.Keys && exists s :: s in seeds && Reaches(g, s, l)
  }

  /** The local ids some useful candidate leads to. */
  ghost function Surviving(cs: seq<Candidate>, ids: IdMap): set<string> {
    Reached(RefGraph(cs, ids), Seeds(cs, ids))
  }

  function Kept(cs: seq<Candidate>, locals: set<string>): (kept: seq<Candidate>)
    ensures forall c :: c in kept <==> c in cs && c.local in locals
    ensures |kept| <= |cs|
  {
    if cs == [] then []
    else (if cs[0].local in locals then [cs[0]] else []) + Kept(cs[1..], locals)
  }

  /** The candidates are judged one by one, and stay in order. */
  lemma {:induction false} KeptSplits(a: seq<Candidate>, b: seq<Candidate>, locals: set<string>)
    ensures Kept(a + b, locals) == Kept(a, locals) + Kept(b, locals)
  {
    if a == [] {
      assert a + b == b;
    } else {
      assert (a + b)[1..] == a[1..] + b;
      KeptSplits(a[1..], b, locals);
    }
  }

  ghost predicate Closed(g: Graph, s: set<string>) {
    forall l, t | l in s && t in Deps(g, l) :: t in s
  }

  lemma {:induction false} ClosedHoldsReachable(g: Graph, s: set<string>, p: seq<string>, from: string, to: string)
    requires Closed(g, s) && from in s && Joins(g, p, from, to)
    ensures to in s
    decreases |p|
  {
    if |p| > 1 {
      assert p[1] in Deps(g, p[0]);
      assert Joins(g, p[1..], p[1], to);
      ClosedHoldsReachable(g, s, p[1..], p[1], to);
    }
  }

  /** References stay inside the graph. */
  ghost predicate Inside(g: Graph) {
    forall l, t | l in g.Keys && t in g[l] :: t in g.Keys
  }

  /** What the seeds reach is the least set that holds them and is closed under references. */
  lemma ReachedIsLeast(g: Graph, seeds: set<string>, other: set<string>)
    requires Inside(g) && seeds <= g.Keys
    ensures seeds <= Reached(g, seeds) && Closed(g, Reached(g, seeds))
    ensures seeds <= other && Closed(g, other) ==> Reached(g, seeds) <= other
  {
    forall s | s in seeds ensures s in Reached(g, seeds) {
      ReachesSelf(g, s);
    }
    forall l, t | l in Reached(g, seeds) && t in Deps(g, l) ensures t in Reached(g, seeds) {
      var s :| s in seeds && Reaches(g, s, l);
      ReachesStep(g, s, l, t);
    }
    if seeds <= other && Closed(g, other) {
      forall l | l in Reached(g, seeds) ensures l in other {
        var s :| s in seeds && Reaches(g, s, l);
        var p :| Joins(g, p, s, l);
        ClosedHoldsReachable(g, other, p, s, l);
      }
    }
  }

  lemma RefGraphInside(cs: seq<Candidate>, ids: IdMap)
    requires IsIdMap(ids, cs)
    ensures Inside(RefGraph(cs, ids)) && Seeds(cs, ids) <= RefGraph(cs, ids).Keys
  {
    var g := RefGraph(cs, ids);
    forall l, t | l in g.Keys && t in g[l] ensures t in g.Keys {
      var f :| f in ByLocal(cs)[l].item && f.1 in ids && ids[f.1] == t;
      assert Owner(cs, f.1) == Some(t);
      OwnerIsCandidate(cs, f.1);
    }
  }

  /** The survivors are the least set with every useful candidate that is closed under references. */
  lemma SurvivorsAreLeast(cs: seq<Candidate>, ids: IdMap, other: set<string>)
    requires IsIdMap(ids, cs)
    ensures Seeds(cs, ids) <= Surviving(cs, ids) && Closed(RefGraph(cs, ids), Surviving(cs, ids))
    ensures Seeds(cs, ids) <= other && Closed(RefGraph(cs, ids), other) ==> Surviving(cs, ids) <= other
  {
    RefGraphInside(cs, ids);
    ReachedIsLeast(RefGraph(cs, ids), Seeds(cs, ids), other);
  }

  method SelectSurvivors(cs: seq<Candidate>, ghost ids: IdMap) returns (kept: seq<Candidate>)
    requires IsIdMap(ids, cs)
    ensures kept == Kept(cs, Surviving(cs, ids))
  {
    var full := BuildIdMap(cs);
    IdMapUnique(full, ids, cs);
    var survivors := CollectUseful(cs, full);
    RefGraphInside(cs, ids);
    survivors := PullInAll(full, ByLocal(cs), RefGraph(cs, ids), survivors);
    kept := Kept(cs, survivors);
  }

  /** `g` holds the resolved references of each candidate, by local id. */
  ghost predicate Reads(g: Graph, byLocal: map<string, Candidate>, ids: IdMap) {
    g.Keys == byLocal.Keys && forall l | l in g.Keys :: g[l] == TargetsOf(byLocal[l], ids)
  }

  method PullInAll(ids: IdMap, byLocal: map<string, Candidate>, ghost g: Graph, seeds: set<string>)
    returns (survivors: set<string>)
    requires Reads(g, byLocal, ids) && Inside(g) && seeds <= g.Keys
    ensures survivors == Reached(g, seeds)
  {
    ReachedIsLeast(g, seeds, {});
    survivors := seeds;
    var added := true;
    while added
      invariant seeds <= survivors <= Reached(g, seeds)
      invariant !added ==> Closed(g, survivors)
      decreases Reached(g, seeds) - survivors, added
    {
      survivors, added := PullIn(ids, byLocal, g, Reached(g, seeds), survivors);
    }
    ReachedIsLeast(g, seeds, survivors);
  }

  /** One pass over a snapshot of the survivors, in any order. */
  method PullIn(
    ids: IdMap, byLocal: map<string, Candidate>, ghost g: Graph, ghost limit: set<string>, survivors: set<string>)
    returns (grown: set<string>, added: bool)
    requires Reads(g, byLocal, ids) && survivors <= limit <= g.Keys && Closed(g, limit)
    ensures survivors <= grown <= limit
    ensures added <==> grown != survivors
    ensures !added ==> Closed(g, grown)
  {
    grown, added := survivors, false;
    var todo := survivors;
    while todo != {}
      invariant todo <= survivors <= grown <= limit
      invariant added <==> grown != survivors
      invariant forall l, t | l in survivors && l !in todo && t in Deps(g, l) :: t in grown
    {
      var l: string :| l in todo;
      var targets := TargetsOf(byLocal[l], ids);
      assert targets == Deps(g, l);
      var more, grew := Add(grown, targets);
      grown, added, todo := more, added || grew, todo - {l};
    }
  }

  method Add(survivors: set<string>, targets: seq<string>) returns (grown: set<string>, added: bool)
    ensures grown == survivors + set t | t in targets
    ensures added <==> grown != survivors
  {
    grown, added := survivors, false;
    for i := 0 to |targets|
      invariant grown == survivors + set t | t in targets[..i]
      invariant added <==> grown != survivors
    {
      assert targets[..i + 1] == targets[..i] + [targets[i]];
      if targets[i] !in grown {
        grown := grown + {targets[i]};
        added := true;
      }
    }
    assert targets[..|targets|] == targets;
  }

  method CollectUseful(cs: seq<Candidate>, ids: IdMap) returns (seeds: set<string>)
    ensures seeds == Seeds(cs, ids)
  {
    seeds := {};
    for i := 0 to |cs|
      invariant seeds == Seeds(cs[..i], ids)
    {
      assert cs[..i + 1] == cs[..i] + [cs[i]];
      if Useful(cs[i], ids) {
        seeds := seeds + {cs[i].local};
      }
    }
    assert cs[..|cs|] == cs;
  }

  // ----- What a survivor may rely on -----

  /** Another candidate with the same local id comes later and speaks for it. */
  ghost predicate Shadowed(cs: seq<Candidate>, c: Candidate)
    requires c in cs
  {
    ByLocal(cs)[c.local] != c
  }

  ghost predicate ReferencesSurvive(c: Candidate, ids: IdMap, locals: set<string>) {
    forall t | t in TargetsOf(c, ids) :: t in locals
  }

  lemma SpeakerKeepsReferences(cs: seq<Candidate>, ids: IdMap, c: Candidate)
    requires IsIdMap(ids, cs) && c in cs && c.local in Surviving(cs, ids) && !Shadowed(cs, c)
    ensures ReferencesSurvive(c, ids, Surviving(cs, ids))
  {
    SurvivorsAreLeast(cs, ids, {});
    forall t | t in TargetsOf(c, ids) ensures t in Surviving(cs, ids) {
      assert t in Deps(RefGraph(cs, ids), c.local);
    }
  }

  /**
   Every survivor's resolved references survive if and only if each shadowed survivor's
   do, which nothing pulls in on its account: the candidates the seeds reach must hold them anyway.
   */
  lemma ReferencesSurviveIff(cs: seq<Candidate>, ids: IdMap)
    requires IsIdMap(ids, cs)
    ensures var locals := Surviving(cs, ids);
            (forall c | c in Kept(cs, locals) :: ReferencesSurvive(c, ids, locals))
            <==> (forall c | c in cs && Shadowed(cs, c) && c.local in locals :: ReferencesSurvive(c, ids, locals))
  {
    forall c | c in cs && c.local in Surviving(cs, ids) && !Shadowed(cs, c)
      ensures ReferencesSurvive(c, ids, Surviving(cs, ids))
    {
      SpeakerKeepsReferences(cs, ids, c);
    }
  }

  lemma {:induction false} OwnerAmongKept(cs: seq<Candidate>, locals: set<string>, u: string)
    ensures Owner(cs, u).None? ==> Owner(Kept(cs, locals), u).None?
    ensures Owner(cs, u).Some? && Owner(cs, u).value in locals ==> Owner(Kept(cs, locals), u) == Owner(cs, u)
  {
    if cs != [] {
      OwnerAmongKept(cs[1..], locals, u);
      if cs[0].local in locals {
        assert Kept(cs, locals)[1..] == Kept(cs[1..], locals);
      } else {
        assert Kept(cs, locals) == Kept(cs[1..], locals);
      }
    }
  }

  /**
   The second pass resolves a survivor's reference to the sibling the first pass saw if
   and only if that sibling survived, which it did unless the survivor is shadowed; and
   it resolves none that the first pass did not.
   */
  lemma SelectionKeepsReferences(
    cs: seq<Candidate>, ids: IdMap, locals: set<string>, after: IdMap, c: Candidate, f: (string, string))
    requires IsIdMap(ids, cs) && locals == Surviving(cs, ids) && IsIdMap(after, Kept(cs, locals))
    requires c in Kept(cs, locals) && f in c.item && IsRef(c, f)
    ensures f.1 !in ids ==> f.1 !in after
    ensures f.1 in ids ==> (f.1 in after && after[f.1] == ids[f.1] <==> ids[f.1] in locals)
    ensures f.1 in ids && !Shadowed(cs, c) ==> ids[f.1] in locals
  {
    var u := f.1;
    assert if u in ids then Owner(cs, u) == Some(ids[u]) else Owner(cs, u) == None;
    assert if u in after then Owner(Kept(cs, locals), u) == Some(after[u]) else Owner(Kept(cs, locals), u) == None;
    OwnerAmongKept(cs, locals, u);
    if u in after {
      OwnerIsCandidate(Kept(cs, locals), u);
    }
    if u in ids && !Shadowed(cs, c) {
      SpeakerKeepsReferences(cs, ids, c);
      assert ids[u] in TargetsOf(c, ids);
    }
  }

  // ----- A reference that is lost -----

  /** Local ids as assigned, and a field or a reference in each, without which an item is no candidate. */
  ghost predicate Receivable(ss: seq<Source>, cs: seq<Candidate>) {
    && |ss| == |cs|
    && (forall i :: 0 <= i < |cs| ==> cs[i].local == AssignedIds(ss, |ss|)[i])
    && (forall i :: 0 <= i < |cs| ==> cs[i].upstream == if ss[i].clean == "" then None else Some(ss[i].clean))
    && (forall c | c in cs :: c.fields != {} || exists f :: f in c.item && IsRef(c, f) && f.1 != "")
  }

  /** `red` is an output whose one reference does not resolve; the light before names it by id. */
  function Lights(id: string): seq<Candidate> {
    [Candidate(Some(id), id, false, {}, [("output", "red")], {"output"}),
     Candidate(None, id, false, {"gain"}, [], {}),
     Candidate(Some("red"), "red", false, {}, [("hub_id", "hub")], {"hub_id"})]
  }

  function LightSources(domain: string, platform: string, other: string): seq<Source> {
    [Source(domain, other, Fallback(domain, platform, 1)), Source(domain, platform, ""), Source("output", "pwm", "red")]
  }

  /** The first light's own id reads like the number the second falls back to. */
  lemma SecondLightFallsBack(domain: string, platform: string, other: string)
    requires other != platform
    ensures var id := Fallback(domain, platform, 1);
            AssignedIds(LightSources(domain, platform, other), 3) == [id, id, "red"] && id != "red" && id != "hub"
  {
    var ss, id := LightSources(domain, platform, other), Fallback(domain, platform, 1);
    assert id[|domain|] == '_' && |id| > |domain|;
    assert Occurrences(ss, 1, domain, platform) == 0 && Occurrences(ss, 2, domain, platform) == 1;
    assert AssignedIds(ss, 1) == [id];
    assert AssignedIds(ss, 2) == [id, id];
  }

  lemma LightsResolve(id: string)
    requires id != "" && id != "red" && id != "hub"
    ensures IsIdMap(map[id := id, "red" := "red"], Lights(id))
    ensures ByLocal(Lights(id))[id] == Lights(id)[1]
  {
    var cs := Lights(id);
    assert cs[1..] == [cs[1], cs[2]] && cs[1..][1..] == [cs[2]] && cs[1..][1..][1..] == [];
    assert cs[..2] == [cs[0], cs[1]] && cs[..2][..1] == [cs[0]];
    forall u
      ensures Owner(cs, u) == if u == id then Some(id) else if u == "red" then Some("red") else None
    {
      assert Owner(cs[1..], u) == Owner(cs[1..][1..], u);
      assert Owner([cs[2]], u) == if Claims(cs[2], u) then Some("red") else None;
    }
  }

  /**
   A survivor can lose what it refers to: the later light, which speaks for the shared
   id, has a field of its own and no reference, so nothing pulls `red` in.
   */
  lemma SharedLocalLosesReference(domain: string, platform: string, other: string)
    returns (cs: seq<Candidate>, ids: IdMap)
    requires other != platform
    ensures Receivable(LightSources(domain, platform, other), cs) && IsIdMap(ids, cs) && |cs| == 3
    ensures cs[0] in Kept(cs, Surviving(cs, ids))
    ensures "red" in TargetsOf(cs[0], ids) && "red" !in Surviving(cs, ids)
  {
    var id := Fallback(domain, platform, 1);
    SecondLightFallsBack(domain, platform, other);
    LightsResolve(id);
    cs, ids := Lights(id), map[id := id, "red" := "red"];
    LightsReceivable(domain, platform, other);
    LightRefersToRed(cs, ids);
    OnlyLightsSurvive(id);
    assert cs[0] in cs;
  }

  lemma LightsReceivable(domain: string, platform: string, other: string)
    requires other != platform
    ensures Receivable(LightSources(domain, platform, other), Lights(Fallback(domain, platform, 1)))
  {
    SecondLightFallsBack(domain, platform, other);
    var cs := Lights(Fallback(domain, platform, 1));
    assert "gain" in cs[1].fields;
    forall c | c in cs ensures c.fields != {} || exists f :: f in c.item && IsRef(c, f) && f.1 != "" {
      if c.item != [] {
        assert c.item[0] in c.item && IsRef(c, c.item[0]);
      }
    }
  }

  lemma LightRefersToRed(cs: seq<Candidate>, ids: IdMap)
    requires |cs| > 0 && cs[0].item == [("output", "red")] && cs[0].idKeys == {"output"}
    requires "red" in ids && ids["red"] == "red"
    ensures "red" in TargetsOf(cs[0], ids)
  {
    var f := cs[0].item[0];
    assert f in cs[0].item && IsRef(cs[0], f) && ids[f.1] == "red";
  }

  lemma OnlyLightsSurvive(id: string)
    requires id != "" && id != "red" && id != "hub"
    ensures Surviving(Lights(id), map[id := id, "red" := "red"]) == {id}
  {
    var cs, ids := Lights(id), map[id := id, "red" := "red"];
    LightsResolve(id);
    SeedsAre(id);
    assert TargetsOf(cs[1], ids) == [];
    assert Closed(RefGraph(cs, ids), {id});
    SurvivorsAreLeast(cs, ids, {id});
  }

  lemma SeedsAre(id: string)
    requires id != "" && id != "red" && id != "hub"
    ensures Seeds(Lights(id), map[id := id, "red" := "red"]) == {id}
  {
    var cs, ids := Lights(id), map[id := id, "red" := "red"];
    UsefulIffPresetOrReference(cs[1], ids);
    UsefulIffPresetOrReference(cs[2], ids);
    assert cs[2].item[1..] == [];
    assert "gain" in cs[1].fields && cs[1] in cs;
    assert Useful(cs[1], ids) && !Useful(cs[2], ids);
    forall c | c in cs && Useful(c, ids) ensures c.local == id {
    }
  }
}
