/**
 Prerequisite closure of featured components (script/sync_boards.py).

 A featured component lists its direct prerequisites; the catalog stamps each
 one with the whole closure, prerequisites first.  The walk keeps no memo of
 finished nodes and guards against cycles only by the current ancestor stack.
 */
module RequiresClosure {
  import opened Lists
  import opened Optional

  type Graph = map<string, seq<string>>

  function Deps(g: Graph, n: string): seq<string> {
    if n in g then g[n] else []
  }

  // ----- Paths: the independent notion of "transitively requires" -----

  ghost predicate IsPath(g: Graph, p: seq<string>) {
    |p| > 0 && forall i :: 0 <= i < |p| - 1 ==> p[i + 1] in Deps(g, p[i])
  }

  ghost predicate Joins(g: Graph, p: seq<string>, from: string, to: string) {
    IsPath(g, p) && p[0] == from && p[|p| - 1] == to
  }

  ghost predicate Reaches(g: Graph, from: string, to: string) {
    exists p :: Joins(g, p, from, to)
  }

  /** `from` reaches `to` by a path none of whose nodes (ends included) is in `avoid`. */
  ghost predicate ReachesAvoiding(g: Graph, from: string, to: string, avoid: set<string>) {
    exists p :: Joins(g, p, from, to) && forall n | n in p :: n !in avoid
  }

  lemma ReachesSelf(g: Graph, n: string)
    ensures Reaches(g, n, n)
  {
    assert Joins(g, [n], n, n);
  }

  lemma ReachesStep(g: Graph, a: string, b: string, c: string)
    requires Reaches(g, a, b) && c in Deps(g, b)
    ensures Reaches(g, a, c)
  {
    var p :| Joins(g, p, a, b);
    assert Joins(g, p + [c], a, c);
  }

  lemma ReachesTransitive(g: Graph, a: string, b: string, c: string)
    requires Reaches(g, a, b) && Reaches(g, b, c)
    ensures Reaches(g, a, c)
  {
    var p :| Joins(g, p, a, b);
    var q :| Joins(g, q, b, c);
    assert Joins(g, p + q[1..], a, c);
  }

  /** A path can be shortened so that it leaves its start for good. */
  lemma {:induction false} LeavesStart(g: Graph, p: seq<string>, from: string, to: string, avoid: set<string>)
    requires Joins(g, p, from, to) && (forall n | n in p :: n !in avoid) && from != to
    ensures exists d :: d in Deps(g, from) && d !in avoid && d != from && ReachesAvoiding(g, d, to, avoid + {from})
    decreases |p|
  {
    var q := p[1..];
    if i :| 1 <= i < |p| && p[i] == from {
      assert Joins(g, p[i..], from, to);
      LeavesStart(g, p[i..], from, to, avoid);
    } else {
      assert p[1] in Deps(g, from) && p[1] in p;
      assert Joins(g, q, p[1], to);
      forall n | n in q ensures n !in avoid + {from} {
        var i :| 0 <= i < |q| && q[i] == n;
        assert p[i + 1] == n;
      }
    }
  }

  lemma LeavesStartFrom(g: Graph, from: string, to: string, avoid: set<string>)
    requires ReachesAvoiding(g, from, to, avoid) && from != to
    ensures exists d :: d in Deps(g, from) && d !in avoid && d != from && ReachesAvoiding(g, d, to, avoid + {from})
  {
    var p :| Joins(g, p, from, to) && forall n | n in p :: n !in avoid;
    LeavesStart(g, p, from, to, avoid);
  }

  // ----- What a flattening is -----

  /** Every direct dependency of an emitted node comes first, is the root, or closes a cycle with it. */
  ghost predicate Ordered(g: Graph, root: string, s: seq<string>) {
    forall i, d :: 0 <= i < |s| && d in Deps(g, s[i]) ==> d == root || d in s[..i] || Reaches(g, d, s[i])
  }

  /** `n` shares a cycle with some other node. */
  ghost predicate OnCycle(g: Graph, n: string) {
    exists w :: w != n && Reaches(g, n, w) && Reaches(g, w, n)
  }

  /** A node that is on no cycle comes after everything it requires, directly or not. */
  ghost predicate OrderedDeep(g: Graph, s: seq<string>) {
    forall i, z :: 0 <= i < |s| && Reaches(g, s[i], z) && z != s[i] && !OnCycle(g, s[i]) ==> z in s[..i]
  }

  ghost predicate IsFlattening(g: Graph, root: string, s: seq<string>) {
    && Distinct(s)
    && (forall x :: x in s <==> x != root && Reaches(g, root, x))
    && Ordered(g, root, s)
    && OrderedDeep(g, s)
  }

  lemma OrderedAppend(g: Graph, root: string, s: seq<string>, x: string)
    requires Ordered(g, root, s) && OrderedDeep(g, s)
    requires forall d | d in Deps(g, x) :: d == root || d in s || Reaches(g, d, x)
    requires !OnCycle(g, x) ==> forall z | Reaches(g, x, z) && z != x :: z in s
    ensures Ordered(g, root, s + [x]) && OrderedDeep(g, s + [x])
  {
    var t := s + [x];
    forall i, z | 0 <= i < |t| && Reaches(g, t[i], z) && z != t[i] && !OnCycle(g, t[i])
      ensures z in t[..i]
    {
      if i < |s| {
        assert t[..i] == s[..i];
      } else {
        assert t[..i] == s;
      }
    }
    forall i, d | 0 <= i < |t| && d in Deps(g, t[i])
      ensures d == root || d in t[..i] || Reaches(g, d, t[i])
    {
      if i < |s| {
        assert t[..i] == s[..i];
      } else {
        assert t[..i] == s;
      }
    }
  }

  // ----- The walk -----

  function Measure(g: Graph, node: string, stack: set<string>): nat {
    2 * |g.Keys - stack| + (if node in stack then 1 else 0)
  }

  lemma MeasureDrops(g: Graph, node: string, stack: set<string>, dep: string)
    requires node in g && dep !in stack
    ensures Measure(g, dep, stack + {node}) < Measure(g, node, stack)
  {
    var rest := g.Keys - (stack + {node});
    if node in stack {
      assert stack + {node} == stack;
    } else {
      assert g.Keys - stack == rest + {node};
      assert |g.Keys - stack| == |rest| + 1;
    }
  }

  /** What `Visit` has emitted when it returns from `node`. */
  ghost predicate Visited(g: Graph, node: string, stack: set<string>, upto: nat, ordered: seq<string>) {
    forall i :: 0 <= i < upto && i < |Deps(g, node)| && Deps(g, node)[i] !in stack ==>
      && Deps(g, node)[i] in ordered
      && (forall x | x !in stack && x != node && ReachesAvoiding(g, Deps(g, node)[i], x, stack + {node}) ::
        x in ordered)
  }

  lemma VisitedGrows(g: Graph, node: string, stack: set<string>, upto: nat, before: seq<string>, after: seq<string>)
    requires Visited(g, node, stack, upto, before) && before <= after
    ensures Visited(g, node, stack, upto, after)
  {
  }

  lemma VisitedReaches(g: Graph, node: string, stack: set<string>, dep: string, ordered: seq<string>)
    requires dep in Deps(g, node) && dep !in stack && dep in ordered
    requires Visited(g, dep, stack + {node}, |Deps(g, dep)|, ordered)
    ensures forall x | x !in stack && x != node && ReachesAvoiding(g, dep, x, stack + {node}) :: x in ordered
  {
    forall x | x !in stack && x != node && ReachesAvoiding(g, dep, x, stack + {node})
      ensures x in ordered
    {
      if x != dep {
        LeavesStartFrom(g, dep, x, stack + {node});
        var d :| d in Deps(g, dep) && d !in stack + {node} && d != dep
          && ReachesAvoiding(g, d, x, stack + {node} + {dep});
        var i :| 0 <= i < |Deps(g, dep)| && Deps(g, dep)[i] == d;
      }
    }
  }

  lemma AncestorsReach(g: Graph, root: string, node: string, stack: set<string>, dep: string)
    requires Reaches(g, root, node) && dep in Deps(g, node)
    requires forall s | s in stack :: Reaches(g, s, node)
    ensures Reaches(g, root, dep)
    ensures forall s | s in stack + {node} :: Reaches(g, s, dep)
  {
    ReachesStep(g, root, node, dep);
    forall s | s in stack + {node} ensures Reaches(g, s, dep) {
      ReachesSelf(g, node);
      ReachesStep(g, s, node, dep);
    }
  }

  /** Off every cycle, no path out of `dep` can run into an ancestor, so its walk missed nothing. */
  lemma OffCycleComplete(g: Graph, dep: string, stack: set<string>, ordered: seq<string>)
    requires !OnCycle(g, dep)
    requires forall s | s in stack :: Reaches(g, s, dep)
    requires Visited(g, dep, stack, |Deps(g, dep)|, ordered)
    ensures forall z | Reaches(g, dep, z) && z != dep :: z in ordered
  {
    forall z | Reaches(g, dep, z) && z != dep ensures z in ordered {
      var p :| Joins(g, p, dep, z);
      forall n | n in p ensures n !in stack - {dep} {
        var i :| 0 <= i < |p| && p[i] == n;
        assert Joins(g, p[..i + 1], dep, n);
      }
      assert z in p;
      LeavesStartFrom(g, dep, z, stack - {dep});
      assert stack - {dep} + {dep} == stack + {dep};
      var d :| d in Deps(g, dep) && d !in stack - {dep} && d != dep && ReachesAvoiding(g, d, z, stack + {dep});
      var i :| 0 <= i < |Deps(g, dep)| && Deps(g, dep)[i] == d;
    }
  }

  lemma VisitedNext(
    g: Graph, node: string, stack: set<string>, i: nat, before: seq<string>, inner: seq<string>, after: seq<string>)
    requires i < |Deps(g, node)| && Visited(g, node, stack, i, before)
    requires before <= inner <= after && Deps(g, node)[i] !in stack && Deps(g, node)[i] in after
    requires Visited(g, Deps(g, node)[i], stack + {node}, |Deps(g, Deps(g, node)[i])|, inner)
    ensures Visited(g, node, stack, i + 1, after)
  {
    var dep := Deps(g, node)[i];
    VisitedGrows(g, node, stack, i, before, after);
    VisitedGrows(g, dep, stack + {node}, |Deps(g, dep)|, inner, after);
    VisitedReaches(g, node, stack, dep, after);
  }

  class Flattener {
    const g: Graph
    const root: string
    var ordered: seq<string>
    var seen: set<string>

    ghost predicate Valid()
      reads this
    {
      && Distinct(ordered)
      && (forall x :: x in seen <==> x in ordered)
      && (forall x | x in ordered :: x != root && Reaches(g, root, x))
      && Ordered(g, root, ordered)
      && OrderedDeep(g, ordered)
    }

    constructor (g: Graph, root: string)
      ensures this.g == g && this.root == root
      ensures Valid() && ordered == []
    {
      this.g, this.root := g, root;
      ordered, seen := [], {};
    }

    /** Emit everything `node` requires, skipping dependencies on the ancestor stack. */
    method Visit(node: string, stack: set<string>)
      requires Valid() && root in stack
      requires Reaches(g, root, node)
      requires forall s | s in stack :: Reaches(g, s, node)
      modifies this
      ensures Valid() && old(ordered) <= ordered
      ensures Visited(g, node, stack, |Deps(g, node)|, ordered)
      decreases Measure(g, node, stack)
    {
      var deps := Deps(g, node);
      for i := 0 to |deps|
        invariant Valid() && old(ordered) <= ordered
        invariant Visited(g, node, stack, i, ordered)
      {
        var dep := deps[i];
        if dep in stack {
          continue;
        }
        AncestorsReach(g, root, node, stack, dep);
        MeasureDrops(g, node, stack, dep);
        ghost var before := ordered;
        Visit(dep, stack + {node});
        ghost var inner := ordered;
        Emit(dep, stack + {node});
        VisitedNext(g, node, stack, i, before, inner, ordered);
      }
    }

    /** The tail of one iteration: append a dependency whose own walk has returned, once. */
    method Emit(dep: string, ancestors: set<string>)
      requires Valid() && dep != root && Reaches(g, root, dep)
      requires forall s | s in ancestors :: Reaches(g, s, dep)
      requires Visited(g, dep, ancestors, |Deps(g, dep)|, ordered)
      modifies this
      ensures Valid() && dep in ordered
      ensures ordered == old(ordered) || ordered == old(ordered) + [dep]
    {
      if dep !in seen {
        forall d | d in Deps(g, dep) ensures d == root || d in ordered || Reaches(g, d, dep) {
          var k :| 0 <= k < |Deps(g, dep)| && Deps(g, dep)[k] == d;
        }
        if !OnCycle(g, dep) {
          OffCycleComplete(g, dep, ancestors, ordered);
        }
        OrderedAppend(g, root, ordered, dep);
        seen := seen + {dep};
        ordered := ordered + [dep];
      }
    }
  }

  method Flatten(root: string, g: Graph) returns (ordered: seq<string>)
    ensures IsFlattening(g, root, ordered)
  {
    var f := new Flattener(g, root);
    ReachesSelf(g, root);
    f.Visit(root, {root});
    ordered := f.ordered;
    forall x | x != root && Reaches(g, root, x) ensures x in ordered {
      assert ReachesAvoiding(g, root, x, {});
      LeavesStartFrom(g, root, x, {});
      var d :| d in Deps(g, root) && d != root && ReachesAvoiding(g, d, x, {} + {root});
      assert {} + {root} == {root} + {root};
      var i :| 0 <= i < |Deps(g, root)| && Deps(g, root)[i] == d;
    }
  }

  // ----- What the stamp means for its reader -----

  /** A component's stamped list already holds everything its prerequisites' lists hold. */
  lemma FlatteningIsClosed(g: Graph, x: string, rx: seq<string>, y: string, ry: seq<string>)
    requires IsFlattening(g, x, rx) && IsFlattening(g, y, ry) && y in rx
    ensures forall z | z in ry :: z == x || z in rx
  {
    forall z | z in ry ensures z == x || z in rx {
      ReachesTransitive(g, x, y, z);
    }
  }

  /** A node on a cycle is emitted before something it requires, or another node of that cycle is. */
  lemma CycleBreaksOrder(g: Graph, root: string, s: seq<string>, i: nat) returns (k: nat, z: string)
    requires IsFlattening(g, root, s) && i < |s| && OnCycle(g, s[i])
    ensures k < |s| && Reaches(g, s[k], z) && z != s[k] && z !in s[..k]
  {
    var w :| w != s[i] && Reaches(g, s[i], w) && Reaches(g, w, s[i]);
    ReachesTransitive(g, root, s[i], w);
    if w != root {
      var j :| 0 <= j < |s| && s[j] == w;
      k, z := if j < i then j else i, if j < i then s[i] else w;
    } else {
      k, z := i, w;
    }
  }

  /** Every prerequisite, however indirect, precedes its dependent exactly when nothing emitted is on a cycle. */
  lemma FullyOrderedIffAcyclic(g: Graph, root: string, s: seq<string>)
    requires IsFlattening(g, root, s)
    ensures (forall i, z :: 0 <= i < |s| && Reaches(g, s[i], z) && z != s[i] ==> z in s[..i])
       <==> (forall i :: 0 <= i < |s| ==> !OnCycle(g, s[i]))
  {
    if i :| 0 <= i < |s| && OnCycle(g, s[i]) {
      var k, z := CycleBreaksOrder(g, root, s, i);
    }
  }

  /**
   On a cycle the order can break: with `s: [x, z]` and `x: [s]`, `x` is emitted before `z`,
   which it requires through `s`.
   */
  lemma CycleBreaksDeepOrder()
    ensures var g: Graph := map["r" := ["s"], "s" := ["x", "z"], "x" := ["s"]];
            Reaches(g, "x", "z") && !Reaches(g, "z", "x") && IsFlattening(g, "r", ["x", "z", "s"])
  {
    var g: Graph := map["r" := ["s"], "s" := ["x", "z"], "x" := ["s"]];
    var s := ["x", "z", "s"];
    assert Joins(g, ["x", "s", "z"], "x", "z");
    forall p, to | Joins(g, p, "z", to) ensures to == "z" {
      StaysIn(g, p, {"z"});
    }
    assert Joins(g, ["r", "s", "x"], "r", "x");
    assert Joins(g, ["r", "s", "z"], "r", "z");
    assert Joins(g, ["r", "s"], "r", "s");
    forall x | x != "r" && Reaches(g, "r", x) ensures x in s {
      var p :| Joins(g, p, "r", x);
      StaysIn(g, p, {"r", "s", "x", "z"});
    }
    CycleOfTwo(g, "s", "x");
    CycleOfTwo(g, "x", "s");
    assert s[..2] == ["x", "z"];
    forall i, d | 0 <= i < |s| && d in Deps(g, s[i]) ensures d == "r" || d in s[..i] || Reaches(g, d, s[i]) {
      assert i == 0 || i == 1 || i == 2;
    }
  }

  lemma CycleOfTwo(g: Graph, a: string, b: string)
    requires a != b && b in Deps(g, a) && a in Deps(g, b)
    ensures OnCycle(g, a) && Reaches(g, b, a)
  {
    assert Joins(g, [a, b], a, b) && Joins(g, [b, a], b, a);
    assert Reaches(g, a, b) && Reaches(g, b, a);
  }

  lemma {:induction false} StaysIn(g: Graph, p: seq<string>, nodes: set<string>)
    requires IsPath(g, p) && p[0] in nodes
    requires forall n, d | n in nodes && d in Deps(g, n) :: d in nodes
    ensures p[|p| - 1] in nodes
  {
    if |p| > 1 {
      StaysIn(g, p[1..], nodes);
    }
  }

  // ----- Direct prerequisites and the stamping pass over one board -----

  /** A featured field: its key and, when its preset is a string, that string. */
  datatype Field = Field(key: string, text: Option<string>)

  class Featured {
    const id: string
    const componentId: string
    const fields: seq<Field>
    var prerequisites: seq<string>

    constructor (id: string, componentId: string, fields: seq<Field>, authored: seq<string>)
      ensures this.id == id && this.componentId == componentId && this.fields == fields && prerequisites == authored
    {
      this.id, this.componentId, this.fields := id, componentId, fields;
      prerequisites := authored;
    }
  }

  /** The id a component emits: its first `id` field, when that is a string. */
  function EmittedId(fields: seq<Field>): Option<string> {
    if fields == [] then None
    else if fields[0].key == "id" then fields[0].text
    else EmittedId(fields[1..])
  }

  /** The component's first `id` field is this string. */
  ghost predicate FirstIdIs(fields: seq<Field>, i: int, text: string) {
    0 <= i < |fields| && fields[i] == Field("id", Some(text)) && forall j | 0 <= j < i :: fields[j].key != "id"
  }

  lemma {:induction false} EmittedIdIff(fields: seq<Field>, text: string)
    ensures EmittedId(fields) == Some(text) <==> exists i :: FirstIdIs(fields, i, text)
  {
    if fields != [] && fields[0].key == "id" && fields[0].text == Some(text) {
      assert FirstIdIs(fields, 0, text);
    } else if fields != [] && fields[0].key != "id" {
      EmittedIdIff(fields[1..], text);
      if i :| FirstIdIs(fields[1..], i, text) {
        assert FirstIdIs(fields, i + 1, text);
      }
      if i :| FirstIdIs(fields, i, text) {
        assert FirstIdIs(fields[1..], i - 1, text);
      }
    }
  }

  /** The id of the first component emitting `text`. */
  function FirstEmitter(components: seq<Featured>, text: string): Option<string> {
    if components == [] then None
    else if EmittedId(components[0].fields) == Some(text) then Some(components[0].id)
    else FirstEmitter(components[1..], text)
  }

  /** A reference-typed field of `c` carries the emitted id of the sibling `target`. */
  ghost predicate RefersTo(
    components: seq<Featured>, referenceKeys: string -> set<string>, c: Featured, upto: nat, target: string)
  {
    target != c.id &&
    exists k :: 0 <= k < upto && k < |c.fields| && c.fields[k].key in referenceKeys(c.componentId)
      && c.fields[k].text.Some? && FirstEmitter(components, c.fields[k].text.value) == Some(target)
  }

  /** Hand-authored prerequisites first, then exactly the siblings referred to, none twice. */
  ghost predicate DirectOf(components: seq<Featured>, referenceKeys: string -> set<string>, c: Featured,
                           authored: seq<string>, upto: nat, deps: seq<string>) {
    && authored <= deps
    && Distinct(deps[|authored|..])
    && (forall t :: t in deps <==> t in authored || RefersTo(components, referenceKeys, c, upto, t))
    && (forall t | t in deps[|authored|..] :: t !in authored)
  }

  ghost predicate Indexes(components: seq<Featured>, byEmittedId: map<string, string>) {
    forall text :: FirstEmitter(components, text) == if text in byEmittedId then Some(byEmittedId[text]) else None
  }

  lemma {:induction false} FirstEmitterAppend(components: seq<Featured>, c: Featured, text: string)
    ensures FirstEmitter(components + [c], text)
         == if FirstEmitter(components, text).Some? then FirstEmitter(components, text)
            else if EmittedId(c.fields) == Some(text) then Some(c.id) else None
  {
    if components == [] {
      assert components + [c] == [c];
    } else {
      assert (components + [c])[1..] == components[1..] + [c];
      FirstEmitterAppend(components[1..], c, text);
    }
  }

  method EmittedIds(components: seq<Featured>) returns (byEmittedId: map<string, string>)
    ensures Indexes(components, byEmittedId)
  {
    byEmittedId := map[];
    for i := 0 to |components|
      invariant Indexes(components[..i], byEmittedId)
    {
      assert components[..i + 1] == components[..i] + [components[i]];
      forall text {
        FirstEmitterAppend(components[..i], components[i], text);
      }
      var emitted := EmittedId(components[i].fields);
      if emitted.Some? && emitted.value !in byEmittedId {
        byEmittedId := byEmittedId[emitted.value := components[i].id];
      }
    }
    assert components[..|components|] == components;
  }

  method DirectRequires(
    components: seq<Featured>, byEmittedId: map<string, string>, referenceKeys: string -> set<string>, c: Featured)
    returns (deps: seq<string>)
    requires Indexes(components, byEmittedId)
    ensures DirectOf(components, referenceKeys, c, c.prerequisites, |c.fields|, deps)
  {
    var authored := c.prerequisites;
    deps := authored;
    for k := 0 to |c.fields|
      invariant DirectOf(components, referenceKeys, c, authored, k, deps)
    {
      var field := c.fields[k];
      ghost var was := deps;
      if field.key in referenceKeys(c.componentId) && field.text.Some? && field.text.value in byEmittedId {
        var target := byEmittedId[field.text.value];
        assert FirstEmitter(components, field.text.value) == Some(target);
        if target != c.id && target !in deps {
          deps := deps + [target];
          assert deps[|authored|..] == was[|authored|..] + [target];
        }
      }
    }
  }

  ghost function Prerequisites(components: seq<Featured>): (lists: seq<seq<string>>)
    reads components
    ensures |lists| == |components|
  {
    seq(|components|, i requires 0 <= i < |components| reads components => components[i].prerequisites)
  }

  ghost predicate DirectAt(
    components: seq<Featured>, referenceKeys: string -> set<string>, i: nat, authored: seq<seq<string>>, direct: Graph)
    requires i < |components| == |authored|
  {
    components[i].id in direct &&
    DirectOf(components, referenceKeys, components[i], authored[i], |components[i].fields|, direct[components[i].id])
  }

  /** `direct` holds the direct prerequisites of every component, the last one winning under a shared id. */
  ghost predicate IsDirect(
    components: seq<Featured>, referenceKeys: string -> set<string>, upto: nat, authored: seq<seq<string>>,
    direct: Graph)
    requires upto <= |components| == |authored|
  {
    && direct.Keys == (set i | 0 <= i < upto :: components[i].id)
    && forall i :: 0 <= i < upto && (forall j :: i < j < upto ==> components[j].id != components[i].id) ==>
         DirectAt(components, referenceKeys, i, authored, direct)
  }

  lemma IsDirectNext(
    components: seq<Featured>, referenceKeys: string -> set<string>, i: nat, authored: seq<seq<string>>, was: Graph,
    deps: seq<string>)
    requires i < |components| == |authored| && IsDirect(components, referenceKeys, i, authored, was)
    requires DirectOf(components, referenceKeys, components[i], authored[i], |components[i].fields|, deps)
    ensures IsDirect(components, referenceKeys, i + 1, authored, was[components[i].id := deps])
  {
    var now := was[components[i].id := deps];
    forall k | 0 <= k < i + 1 && (forall j :: k < j < i + 1 ==> components[j].id != components[k].id)
      ensures DirectAt(components, referenceKeys, k, authored, now)
    {
      if k < i {
        assert DirectAt(components, referenceKeys, k, authored, was);
      }
    }
  }

  method DirectFeaturedRequires(components: seq<Featured>, referenceKeys: string -> set<string>) returns (direct: Graph)
    ensures IsDirect(components, referenceKeys, |components|, Prerequisites(components), direct)
  {
    var byEmittedId := EmittedIds(components);
    direct := map[];
    for i := 0 to |components|
      invariant IsDirect(components, referenceKeys, i, Prerequisites(components), direct)
    {
      var deps := DirectRequires(components, byEmittedId, referenceKeys, components[i]);
      IsDirectNext(components, referenceKeys, i, Prerequisites(components), direct, deps);
      direct := direct[components[i].id := deps];
    }
  }

  ghost predicate Stamped(direct: Graph, c: Featured)
    reads c
  {
    IsFlattening(direct, c.id, c.prerequisites)
  }

  /** Replace every component's prerequisites by its closure, computed over the lists as they were before. */
  method StampRequires(components: seq<Featured>, referenceKeys: string -> set<string>) returns (direct: Graph)
    requires forall i, j :: 0 <= i < j < |components| ==> components[i] != components[j]
    modifies components
    ensures IsDirect(components, referenceKeys, |components|, old(Prerequisites(components)), direct)
    ensures forall i :: 0 <= i < |components| ==> Stamped(direct, components[i])
  {
    direct := DirectFeaturedRequires(components, referenceKeys);
    StampAll(components, direct);
  }

  method StampAll(components: seq<Featured>, direct: Graph)
    requires forall i, j :: 0 <= i < j < |components| ==> components[i] != components[j]
    modifies components
    ensures forall i :: 0 <= i < |components| ==> Stamped(direct, components[i])
  {
    for i := 0 to |components|
      invariant forall j :: 0 <= j < i ==> Stamped(direct, components[j])
    {
      StampOne(components[i], direct);
    }
  }

  method StampOne(c: Featured, direct: Graph)
    modifies c
    ensures Stamped(direct, c)
  {
    c.prerequisites := Flatten(c.id, direct);
  }
}
