/**
 Which abstract light schema a platform source file leads to (script/_light_schemas.py).

 A file that names a light schema answers for itself; any other file answers with
 the first answer among the sibling modules whose schemas it mentions.  The search
 shares one visited set between all branches, so each file is read at most once.
 */
module LightSchemas {
  import opened Optional
  import opened RequiresClosure

  type Path = string

  /** A file, by what the two patterns find in its text, or one whose read fails. */
  datatype Source = Unreadable | Text(named: Option<string>, modules: seq<string>)

  datatype Tree = Tree(files: map<Path, Source>, dirs: set<string>)

  /** The three files a module's schemas may live in, in the order they are tried. */
  function CandidatesOf(m: string): seq<Path> {
    [m + "/__init__.py", m + "/light.py", m + "/light/__init__.py"]
  }

  predicate Followed(t: Tree, m: string) {
    m != "light" && m in t.dirs
  }

  function Referenced(t: Tree, modules: seq<string>): seq<Path> {
    if modules == [] then []
    else (if Followed(t, modules[0]) then CandidatesOf(modules[0]) else []) + Referenced(t, modules[1..])
  }

  /** A mentioned module is followed when it is a directory other than `light`; its three files are tried in order. */
  lemma ReferencedOne(t: Tree, m: string)
    ensures Referenced(t, [m]) == if m != "light" && m in t.dirs
                                  then [m + "/__init__.py", m + "/light.py", m + "/light/__init__.py"] else []
  {
    assert [m][1..] == [];
  }

  lemma {:induction false} ReferencedSplits(t: Tree, a: seq<string>, b: seq<string>)
    ensures Referenced(t, a + b) == Referenced(t, a) + Referenced(t, b)
  {
    if a == [] {
      assert a + b == b;
    } else {
      assert (a + b)[1..] == a[1..] + b;
      ReferencedSplits(t, a[1..], b);
    }
  }

  function Successors(t: Tree, p: Path): seq<Path> {
    if p in t.files && t.files[p].Text? then Referenced(t, t.files[p].modules) else []
  }

  predicate Names(t: Tree, p: Path, schema: string) {
    p in t.files && t.files[p].Text? && t.files[p].named == Some(schema)
  }

  predicate NamesNothing(t: Tree, p: Path) {
    p in t.files && (t.files[p].Unreadable? || t.files[p].named.None?)
  }

  /** The reference graph of the whole tree. */
  function ReferenceGraph(t: Tree): Graph {
    map p | p in t.files :: Successors(t, p)
  }

  // ----- The plain search: no memory but the path from the start -----

  function Search(t: Tree, p: Path, stack: set<Path>): Option<string>
    decreases |t.files.Keys - stack|, 0
  {
    if p in stack || p !in t.files then None
    else
      match t.files[p]
      case Unreadable => None
      case Text(Some(schema), _) => Some(schema)
      case Text(None, modules) =>
        Deeper(t, p, stack);
        SearchAll(t, Referenced(t, modules), stack + {p})
  }

  function SearchAll(t: Tree, ps: seq<Path>, stack: set<Path>): Option<string>
    decreases |t.files.Keys - stack|, 1, |ps|
  {
    if ps == [] then None
    else
      var first := Search(t, ps[0], stack);
      if first.Some? then first else SearchAll(t, ps[1..], stack)
  }

  lemma Deeper(t: Tree, p: Path, stack: set<Path>)
    requires p in t.files && p !in stack
    ensures |t.files.Keys - (stack + {p})| < |t.files.Keys - stack|
  {
    var rest := t.files.Keys - (stack + {p});
    assert t.files.Keys - stack == rest + {p};
  }

  lemma Shrinks(all: set<Path>, small: set<Path>, big: set<Path>)
    requires small <= big
    ensures |all - big| <= |all - small|
  {
    assert all - small == (all - big) + (all * (big - small));
  }

  lemma {:induction false} SearchAllSplits(t: Tree, ps: seq<Path>, qs: seq<Path>, stack: set<Path>)
    ensures SearchAll(t, ps + qs, stack)
         == if SearchAll(t, ps, stack).Some? then SearchAll(t, ps, stack) else SearchAll(t, qs, stack)
  {
    if ps == [] {
      assert ps + qs == qs;
    } else {
      assert (ps + qs)[0] == ps[0] && (ps + qs)[1..] == ps[1..] + qs;
      SearchAllSplits(t, ps[1..], qs, stack);
    }
  }

  /** A file that names no schema answers as the first of the files it refers to that has an answer. */
  lemma FirstAnswerWins(t: Tree, p: Path, stack: set<Path>, before: seq<Path>, d: Path, after: seq<Path>)
    requires NamesNothing(t, p) && p !in stack && Successors(t, p) == before + [d] + after
    requires forall o | o in before :: Search(t, o, stack + {p}).None?
    requires Search(t, d, stack + {p}).Some?
    ensures Search(t, p, stack) == Search(t, d, stack + {p})
  {
    NoneAnswer(t, before, stack + {p});
    SearchAllSplits(t, before + [d], after, stack + {p});
    SearchAllSplits(t, before, [d], stack + {p});
  }

  lemma {:induction false} NoneAnswer(t: Tree, ps: seq<Path>, stack: set<Path>)
    requires forall o | o in ps :: Search(t, o, stack).None?
    ensures SearchAll(t, ps, stack).None?
  {
    if ps != [] {
      NoneAnswer(t, ps[1..], stack);
    }
  }

  /** Any answer comes from a file the start reaches, and that file names it. */
  lemma {:induction false} SearchFinds(t: Tree, p: Path, stack: set<Path>)
    requires Search(t, p, stack).Some?
    ensures exists f :: Reaches(ReferenceGraph(t), p, f) && Names(t, f, Search(t, p, stack).value)
    decreases |t.files.Keys - stack|, 0
  {
    var g := ReferenceGraph(t);
    if t.files[p].named.Some? {
      ReachesSelf(g, p);
      assert Names(t, p, Search(t, p, stack).value);
    } else {
      Deeper(t, p, stack);
      var ps := Referenced(t, t.files[p].modules);
      assert ps == Deps(g, p);
      var d := SearchAllFinds(t, ps, stack + {p});
      var f :| Reaches(g, d, f) && Names(t, f, Search(t, p, stack).value);
      ReachesSelf(g, p);
      ReachesStep(g, p, p, d);
      ReachesTransitive(g, p, d, f);
    }
  }

  lemma {:induction false} SearchAllFinds(t: Tree, ps: seq<Path>, stack: set<Path>) returns (d: Path)
    requires SearchAll(t, ps, stack).Some?
    ensures d in ps
    ensures exists f :: Reaches(ReferenceGraph(t), d, f) && Names(t, f, SearchAll(t, ps, stack).value)
    decreases |t.files.Keys - stack|, 1, |ps|
  {
    if Search(t, ps[0], stack).Some? {
      SearchFinds(t, ps[0], stack);
      d := ps[0];
    } else {
      d := SearchAllFinds(t, ps[1..], stack);
    }
  }

  // ----- What the visited set guarantees -----

  /**
   Nothing visited names a schema, and every visited file off the current path has
   had all its references visited.
   */
  ghost predicate Settled(t: Tree, visited: set<Path>, stack: set<Path>) {
    && stack <= visited
    && (forall f | f in visited :: NamesNothing(t, f))
    && (forall f, d | f in visited && f !in stack && d in Successors(t, f) && d in t.files :: d in visited)
  }

  /** So the plain search, too, finds nothing in a file that is already visited. */
  lemma {:induction false} SettledFindsNothing(t: Tree, p: Path, visited: set<Path>, stack: set<Path>, at: set<Path>)
    requires Settled(t, visited, stack) && stack <= at
    requires p in visited || p !in t.files
    ensures Search(t, p, at).None?
    decreases |t.files.Keys - at|, 0
  {
    if p in t.files && p !in at && t.files[p].Text? {
      Deeper(t, p, at);
      SettledFindsNothingIn(t, Successors(t, p), visited, stack, at + {p});
    }
  }

  lemma {:induction false} SettledFindsNothingIn(
    t: Tree, ps: seq<Path>, visited: set<Path>, stack: set<Path>, at: set<Path>)
    requires Settled(t, visited, stack) && stack <= at
    requires forall d | d in ps && d in t.files :: d in visited
    ensures SearchAll(t, ps, at).None?
    decreases |t.files.Keys - at|, 1, |ps|
  {
    if ps != [] {
      SettledFindsNothing(t, ps[0], visited, stack, at);
      SettledFindsNothingIn(t, ps[1..], visited, stack, at);
    }
  }

  /** A settled search that ended holds everything its start reaches. */
  lemma {:induction false} SettledHoldsReachable(t: Tree, p: Path, visited: set<Path>, path: seq<Path>, f: Path)
    requires Settled(t, visited, {}) && (p in t.files ==> p in visited)
    requires Joins(ReferenceGraph(t), path, p, f) && f in t.files
    ensures f in visited
    decreases |path|
  {
    var g := ReferenceGraph(t);
    if |path| > 1 {
      var last := path[|path| - 2];
      assert path[|path| - 2 + 1] in Deps(g, last);
      assert Joins(g, path[..|path| - 1], p, last);
      SettledHoldsReachable(t, p, visited, path[..|path| - 1], last);
    }
  }

  // ----- The search as it runs -----

  class Resolver {
    const tree: Tree
    var visited: set<Path>

    constructor (tree: Tree)
      ensures this.tree == tree && visited == {}
    {
      this.tree, visited := tree, {};
    }

    /** The shared visited set never changes the answer of the plain search. */
    method Resolve(path: Path, ghost stack: set<Path>) returns (ref: Option<string>)
      requires Settled(tree, visited, stack)
      modifies this
      ensures old(visited) <= visited
      ensures ref == Search(tree, path, stack)
      ensures ref.None? ==> Settled(tree, visited, stack) && (path in tree.files ==> path in visited)
      decreases |tree.files.Keys - visited|, 0
    {
      if path in visited || path !in tree.files {
        SettledFindsNothing(tree, path, visited, stack, stack);
        return None;
      }
      Deeper(tree, path, visited);
      visited := visited + {path};
      match tree.files[path]
      case Unreadable =>
        return None;
      case Text(named, modules) =>
        if named.Some? {
          return named;
        }
        ref := ResolveModules(modules, stack + {path});
    }

    method ResolveModules(modules: seq<string>, ghost stack: set<Path>) returns (ref: Option<string>)
      requires Settled(tree, visited, stack)
      modifies this
      ensures old(visited) <= visited
      ensures ref == SearchAll(tree, Referenced(tree, modules), stack)
      ensures ref.None? ==> Settled(tree, visited, stack)
      ensures ref.None? ==> forall d | d in Referenced(tree, modules) && d in tree.files :: d in visited
      decreases |tree.files.Keys - visited|, 2
    {
      for i := 0 to |modules|
        invariant old(visited) <= visited && Settled(tree, visited, stack)
        invariant SearchAll(tree, Referenced(tree, modules), stack)
                  == SearchAll(tree, Referenced(tree, modules[i..]), stack)
        invariant forall d | d in Referenced(tree, modules) && d in tree.files ::
                    d in visited || d in Referenced(tree, modules[i..])
      {
        assert modules[i..][1..] == modules[i + 1..];
        if !Followed(tree, modules[i]) {
          assert Referenced(tree, modules[i..]) == Referenced(tree, modules[i + 1..]);
          continue;
        }
        SearchAllSplits(tree, CandidatesOf(modules[i]), Referenced(tree, modules[i + 1..]), stack);
        Shrinks(tree.files.Keys, old(visited), visited);
        ref := ResolveCandidates(CandidatesOf(modules[i]), stack);
        if ref.Some? {
          return ref;
        }
      }
      return None;
    }

    method ResolveCandidates(candidates: seq<Path>, ghost stack: set<Path>) returns (ref: Option<string>)
      requires Settled(tree, visited, stack)
      modifies this
      ensures old(visited) <= visited
      ensures ref == SearchAll(tree, candidates, stack)
      ensures ref.None? ==>
                Settled(tree, visited, stack) && forall d | d in candidates && d in tree.files :: d in visited
      decreases |tree.files.Keys - visited|, 1
    {
      for i := 0 to |candidates|
        invariant old(visited) <= visited && Settled(tree, visited, stack)
        invariant SearchAll(tree, candidates, stack) == SearchAll(tree, candidates[i..], stack)
        invariant forall d | d in candidates[..i] && d in tree.files :: d in visited
      {
        assert candidates[i..][1..] == candidates[i + 1..];
        Shrinks(tree.files.Keys, old(visited), visited);
        ref := Resolve(candidates[i], stack);
        if ref.Some? {
          return ref;
        }
      }
      return None;
    }
  }

  /** From a fresh visited set: no answer exactly when nothing the start reaches names a schema. */
  method ResolveSchemaRef(tree: Tree, path: Path) returns (ref: Option<string>)
    ensures ref == Search(tree, path, {})
    ensures ref.None? <==> !exists f, schema :: Reaches(ReferenceGraph(tree), path, f) && Names(tree, f, schema)
    ensures ref.Some? ==> exists f :: Reaches(ReferenceGraph(tree), path, f) && Names(tree, f, ref.value)
  {
    var resolver := new Resolver(tree);
    ref := resolver.Resolve(path, {});
    if ref.None? {
      forall f, schema | Reaches(ReferenceGraph(tree), path, f) && Names(tree, f, schema) ensures false {
        var p :| Joins(ReferenceGraph(tree), p, path, f);
        SettledHoldsReachable(tree, path, resolver.visited, p, f);
      }
    } else {
      SearchFinds(tree, path, {});
    }
  }

  // ----- The platforms of each schema -----

  /** A platform source file and the `light.<platform>` id it stands for. */
  type Platform = (Path, string)

  /** Every platform is listed under just the schema its source leads to. */
  method DeriveLightPlatforms(tree: Tree, candidates: seq<Platform>, schemas: set<string>)
    returns (out: map<string, set<string>>)
    requires forall f, schema | Names(tree, f, schema) :: schema in schemas
    ensures out.Keys == schemas
    ensures forall schema, id | schema in schemas ::
              id in out[schema] <==> exists p | p in candidates :: p.1 == id && Search(tree, p.0, {}) == Some(schema)
  {
    out := map schema | schema in schemas :: {};
    for i := 0 to |candidates|
      invariant out.Keys == schemas
      invariant forall schema, id | schema in schemas ::
                  id in out[schema] <==>
                    exists p | p in candidates[..i] :: p.1 == id && Search(tree, p.0, {}) == Some(schema)
    {
      var (path, id) := candidates[i];
      var schema := ResolveSchemaRef(tree, path);
      assert candidates[..i + 1] == candidates[..i] + [candidates[i]];
      if schema.Some? {
        out := out[schema.value := out[schema.value] + {id}];
      }
    }
    assert candidates[..|candidates|] == candidates;
  }
}
