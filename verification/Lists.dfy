/** Lists kept free of repeats. */
module Lists {

  ghost predicate Distinct<T>(s: seq<T>) {
    forall i, j :: 0 <= i < j < |s| ==> s[i] != s[j]
  }

  /** `base`, then each item that is not there yet. */
  function AppendNew<T(==, !new)>(base: seq<T>, items: seq<T>): (r: seq<T>)
    ensures base <= r
    ensures forall x :: x in r <==> x in base || x in items
  {
    if items == [] then base
    else
      var rest, last := AppendNew(base, items[..|items| - 1]), items[|items| - 1];
      assert items == items[..|items| - 1] + [last];
      if last in rest then rest else rest + [last]
  }

  lemma {:induction false} AppendNewDistinct<T(!new)>(base: seq<T>, items: seq<T>)
    requires Distinct(base)
    ensures Distinct(AppendNew(base, items))
  {
    if items != [] {
      AppendNewDistinct(base, items[..|items| - 1]);
    }
  }

  lemma {:induction false} AppendNewSplits<T(!new)>(base: seq<T>, a: seq<T>, b: seq<T>)
    ensures AppendNew(base, a + b) == AppendNew(AppendNew(base, a), b)
  {
    if b == [] {
      assert a + b == a;
    } else {
      assert (a + b)[..|a + b| - 1] == a + b[..|b| - 1];
      AppendNewSplits(base, a, b[..|b| - 1]);
    }
  }

  /** First occurrences, in order. */
  function Dedup<T(==, !new)>(s: seq<T>): seq<T> {
    AppendNew([], s)
  }

  /** `x` stands before every `y`. */
  ghost predicate Before<T>(s: seq<T>, x: T, y: T) {
    forall j | 0 <= j < |s| && s[j] == y :: x in s[..j]
  }

  /** If each `y` among the items has an `x` before it, so has each `y` newly appended. */
  lemma {:induction false} AppendNewKeepsOrder<T(!new)>(base: seq<T>, items: seq<T>, x: T, y: T)
    requires Before(items, x, y) && y !in base
    ensures Before(AppendNew(base, items), x, y)
  {
    var r := AppendNew(base, items);
    if items != [] {
      var front, last := items[..|items| - 1], items[|items| - 1];
      forall j | 0 <= j < |front| && front[j] == y ensures x in front[..j] {
        assert items[j] == y && items[..j] == front[..j];
      }
      AppendNewKeepsOrder(base, front, x, y);
      var rest := AppendNew(base, front);
      forall j | 0 <= j < |r| && r[j] == y ensures x in r[..j] {
        if j < |rest| {
          assert rest[j] == y && rest[..j] == r[..j];
        } else {
          assert items[|items| - 1] == y && items[..|items| - 1] == front;
          assert r[..j] == rest;
        }
      }
    }
  }

  lemma BeforeConcat<T>(a: seq<T>, b: seq<T>, x: T, y: T)
    requires Before(a, x, y) && Before(b, x, y)
    ensures Before(a + b, x, y)
  {
    forall j | 0 <= j < |a + b| && (a + b)[j] == y ensures x in (a + b)[..j] {
      if j < |a| {
        assert a[j] == y && (a + b)[..j] == a[..j];
      } else {
        assert b[j - |a|] == y && (a + b)[..j] == a + b[..j - |a|];
      }
    }
  }

  lemma TakeNext<T>(s: seq<T>, k: nat)
    requires k < |s|
    ensures s[..k + 1] == s[..k] + [s[k]]
  {
  }

  lemma DistinctSnoc<T>(s: seq<T>, x: T)
    requires Distinct(s) && x !in s
    ensures Distinct(s + [x])
  {
  }

  /** The part of a list without repeats that is still ahead. */
  lemma DistinctSplit<T>(s: seq<T>, i: nat)
    requires Distinct(s) && i < |s|
    ensures s[i] !in s[..i] && s[i] !in s[i + 1..] && forall x :: x in s[i..] <==> x == s[i] || x in s[i + 1..]
  {
    assert s[i..] == [s[i]] + s[i + 1..];
  }
}
