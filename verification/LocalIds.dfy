/** Fresh local ids (script/sync_esphome_devices.py). */
module LocalIds {

  const DIGITS := "0123456789"

  function Decimal(n: nat): (s: string)
    ensures s != []
  {
    if n < 10 then [DIGITS[n]] else Decimal(n / 10) + [DIGITS[n % 10]]
  }

  lemma {:induction false} DecimalInjective(a: nat, b: nat)
    requires Decimal(a) == Decimal(b)
    ensures a == b
  {
    assert forall i, j :: 0 <= i < j < 10 ==> DIGITS[i] != DIGITS[j];
    var last := |Decimal(a)| - 1;
    assert Decimal(a)[last] == DIGITS[a % 10] && Decimal(b)[last] == DIGITS[b % 10];
    if a >= 10 && b >= 10 {
      assert Decimal(a)[..last] == Decimal(a / 10) && Decimal(b)[..last] == Decimal(b / 10);
      DecimalInjective(a / 10, b / 10);
    }
  }

  function Numbered(stem: string, n: nat): string {
    stem + "_" + Decimal(n)
  }

  lemma NumberedInjective(stem: string, a: nat, b: nat)
    requires Numbered(stem, a) == Numbered(stem, b)
    ensures a == b
  {
    assert Numbered(stem, a)[|stem| + 1..] == Decimal(a);
    assert Numbered(stem, b)[|stem| + 1..] == Decimal(b);
    DecimalInjective(a, b);
  }

  function Stem(base: string, fallback: string): string {
    if base != "" then base else fallback
  }

  /** The id is the base, or the fallback where there is no base, perhaps with a number. */
  ghost predicate IsNamedFor(id: string, base: string, fallback: string) {
    var stem := if base != "" then base else fallback;
    id == stem || exists n: nat :: id == Numbered(stem, n)
  }

  /** The stem itself when free, else the stem with the least free number from 2 up. */
  method UniqueLocalId(base: string, used: set<string>, fallback: string) returns (id: string)
    ensures id !in used && IsNamedFor(id, base, fallback)
    ensures Stem(base, fallback) !in used ==> id == Stem(base, fallback)
    ensures Stem(base, fallback) in used ==>
              exists n :: 2 <= n && id == Numbered(Stem(base, fallback), n)
                          && forall k | 2 <= k < n :: Numbered(Stem(base, fallback), k) in used
  {
    id := if base != "" then base else fallback;
    if id !in used {
      return;
    }
    var stem := id;
    var counter := 2;
    ghost var untried := used;
    while Numbered(stem, counter) in used
      invariant 2 <= counter
      invariant forall k | 2 <= k < counter :: Numbered(stem, k) in used
      invariant untried <= used
      invariant forall k | counter <= k :: Numbered(stem, k) in used ==> Numbered(stem, k) in untried
      decreases untried
    {
      forall k | counter < k ensures Numbered(stem, k) != Numbered(stem, counter) {
        if Numbered(stem, k) == Numbered(stem, counter) {
          NumberedInjective(stem, k, counter);
        }
      }
      untried := untried - {Numbered(stem, counter)};
      counter := counter + 1;
    }
    id := Numbered(stem, counter);
  }
}
