/**
 A vessel's composition: a mapping from chemical identifier to the cumulative
 amount poured. Identifiers are strings that do not name a property inherited
 from `Object.prototype`; an identifier that was never poured reads as 0, the
 way `(components[k] || 0)` does in the mixing engine.
 */
module Composition {

  type Chem = string

  type Components = map<Chem, int>

  /** The cumulative amount of `k`, 0 when `k` was never poured. */
  function Amount(c: Components, k: Chem): int
  {
    if k in c then c[k] else 0
  }

  /** JavaScript truthiness of `components[k]`: present and not 0. */
  predicate Present(c: Components, k: Chem)
  {
    Amount(c, k) != 0
  }

  /** Adds `amount` to the entry for `k`, creating it when absent. */
  function Add(c: Components, k: Chem, amount: int): (r: Components)
    ensures r.Keys == c.Keys + {k}
    ensures Amount(r, k) == Amount(c, k) + amount
    ensures forall j :: j != k ==> Amount(r, j) == Amount(c, j)
  {
    c[k := Amount(c, k) + amount]
  }

  /** No identifier is listed twice. */
  predicate NoDup(s: seq<Chem>)
  {
    forall i, j :: 0 <= i < j < |s| ==> s[i] != s[j]
  }

  /** The total of the amounts of the identifiers listed in `keys`. */
  function SumOver(keys: seq<Chem>, c: Components): int
  {
    if |keys| == 0 then 0
    else SumOver(keys[..|keys| - 1], c) + Amount(c, keys[|keys| - 1])
  }

  lemma SumOverSnoc(keys: seq<Chem>, k: Chem, c: Components)
    ensures SumOver(keys + [k], c) == SumOver(keys, c) + Amount(c, k)
  {
    assert (keys + [k])[..|keys|] == keys;
  }

  /** Adding to one identifier raises a sum over distinct identifiers by exactly
      that amount when the identifier is listed, and leaves it alone otherwise. */
  lemma {:induction false} SumOverAdd(keys: seq<Chem>, c: Components, k: Chem, amount: int)
    requires NoDup(keys)
    ensures SumOver(keys, Add(c, k, amount)) == SumOver(keys, c) + (if k in keys then amount else 0)
  {
    if |keys| > 0 {
      var init, last := keys[..|keys| - 1], keys[|keys| - 1];
      assert keys == init + [last];
      assert NoDup(init);
      SumOverAdd(init, c, k, amount);
      if k == last {
        assert k !in init by {
          forall i | 0 <= i < |init|
            ensures init[i] != k
          {
            assert keys[i] != keys[|keys| - 1];
          }
        }
      }
    }
  }
}
