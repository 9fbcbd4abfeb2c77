/**
 * The marquee (components/ui/Marquee.tsx): its items laid out four times in
 * a row so that the scrolling strip loops seamlessly.
 */
module Marquee {

  /** `n` copies of `items`, one after another. */
  function Repeat<T>(items: seq<T>, n: nat): (r: seq<T>)
    ensures |r| == n * |items|
    decreases n
  {
    if n == 0 then [] else items + Repeat(items, n - 1)
  }

  /** `[...items, ...items, ...items, ...items]`. */
  function Content<T>(items: seq<T>): seq<T>
  {
    items + items + items + items
  }

  /** Position `k` of the repetition holds the item at `k` modulo the number of items. */
  lemma {:induction false} RepeatIndex<T>(items: seq<T>, n: nat, k: nat)
    requires k < n * |items|
    ensures Repeat(items, n)[k] == items[k % |items|]
    decreases n
  {
    var m := |items|;
    var r := Repeat(items, n);
    assert n != 0;
    assert r == items + Repeat(items, n - 1);
    if k < m {
      ModUnique(k, m, 0, k);
    } else {
      assert n != 1;
      assert (n - 1) * m == n * m - m;
      RepeatIndex(items, n - 1, k - m);
      ModStep(k, m);
    }
  }

  /** Taking off one period does not change the remainder. */
  lemma ModStep(k: int, m: int)
    requires m > 0 && k >= m
    ensures (k - m) % m == k % m
  {
    var q := (k - m) / m;
    var r := (k - m) % m;
    assert k == (q + 1) * m + r;
    ModUnique(k, m, q + 1, r);
  }

  lemma MulAtLeast(x: int, m: int)
    requires x >= 1 && m > 0
    ensures x * m >= m
  {
  }

  /** The remainder is the unique `r` in `0 .. m` with `a == q * m + r`. */
  lemma ModUnique(a: int, m: int, q: int, r: int)
    requires m > 0 && 0 <= r < m && a == q * m + r
    ensures a % m == r
  {
    var q' := a / m;
    var r' := a % m;
    assert a == q' * m + r';
    assert (q - q') * m == r' - r by {
      assert (q - q') * m == q * m - q' * m;
    }
    if q > q' {
      MulAtLeast(q - q', m);
    } else if q < q' {
      MulAtLeast(q' - q, m);
    }
  }

  /**
   * The strip is the items four times over, in order: four times as long,
   * position `k` showing item `k mod n`, and empty for no items.
   */
  lemma ContentFaithful<T>(items: seq<T>)
    ensures Content(items) == Repeat(items, 4)
    ensures |Content(items)| == 4 * |items|
    ensures forall k :: 0 <= k < |Content(items)| ==> Content(items)[k] == items[k % |items|]
    ensures items == [] ==> Content(items) == []
  {
    assert Repeat(items, 1) == items + [];
    assert Repeat(items, 4) == items + (items + (items + (items + [])));
    forall k | 0 <= k < |Content(items)|
      ensures Content(items)[k] == items[k % |items|]
    {
      RepeatIndex(items, 4, k);
    }
  }
}
