/** Pages of a list, as every paginated query of the protocol cuts them. */
module Paging {
  import opened Base

  /** At most `limit` elements from position `offset`. */
  function Page<T>(xs: seq<T>, offset: nat, limit: nat): seq<T> {
    if offset >= |xs| then [] else xs[offset..Min(offset + limit, |xs|)]
  }

  /** A page grows with the list until it is full, and then stays. */
  lemma PageSnoc<T>(xs: seq<T>, x: T, offset: nat, limit: nat)
    ensures Page(xs + [x], offset, limit)
         == Page(xs, offset, limit) + if |xs| >= offset && |Page(xs, offset, limit)| < limit then [x] else []
  {
  }

  lemma PageFull<T>(xs: seq<T>, ys: seq<T>, offset: nat, limit: nat)
    requires |Page(xs, offset, limit)| >= limit || limit == 0
    ensures Page(xs + ys, offset, limit) == Page(xs, offset, limit)
  {
  }

  /** The first `n` pages, one after the other. */
  function Pages<T>(xs: seq<T>, size: nat, n: nat): seq<T> {
    if n == 0 then [] else Pages(xs, size, n - 1) + Page(xs, (n - 1) * size, size)
  }

  /** Consecutive pages tile the list: no element is skipped, repeated or reordered. */
  lemma {:induction false} PagesTile<T>(xs: seq<T>, size: nat, n: nat)
    ensures Pages(xs, size, n) == xs[..Min(n * size, |xs|)]
  {
    if n > 0 {
      PagesTile(xs, size, n - 1);
      assert n * size == (n - 1) * size + size;
    }
  }

  /** Enough pages give the whole list. */
  lemma AllPages<T>(xs: seq<T>, size: nat, n: nat)
    requires n * size >= |xs|
    ensures Pages(xs, size, n) == xs
  {
    PagesTile(xs, size, n);
  }
}
