/**
 * How TraktIO cuts a pending buffer into pages (TraktIO.py:358-368 and 414-425):
 * `for i in range(0, total, page_size): batch = buffer[i : i + page_size]`.
 */
module Batching {

  /** A `page_size`: `range(0, total, 0)` raises, so a page holds at least one item. */
  type PageSize = n: nat | 0 < n witness 1

  function Min(a: int, b: int): int {
    if a <= b then a else b
  }

  /**
   * The pages of `s` from offset `off` on: `s[off : off + size]`, then the pages from the
   * next offset, until the offset reaches the end.
   */
  function PagesFrom<T>(s: seq<T>, size: nat, off: nat): seq<seq<T>>
    requires size > 0 && off <= |s|
    decreases |s| - off
  {
    if off == |s| then [] else [s[off..Min(off + size, |s|)]] + PagesFrom(s, size, Min(off + size, |s|))
  }

  /** The pages of `s`, in order: all of size `size` except a shorter last one. */
  function Batches<T>(s: seq<T>, size: nat): seq<seq<T>>
    requires size > 0
  {
    PagesFrom(s, size, 0)
  }

  /** `((total - 1) // page_size + 1) if total > 0 else 0`, the count TraktIO logs. */
  function BatchCount(total: nat, size: nat): nat
    requires size > 0
  {
    if total > 0 then (total - 1) / size + 1 else 0
  }

  function Flatten<T>(batches: seq<seq<T>>): seq<T> {
    if batches == [] then [] else batches[0] + Flatten(batches[1..])
  }

  /** The items of the first `k` pages, in order. */
  function Joined<T>(batches: seq<seq<T>>, k: nat): seq<T>
    requires k <= |batches|
  {
    if k == 0 then [] else Joined(batches, k - 1) + batches[k - 1]
  }

  lemma {:induction false} JoinedAfterFirst<T>(batches: seq<seq<T>>, k: nat)
    requires 0 < k <= |batches|
    ensures Joined(batches, k) == batches[0] + Joined(batches[1..], k - 1)
  {
    if k > 1 {
      JoinedAfterFirst(batches, k - 1);
      assert batches[1..][k - 2] == batches[k - 1];
    }
  }

  /** Joining all pages is flattening them. */
  lemma {:induction false} JoinedAll<T>(batches: seq<seq<T>>)
    ensures Joined(batches, |batches|) == Flatten(batches)
    decreases |batches|
  {
    if batches != [] {
      JoinedAfterFirst(batches, |batches|);
      JoinedAll(batches[1..]);
    }
  }

  lemma BatchCountStep(total: nat, size: nat)
    requires size > 0 && total > size
    ensures BatchCount(total, size) == 1 + BatchCount(total - size, size)
  {
    var q := (total - size - 1) / size;
    DivBounds(total - size - 1, size);
    assert (q + 1) * size == q * size + size;
    DivBetween(total - 1, size, q + 1);
  }

  /** The first page from `off`, and the pages after it. */
  lemma PagesFromUnfold<T>(s: seq<T>, size: nat, off: nat)
    requires size > 0 && off < |s|
    ensures var next := Min(off + size, |s|);
      && |PagesFrom(s, size, off)| == 1 + |PagesFrom(s, size, next)|
      && PagesFrom(s, size, off)[0] == s[off..next]
      && PagesFrom(s, size, off)[1..] == PagesFrom(s, size, next)
  {
  }

  lemma {:induction false} PagesFlatten<T>(s: seq<T>, size: nat, off: nat)
    requires size > 0 && off <= |s|
    ensures Flatten(PagesFrom(s, size, off)) == s[off..]
    decreases |s| - off
  {
    if off < |s| {
      var next := Min(off + size, |s|);
      PagesFromUnfold(s, size, off);
      PagesFlatten(s, size, next);
      assert s[off..] == s[off..next] + s[next..];
    }
  }

  lemma {:induction false} PagesCount<T>(s: seq<T>, size: nat, off: nat)
    requires size > 0 && off <= |s|
    ensures |PagesFrom(s, size, off)| == BatchCount(|s| - off, size)
    decreases |s| - off
  {
    if off < |s| {
      var next := Min(off + size, |s|);
      PagesFromUnfold(s, size, off);
      PagesCount(s, size, next);
      if |s| - off > size {
        BatchCountStep(|s| - off, size);
      }
    }
  }

  lemma {:induction false} PagesSizes<T>(s: seq<T>, size: nat, off: nat)
    requires size > 0 && off <= |s|
    ensures forall k :: 0 <= k < |PagesFrom(s, size, off)| ==> 0 < |PagesFrom(s, size, off)[k]| <= size
    ensures forall k :: 0 <= k < |PagesFrom(s, size, off)| - 1 ==> |PagesFrom(s, size, off)[k]| == size
    decreases |s| - off
  {
    if off < |s| {
      var next := Min(off + size, |s|);
      PagesFromUnfold(s, size, off);
      PagesSizes(s, size, next);
      var ps := PagesFrom(s, size, off);
      var rest := PagesFrom(s, size, next);
      forall k | 0 <= k < |ps| ensures 0 < |ps[k]| <= size && (k < |ps| - 1 ==> |ps[k]| == size) {
        if k > 0 {
          assert ps[k] == rest[k - 1];
        } else if |ps| > 1 {
          assert next < |s|;
        }
      }
    }
  }

  /**
   * The pages cover the buffer exactly once and in order, every page holds between one
   * and `size` items, all but the last hold exactly `size`, and there are
   * BatchCount(|s|, size) of them (none for an empty buffer).
   */
  lemma BatchesPartition<T>(s: seq<T>, size: nat)
    requires size > 0
    ensures Flatten(Batches(s, size)) == s
    ensures |Batches(s, size)| == BatchCount(|s|, size)
    ensures forall k :: 0 <= k < |Batches(s, size)| ==> 0 < |Batches(s, size)[k]| <= size
    ensures forall k :: 0 <= k < |Batches(s, size)| - 1 ==> |Batches(s, size)[k]| == size
  {
    PagesFlatten(s, size, 0);
    assert s[0..] == s;
    PagesCount(s, size, 0);
    PagesSizes(s, size, 0);
  }

  /** `k * size`, written as repeated addition so that the page proofs stay linear. */
  function Scaled(k: nat, size: nat): nat {
    if k == 0 then 0 else Scaled(k - 1, size) + size
  }

  lemma {:induction false} ScaledIsProduct(k: nat, size: nat)
    ensures Scaled(k, size) == k * size
  {
    if k > 0 {
      ScaledIsProduct(k - 1, size);
      assert k * size == (k - 1) * size + size;
    }
  }

  /** Page `k` from `off` is the slice at offset `off + k * size`. */
  lemma {:induction false} PagesAt<T>(s: seq<T>, size: nat, off: nat, k: nat)
    requires size > 0 && off + Scaled(k, size) < |s|
    ensures k < |PagesFrom(s, size, off)|
    ensures PagesFrom(s, size, off)[k] == s[off + Scaled(k, size)..Min(off + Scaled(k, size) + size, |s|)]
    decreases k
  {
    PagesFromUnfold(s, size, off);
    if k > 0 {
      var next := off + size;
      assert Min(off + size, |s|) == next;
      PagesAt(s, size, next, k - 1);
      assert PagesFrom(s, size, off)[k] == PagesFrom(s, size, next)[k - 1];
      assert next + Scaled(k - 1, size) == off + Scaled(k, size);
    }
  }

  /** Page `k` is the slice the loop takes at offset `k * size`. */
  lemma BatchAt<T>(s: seq<T>, size: nat, k: nat)
    requires size > 0 && Scaled(k, size) < |s|
    ensures k < |Batches(s, size)|
    ensures Batches(s, size)[k] == s[Scaled(k, size)..Min(Scaled(k, size) + size, |s|)]
  {
    PagesAt(s, size, 0, k);
  }

  /** Once the offset passes the end, every page has been taken. */
  lemma BatchesExhausted<T>(s: seq<T>, size: nat, k: nat)
    requires size > 0 && Scaled(k, size) >= |s| && (k == 0 || Scaled(k - 1, size) < |s|)
    ensures |Batches(s, size)| == k
  {
    BatchesPartition(s, size);
    ScaledIsProduct(k, size);
    if k > 0 {
      ScaledIsProduct(k - 1, size);
      assert (|s| - 1) / size == k - 1 by {
        assert (k - 1) * size <= |s| - 1 < (k - 1) * size + size;
        DivBetween(|s| - 1, size, k - 1);
      }
    }
  }

  lemma DivBounds(x: nat, size: nat)
    requires size > 0
    ensures (x / size) * size <= x < (x / size) * size + size
  {
    assert x == (x / size) * size + x % size;
  }

  lemma MulAtLeast(t: int, c: int)
    requires t >= 1 && c >= 0
    ensures t * c >= c
  {
    var u := t - 1;
    assert t * c == c + u * c;
  }

  lemma DivBetween(x: nat, size: nat, q: nat)
    requires size > 0 && q * size <= x < q * size + size
    ensures x / size == q
  {
    DivBounds(x, size);
    var d := x / size;
    var t := d - q;
    assert d * size - q * size == t * size;
    if t >= 1 {
      MulAtLeast(t, size);
    } else if t <= -1 {
      MulAtLeast(-t, size);
    }
  }

  /** The worked example of 120 items in pages of 50: three pages of 50, 50 and 20. */
  lemma OneHundredTwentyInFifties<T>(s: seq<T>)
    requires |s| == 120
    ensures |Batches(s, 50)| == 3
    ensures |Batches(s, 50)[0]| == 50 && |Batches(s, 50)[1]| == 50 && |Batches(s, 50)[2]| == 20
  {
    BatchesPartition(s, 50);
    BatchAt(s, 50, 2);
  }
}
