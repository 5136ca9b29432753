/**
 * Bounded queues with the semantics of Python's `collections.deque(maxlen=m)`:
 * `append` adds at the right end and, once the deque holds `m` elements,
 * discards the leftmost (oldest) one.
 */
module Deque {

  /** The last min(|s|, n) elements of `s`, in their original order. */
  function LastN<T>(s: seq<T>, n: nat): seq<T>
  {
    if |s| <= n then s else s[|s| - n..]
  }

  /** `deque.append(x)` on a deque `s` whose bound is `maxlen`. */
  function Append<T>(s: seq<T>, x: T, maxlen: nat): (r: seq<T>)
    requires |s| <= maxlen
    ensures |r| == if |s| < maxlen then |s| + 1 else maxlen
  {
    if maxlen == 0 then []
    else if |s| == maxlen then s[1..] + [x]
    else s + [x]
  }

  /** Appending `xs` one element at a time, left to right. */
  function AppendAll<T>(s: seq<T>, xs: seq<T>, maxlen: nat): (r: seq<T>)
    requires |s| <= maxlen
    ensures |r| <= maxlen
    decreases |xs|
  {
    if xs == [] then s else AppendAll(Append(s, xs[0], maxlen), xs[1..], maxlen)
  }

  /** Below the bound, append is a plain append: nothing is evicted. */
  lemma AppendBelowBound<T>(s: seq<T>, x: T, maxlen: nat)
    requires |s| < maxlen
    ensures Append(s, x, maxlen) == s + [x]
  {
  }

  /**
   * On a full deque (and a positive bound), append evicts exactly the oldest
   * element, puts `x` at the tail and keeps the length at the bound.
   */
  lemma AppendWhenFull<T>(s: seq<T>, x: T, maxlen: nat)
    requires 0 < maxlen && |s| == maxlen
    ensures |Append(s, x, maxlen)| == maxlen
    ensures Append(s, x, maxlen) == s[1..] + [x]
    ensures Append(s, x, maxlen)[maxlen - 1] == x
    ensures forall i :: 0 <= i < maxlen - 1 ==> Append(s, x, maxlen)[i] == s[i + 1]
  {
  }

  /** Append agrees with the reference definition "keep the last maxlen of s + [x]". */
  lemma AppendIsLastN<T>(s: seq<T>, x: T, maxlen: nat)
    requires |s| <= maxlen
    ensures Append(s, x, maxlen) == LastN(s + [x], maxlen)
  {
  }

  /** Taking the window first and then appending gives the window of the whole history. */
  lemma AppendKeepsWindow<T>(h: seq<T>, x: T, maxlen: nat)
    ensures Append(LastN(h, maxlen), x, maxlen) == LastN(h + [x], maxlen)
  {
  }

  /**
   * After appending `xs` one by one to the window of `h`, the deque holds the
   * window of `h + xs`.
   */
  lemma {:induction false} AppendAllKeepsWindow<T>(h: seq<T>, xs: seq<T>, maxlen: nat)
    ensures AppendAll(LastN(h, maxlen), xs, maxlen) == LastN(h + xs, maxlen)
    decreases |xs|
  {
    if xs == [] {
      assert h + xs == h;
    } else {
      var x, rest := xs[0], xs[1..];
      var h1 := h + [x];
      assert xs == [x] + rest;
      assert h1 + rest == h + xs;
      calc {
        AppendAll(LastN(h, maxlen), xs, maxlen);
        AppendAll(Append(LastN(h, maxlen), x, maxlen), rest, maxlen);
        { AppendKeepsWindow(h, x, maxlen); }
        AppendAll(LastN(h1, maxlen), rest, maxlen);
        { AppendAllKeepsWindow(h1, rest, maxlen); }
        LastN(h1 + rest, maxlen);
      }
    }
  }

  /**
   * Starting from an empty deque, k appends leave the last min(k, maxlen)
   * appended elements, oldest first.
   */
  lemma FreshDequeHoldsLastAppends<T>(xs: seq<T>, maxlen: nat)
    ensures AppendAll([], xs, maxlen) == LastN(xs, maxlen)
    ensures |AppendAll([], xs, maxlen)| == if |xs| <= maxlen then |xs| else maxlen
  {
    AppendAllKeepsWindow([], xs, maxlen);
    assert [] + xs == xs;
  }
}
