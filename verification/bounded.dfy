/**
 * Bounded histories.  `collections.deque(maxlen=n).append(x)` drops entries from
 * the left until at most `n` remain, and the slice `xs[-n:]` keeps the `n` most
 * recent entries of a list.
 */
module Bounded {

  /** `xs[-n:]` for a list that is longer than `n`; the list itself otherwise. */
  function KeepLast<T>(xs: seq<T>, n: nat): (r: seq<T>)
    ensures |r| == if |xs| <= n then |xs| else n
    ensures r == xs[|xs| - |r|..]
  {
    if |xs| <= n then xs else xs[|xs| - n..]
  }

  /** `d.append(x)` on a `deque(maxlen=maxLen)` holding `d`. */
  function Append<T>(d: seq<T>, x: T, maxLen: nat): seq<T>
  {
    KeepLast(d + [x], maxLen)
  }

  /**
   * The deque never holds more than `maxLen` entries; below that bound `x` is simply
   * added at the right, at the bound the oldest entry makes room for it.
   */
  lemma AppendContents<T>(d: seq<T>, x: T, maxLen: nat)
    ensures |Append(d, x, maxLen)| == if |d| < maxLen then |d| + 1 else maxLen
    ensures |d| < maxLen ==> Append(d, x, maxLen) == d + [x]
    ensures 0 < maxLen && |d| == maxLen ==> Append(d, x, maxLen) == d[1..] + [x]
    ensures 0 < maxLen ==> Append(d, x, maxLen)[|Append(d, x, maxLen)| - 1] == x
  {
  }

  /** Appending to a full deque evicts exactly its oldest entry, and nothing else. */
  lemma {:induction false} AppendFullEvictsOldest<T>(d: seq<T>, x: T, maxLen: nat)
    requires 0 < maxLen == |d|
    ensures Append(d, x, maxLen)[..maxLen - 1] == d[1..]
    ensures multiset(Append(d, x, maxLen)) + multiset{d[0]} == multiset(d) + multiset{x}
  {
    var r := Append(d, x, maxLen);
    AppendContents(d, x, maxLen);
    assert r[..maxLen - 1] == d[1..];
    assert d == [d[0]] + d[1..];
    calc {
      multiset(r) + multiset{d[0]};
      multiset(d[1..]) + multiset{x} + multiset{d[0]};
      multiset([d[0]] + d[1..]) + multiset{x};
    }
  }
}
