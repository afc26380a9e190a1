/** Python list indexing, `list.insert`, `del` and `next(...)` searches, on
    sequences. */
module PyList {
  import opened Wrappers

  /** `xs[i]` on a list of length `n`: a negative index counts from the end;
      `None` stands for IndexError. */
  function ResolveIndex(i: int, n: nat): (r: Option<nat>)
    ensures r.Some? <==> 0 <= i + n && i < n
    ensures r.Some? ==> r.value < n && r.value % n == i % n
  {
    if 0 <= i < n then Some(i) else if 0 <= i + n && i < 0 then Some(i + n) else None
  }

  /** Every element is reachable by exactly its two in-range indices. */
  lemma ResolveIndexFromEnd(k: nat, n: nat)
    requires k < n
    ensures ResolveIndex(k, n) == Some(k) && ResolveIndex(k - n, n) == Some(k)
  {
  }

  /** The position `list.insert(i, x)` uses: a negative index counts from the
      end, and anything out of range is clipped to the nearest end. */
  function InsertPosition(i: int, n: nat): (p: nat)
    ensures p <= n
    ensures 0 <= i <= n ==> p == i
    ensures i > n ==> p == n
    ensures 0 <= i + n && i < 0 ==> p == i + n
    ensures i + n < 0 ==> p == 0
  {
    if i < 0 then (if i + n < 0 then 0 else i + n) else if i > n then n else i
  }

  /** `list.insert(i, x)`. */
  function InsertAt<T>(s: seq<T>, i: int, x: T): (r: seq<T>)
    ensures |r| == |s| + 1
    ensures r[InsertPosition(i, |s|)] == x
    ensures r[..InsertPosition(i, |s|)] == s[..InsertPosition(i, |s|)]
    ensures r[InsertPosition(i, |s|) + 1..] == s[InsertPosition(i, |s|)..]
  {
    var p := InsertPosition(i, |s|);
    s[..p] + [x] + s[p..]
  }

  /** `del xs[k]` for a resolved index `k`. */
  function RemoveAt<T>(s: seq<T>, k: nat): (r: seq<T>)
    requires k < |s|
    ensures |r| == |s| - 1
    ensures forall j :: 0 <= j < k ==> r[j] == s[j]
    ensures forall j :: k <= j < |r| ==> r[j] == s[j + 1]
  {
    s[..k] + s[k + 1..]
  }

  /** Removing and re-inserting an element keeps the multiset of elements. */
  lemma RemoveInsertPermutes<T>(s: seq<T>, k: nat, i: int)
    requires k < |s|
    ensures multiset(InsertAt(RemoveAt(s, k), i, s[k])) == multiset(s)
  {
    var t := RemoveAt(s, k);
    var p := InsertPosition(i, |t|);
    assert s == s[..k] + [s[k]] + s[k + 1..];
    assert t == t[..p] + t[p..];
    assert InsertAt(t, i, s[k]) == t[..p] + [s[k]] + t[p..];
    calc {
      multiset(InsertAt(t, i, s[k]));
      multiset(t[..p]) + multiset{s[k]} + multiset(t[p..]);
      multiset(t) + multiset{s[k]};
      multiset(s[..k]) + multiset(s[k + 1..]) + multiset{s[k]};
      multiset(s);
    }
  }

  /** The first index holding `x`, as `next(i for i, y in enumerate(s) if y == x)`
      finds it; `None` when there is none. */
  function FirstIndex<T(==)>(s: seq<T>, x: T): (r: Option<nat>)
    ensures r.None? <==> x !in s
    ensures r.Some? ==> r.value < |s| && s[r.value] == x && x !in s[..r.value]
  {
    if |s| == 0 then None
    else if s[0] == x then Some(0)
    else
      var rest := FirstIndex(s[1..], x);
      if rest.None? then None else Some(rest.value + 1)
  }
}
