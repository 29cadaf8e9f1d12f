/** Small datatypes and sequence facts shared by the component models. */
module Common {
  datatype Option<+T> = None | Some(value: T)

  // ---- 64-bit integers: arithmetic wraps around ----

  const MAX_INT := 0x7FFF_FFFF_FFFF_FFFF
  const MIN_INT := -0x8000_0000_0000_0000

  predicate Fits(n: int) { MIN_INT <= n <= MAX_INT }

  function Wrap(n: int): int {
    (n - MIN_INT) % 0x1_0000_0000_0000_0000 + MIN_INT
  }

  // ---- Sequences, counters and sets ----

  /** The members of s that satisfy p, in their original order. */
  function Filter<T>(s: seq<T>, p: T -> bool): seq<T> {
    if s == [] then []
    else Filter(s[..|s| - 1], p) + (if p(s[|s| - 1]) then [s[|s| - 1]] else [])
  }

  /** One more element at the end: the step every source loop takes. */
  lemma FilterStep<T>(s: seq<T>, i: nat, p: T -> bool)
    requires i < |s|
    ensures Filter(s[..i + 1], p) == Filter(s[..i], p) + (if p(s[i]) then [s[i]] else [])
  {
    assert s[..i + 1][..i] == s[..i];
  }

  lemma {:induction false} FilterMember<T>(s: seq<T>, p: T -> bool, x: T)
    ensures x in Filter(s, p) <==> x in s && p(x)
  {
    if s != [] {
      FilterMember(s[..|s| - 1], p, x);
      assert s == s[..|s| - 1] + [s[|s| - 1]];
    }
  }

  lemma {:induction false} FilterAgree<T>(s: seq<T>, p: T -> bool, q: T -> bool)
    requires forall i :: 0 <= i < |s| ==> p(s[i]) == q(s[i])
    ensures Filter(s, p) == Filter(s, q)
  {
    if s != [] {
      FilterAgree(s[..|s| - 1], p, q);
    }
  }

  /** Filtering keeps any pairwise order. */
  lemma {:induction false} FilterKeepsOrder<T>(s: seq<T>, p: T -> bool, le: (T, T) -> bool)
    requires forall i, j :: 0 <= i < j < |s| ==> le(s[i], s[j])
    ensures forall i, j :: 0 <= i < j < |Filter(s, p)| ==> le(Filter(s, p)[i], Filter(s, p)[j])
  {
    if s != [] {
      var front, last := s[..|s| - 1], s[|s| - 1];
      FilterKeepsOrder(front, p, le);
      var r := Filter(front, p);
      forall i | 0 <= i < |r| ensures le(r[i], last) {
        FilterMember(front, p, r[i]);
        var k :| 0 <= k < |front| && front[k] == r[i];
        assert s[k] == r[i];
      }
    }
  }

  /** Counters kept per key; a key never counted stands at zero. */
  function Count<K>(m: map<K, nat>, k: K): nat {
    if k in m then m[k] else 0
  }

  function Bump<K(!new)>(m: map<K, nat>, k: K): (r: map<K, nat>)
    ensures forall j :: Count(r, j) == Count(m, j) + (if j == k then 1 else 0)
  {
    m[k := Count(m, k) + 1]
  }

  /** Two sets that differ at most in one element. */
  lemma SizesDifferByOne<T>(a: set<T>, b: set<T>, x: T)
    requires a - {x} == b - {x}
    ensures |a| + (if x in b then 1 else 0) == |b| + (if x in a then 1 else 0)
  {
    assert a == (a - {x}) + (if x in a then {x} else {});
    assert b == (b - {x}) + (if x in b then {x} else {});
  }
}
