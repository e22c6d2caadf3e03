/** Generic sequence operations: `Array.prototype.filter`, counting, subsequences. */
module Seqs {

  /** `sub` can be obtained from `s` by deleting elements, keeping the order of the rest. */
  ghost predicate IsSubsequence<T>(sub: seq<T>, s: seq<T>)
    decreases |s|
  {
    if sub == [] then true
    else if s == [] then false
    else if sub[0] == s[0] then IsSubsequence(sub[1..], s[1..])
    else IsSubsequence(sub, s[1..])
  }

  /** `s.filter(p)`: the elements satisfying `p`, in their original order. */
  function Filter<T>(s: seq<T>, p: T -> bool): (r: seq<T>)
    ensures |r| <= |s|
    ensures forall i | 0 <= i < |r| :: r[i] in s && p(r[i])
    ensures forall i | 0 <= i < |s| && p(s[i]) :: s[i] in r
    ensures IsSubsequence(r, s)
  {
    if s == [] then []
    else if p(s[0]) then [s[0]] + Filter(s[1..], p)
    else Filter(s[1..], p)
  }

  lemma {:induction false} FilterConcat<T>(a: seq<T>, b: seq<T>, p: T -> bool)
    ensures Filter(a + b, p) == Filter(a, p) + Filter(b, p)
  {
    if a != [] {
      assert (a + b)[1..] == a[1..] + b;
      FilterConcat(a[1..], b, p);
    } else {
      assert a + b == b;
    }
  }

  lemma {:induction false} FilterKeepsAll<T>(s: seq<T>, p: T -> bool)
    requires forall i | 0 <= i < |s| :: p(s[i])
    ensures Filter(s, p) == s
  {
    if s != [] {
      FilterKeepsAll(s[1..], p);
    }
  }

  lemma {:induction false} FilterDropsAll<T>(s: seq<T>, p: T -> bool)
    requires forall i | 0 <= i < |s| :: !p(s[i])
    ensures Filter(s, p) == []
  {
    if s != [] {
      FilterDropsAll(s[1..], p);
    }
  }

  /** `s` is ordered by `key`, largest first. */
  predicate Descending<T>(s: seq<T>, key: T -> int) {
    forall i, j | 0 <= i < j < |s| :: key(s[i]) >= key(s[j])
  }

  /** Filtering keeps a descending order. */
  lemma {:induction false} FilterDescending<T>(s: seq<T>, p: T -> bool, key: T -> int)
    requires Descending(s, key)
    ensures Descending(Filter(s, p), key)
    decreases |s|
  {
    if s != [] {
      var tail := s[1..];
      assert Descending(tail, key) by {
        forall i, j | 0 <= i < j < |tail| ensures key(tail[i]) >= key(tail[j]) {
          assert tail[i] == s[i + 1] && tail[j] == s[j + 1];
        }
      }
      FilterDescending(tail, p, key);
      var rest := Filter(tail, p);
      forall i | 0 <= i < |rest| ensures key(s[0]) >= key(rest[i]) {
        var k :| 0 <= k < |tail| && tail[k] == rest[i];
        assert tail[k] == s[k + 1];
      }
      if p(s[0]) {
        var r := [s[0]] + rest;
        assert Filter(s, p) == r;
        forall i, j | 0 <= i < j < |r| ensures key(r[i]) >= key(r[j]) {
          assert r[j] == rest[j - 1];
          if i > 0 {
            assert r[i] == rest[i - 1];
          }
        }
      } else {
        assert Filter(s, p) == rest;
      }
    }
  }

  /** Number of elements satisfying `p`: `s.filter(p).length`. */
  function Count<T>(s: seq<T>, p: T -> bool): (n: nat)
    ensures n <= |s|
    ensures n == |s| <==> forall i | 0 <= i < |s| :: p(s[i])
    ensures n == 0 <==> forall i | 0 <= i < |s| :: !p(s[i])
  {
    if s == [] then 0
    else (if p(s[0]) then 1 else 0) + Count(s[1..], p)
  }

  /** The count of a non-empty sequence is that of all but its last element, plus one when the last satisfies `p`. */
  lemma {:induction false} CountLast<T>(s: seq<T>, p: T -> bool)
    requires s != []
    ensures Count(s, p) == Count(s[..|s| - 1], p) + (if p(s[|s| - 1]) then 1 else 0)
  {
    if |s| == 1 {
      assert s[1..] == [] && s[..0] == [];
    } else {
      CountLast(s[1..], p);
      assert s[..|s| - 1][1..] == s[1..][..|s| - 2];
    }
  }

  /** Every element satisfies exactly one of two complementary tests. */
  lemma {:induction false} CountComplement<T>(s: seq<T>, p: T -> bool, q: T -> bool)
    requires forall i | 0 <= i < |s| :: q(s[i]) == !p(s[i])
    ensures Count(s, p) + Count(s, q) == |s|
  {
    if s != [] {
      CountComplement(s[1..], p, q);
    }
  }

  function Min(a: int, b: int): (m: int)
    ensures m <= a && m <= b && (m == a || m == b)
  {
    if a <= b then a else b
  }

  /** `s.slice(0, n)` for non-negative `n`. */
  function Take<T>(s: seq<T>, n: nat): (r: seq<T>)
    ensures |r| == Min(n, |s|)
    ensures forall i | 0 <= i < |r| :: r[i] == s[i]
  {
    if n <= |s| then s[..n] else s
  }
}
