/**
 * Order-preserving selection from a sequence (`Array.prototype.filter`) and
 * the facts about it that the ticket views and the server table rely on.
 */
module Seqs {

  /** `a` can be obtained from `b` by deleting elements, keeping the order of the rest. */
  ghost predicate IsSubsequence<T>(a: seq<T>, b: seq<T>)
    decreases |b|
  {
    if a == [] then true
    else if b == [] then false
    else (a[0] == b[0] && IsSubsequence(a[1..], b[1..])) || IsSubsequence(a, b[1..])
  }

  /** No element occurs twice. */
  predicate NoDuplicates<T(==)>(s: seq<T>)
  {
    forall i, j :: 0 <= i < |s| && 0 <= j < |s| && s[i] == s[j] ==> i == j
  }

  /** `s.filter(p)`: the elements of `s` that satisfy `p`, in their original order. */
  function Keep<T(==)>(s: seq<T>, p: T -> bool): (r: seq<T>)
    ensures |r| <= |s|
    ensures forall i :: 0 <= i < |r| ==> r[i] in s && p(r[i])
    ensures forall i :: 0 <= i < |s| && p(s[i]) ==> s[i] in r
  {
    if s == [] then []
    else if p(s[0]) then
      var r := [s[0]] + Keep(s[1..], p);
      assert r[1..] == Keep(s[1..], p);
      r
    else Keep(s[1..], p)
  }

  /** The filtered list is a subsequence of the list: nothing is reordered or repeated. */
  lemma {:induction false} KeepIsSubsequence<T>(s: seq<T>, p: T -> bool)
    ensures IsSubsequence(Keep(s, p), s)
  {
    if s != [] {
      KeepIsSubsequence(s[1..], p);
      if p(s[0]) {
        var r := Keep(s, p);
        assert r[0] == s[0] && r[1..] == Keep(s[1..], p);
      }
    }
  }

  /**
   * The filtered list takes nothing the list does not have, and keeps every
   * occurrence of an element that passes: repeats included.
   */
  lemma {:induction false} KeepMultiset<T>(s: seq<T>, p: T -> bool)
    ensures multiset(Keep(s, p)) <= multiset(s)
    ensures forall x :: x in s && p(x) ==> multiset(Keep(s, p))[x] == multiset(s)[x]
  {
    if s != [] {
      KeepMultiset(s[1..], p);
      KeepCons(s[0], s[1..], p);
      assert s == [s[0]] + s[1..];
    }
  }

  /** Filtering keeps everything exactly when every element passes. */
  lemma {:induction false} KeepAllIff<T>(s: seq<T>, p: T -> bool)
    ensures Keep(s, p) == s <==> forall i :: 0 <= i < |s| ==> p(s[i])
  {
    if s != [] {
      KeepAllIff(s[1..], p);
      if p(s[0]) {
        assert Keep(s, p) == [s[0]] + Keep(s[1..], p);
        assert s == [s[0]] + s[1..];
      } else {
        assert s[0] !in Keep(s, p);
      }
    }
  }

  /** Filtering a second time with the same test changes nothing. */
  lemma KeepIdempotent<T>(s: seq<T>, p: T -> bool)
    ensures Keep(Keep(s, p), p) == Keep(s, p)
  {
    KeepAllIff(Keep(s, p), p);
  }

  /** Filtering with two tests is filtering with their conjunction. */
  lemma {:induction false} KeepKeep<T>(s: seq<T>, p: T -> bool, q: T -> bool)
    ensures Keep(Keep(s, p), q) == Keep(s, x => p(x) && q(x))
  {
    if s != [] {
      KeepKeep(s[1..], p, q);
    }
  }

  /** Filtering with tests that agree on every element of `s` gives the same result. */
  lemma {:induction false} KeepCongruent<T>(s: seq<T>, p: T -> bool, q: T -> bool)
    requires forall i :: 0 <= i < |s| ==> p(s[i]) == q(s[i])
    ensures Keep(s, p) == Keep(s, q)
  {
    if s != [] {
      KeepCongruent(s[1..], p, q);
    }
  }

  /** Filtering a list without duplicates gives a list without duplicates. */
  lemma {:induction false} KeepNoDuplicates<T>(s: seq<T>, p: T -> bool)
    requires NoDuplicates(s)
    ensures NoDuplicates(Keep(s, p))
  {
    if s != [] {
      var t := s[1..];
      assert NoDuplicates(t) by {
        forall i, j | 0 <= i < |t| && 0 <= j < |t| && t[i] == t[j]
          ensures i == j
        {
          assert s[i + 1] == s[j + 1];
        }
      }
      KeepNoDuplicates(t, p);
      assert s[0] !in t by {
        forall i | 0 <= i < |t|
          ensures t[i] != s[0]
        {
          assert s[i + 1] == t[i];
        }
      }
    }
  }

  /** One step of `filter` on a list with a first element. */
  lemma KeepCons<T>(x: T, s: seq<T>, p: T -> bool)
    ensures Keep([x] + s, p) == (if p(x) then [x] else []) + Keep(s, p)
  {
    assert ([x] + s)[1..] == s;
  }

  /** When only the first element passes, filtering leaves that element alone. */
  lemma KeepOnlyFirst<T>(s: seq<T>, p: T -> bool)
    requires s != [] && p(s[0])
    requires forall i :: 1 <= i < |s| ==> !p(s[i])
    ensures Keep(s, p) == [s[0]]
  {
    assert Keep(s[1..], p) == [];
  }

  /**
   * When every element passes exactly one of three tests, the three
   * filtered lists together are as long as the list.
   */
  lemma {:induction false} KeepPartition3<T>(s: seq<T>, p: T -> bool, q: T -> bool, r: T -> bool)
    requires forall i :: 0 <= i < |s| ==> if p(s[i]) then !q(s[i]) && !r(s[i]) else q(s[i]) != r(s[i])
    ensures |Keep(s, p)| + |Keep(s, q)| + |Keep(s, r)| == |s|
  {
    if s != [] {
      KeepPartition3(s[1..], p, q, r);
    }
  }

  /** `s[::-1]`: the elements of `s` in reverse order. */
  function Reverse<T>(s: seq<T>): (r: seq<T>)
    ensures |r| == |s|
    ensures forall i :: 0 <= i < |s| ==> r[i] == s[|s| - 1 - i]
  {
    if s == [] then [] else Reverse(s[1..]) + [s[0]]
  }

  /** Filtering distributes over concatenation. */
  lemma {:induction false} KeepAppend<T>(a: seq<T>, b: seq<T>, p: T -> bool)
    ensures Keep(a + b, p) == Keep(a, p) + Keep(b, p)
  {
    if a == [] {
      assert a + b == b;
    } else {
      var x, t := a[0], a[1..];
      assert a == [x] + t;
      assert a + b == [x] + (t + b);
      KeepAppend(t, b, p);
      KeepCons(x, t + b, p);
      KeepCons(x, t, p);
    }
  }

  /** Filtering the reversed list is reversing the filtered list. */
  lemma {:induction false} KeepReverse<T>(s: seq<T>, p: T -> bool)
    ensures Keep(Reverse(s), p) == Reverse(Keep(s, p))
  {
    if s != [] {
      KeepReverse(s[1..], p);
      KeepAppend(Reverse(s[1..]), [s[0]], p);
      if p(s[0]) {
        var k := Keep(s, p);
        assert k[1..] == Keep(s[1..], p);
      }
    }
  }

  /** A list without duplicates has as many distinct elements as positions. */
  lemma {:induction false} DistinctCount<T>(s: seq<T>)
    requires NoDuplicates(s)
    ensures |set x | x in s| == |s|
  {
    if s != [] {
      var t := s[1..];
      assert NoDuplicates(t) by {
        forall i, j | 0 <= i < |t| && 0 <= j < |t| && t[i] == t[j]
          ensures i == j
        {
          assert s[i + 1] == s[j + 1];
        }
      }
      DistinctCount(t);
      assert s[0] !in t by {
        forall i | 0 <= i < |t|
          ensures t[i] != s[0]
        {
          assert s[i + 1] == t[i];
        }
      }
      assert (set x | x in s) == (set x | x in t) + {s[0]};
    }
  }
}
