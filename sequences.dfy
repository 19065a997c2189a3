/** Facts about sequences used by several components: distinctness, order of a set, reversal. */
module Sequences {
  /** No element occurs twice. */
  ghost predicate Distinct<T>(s: seq<T>) {
    forall i, j :: 0 <= i < j < |s| ==> s[i] != s[j]
  }

  /** `order` lists every element of `elems` exactly once: one possible iteration order of a set. */
  ghost predicate IsOrderOf<T(!new)>(order: seq<T>, elems: set<T>) {
    Distinct(order) && (forall x :: x in order <==> x in elems)
  }

  function Reverse<T>(s: seq<T>): (r: seq<T>)
    ensures |r| == |s|
  {
    if s == [] then [] else Reverse(s[1..]) + [s[0]]
  }

  /** Element k of the reversal is element |s|-1-k of the original. */
  lemma {:induction false} ReverseAt<T>(s: seq<T>, k: nat)
    requires k < |s|
    ensures Reverse(s)[k] == s[|s| - 1 - k]
  {
    if k < |s| - 1 {
      ReverseAt(s[1..], k);
    }
  }

  /** A sequence without repetitions has as many elements as the set of its elements. */
  lemma {:induction false} DistinctCardinality<T>(s: seq<T>)
    requires Distinct(s)
    ensures |set x | x in s| == |s|
  {
    if s != [] {
      var rest := s[1..];
      assert Distinct(rest) by {
        forall i, j | 0 <= i < j < |rest| ensures rest[i] != rest[j] {
          assert rest[i] == s[i + 1] && rest[j] == s[j + 1];
        }
      }
      DistinctCardinality(rest);
      assert s[0] !in rest by {
        forall i | 0 <= i < |rest| ensures rest[i] != s[0] {
          assert rest[i] == s[i + 1];
        }
      }
      assert (set x | x in s) == (set x | x in rest) + {s[0]} by {
        forall x ensures x in s <==> x in rest || x == s[0] {
          if x in s && x != s[0] {
            var i :| 0 <= i < |s| && s[i] == x;
            assert rest[i - 1] == x;
          }
        }
      }
    }
  }

  /** An iteration order of a set has exactly as many entries as the set. */
  lemma OrderLength<T(!new)>(order: seq<T>, elems: set<T>)
    requires IsOrderOf(order, elems)
    ensures |order| == |elems|
  {
    DistinctCardinality(order);
    assert (set x | x in order) == elems;
  }

  /** A sequence of distinct elements, all drawn from `elems`, is no longer than the set. */
  lemma DistinctWithin<T>(s: seq<T>, elems: set<T>)
    requires Distinct(s)
    requires forall i :: 0 <= i < |s| ==> s[i] in elems
    ensures |s| <= |elems|
  {
    DistinctCardinality(s);
    var used := set x | x in s;
    assert used <= elems;
    assert elems == used + (elems - used);
    assert |elems| == |used| + |elems - used|;
  }
}
