/**
 * The merge step of the `/numbers` endpoint (numbers/app.py, `get_numbers`):
 * the per-URL results, in whatever order they complete, are appended to one
 * list, turned into a set to drop duplicates, turned back into a list and
 * sorted ascending.
 */
module Aggregate {

  /** The distinct values of a list. */
  function Elements(s: seq<int>): set<int> {
    set x | x in s
  }

  /** Every value that at least one per-URL result contains. */
  ghost function UnionOf(results: seq<seq<int>>): set<int> {
    set s, x | s in results && x in s :: x
  }

  /** The list `all_numbers` after it has been extended with each result in turn. */
  function Flatten(results: seq<seq<int>>): seq<int> {
    if results == [] then [] else Flatten(results[..|results| - 1]) + results[|results| - 1]
  }

  predicate Sorted(s: seq<int>) {
    forall i, j :: 0 <= i < j < |s| ==> s[i] <= s[j]
  }

  predicate StrictlyIncreasing(s: seq<int>) {
    forall i, j :: 0 <= i < j < |s| ==> s[i] < s[j]
  }

  /** No value occurs twice. */
  ghost predicate NoRepeats(s: seq<int>) {
    forall x :: multiset(s)[x] <= 1
  }

  lemma UnionOfSameMembers(r1: seq<seq<int>>, r2: seq<seq<int>>)
    requires forall s :: s in r1 <==> s in r2
    ensures UnionOf(r1) == UnionOf(r2)
  {
    forall x | x in UnionOf(r1) ensures x in UnionOf(r2) {
      var s :| s in r1 && x in s;
      assert s in r2;
    }
    forall x | x in UnionOf(r2) ensures x in UnionOf(r1) {
      var s :| s in r2 && x in s;
      assert s in r1;
    }
  }

  /** Appending the results one by one keeps exactly the values of their union. */
  lemma {:induction false} FlattenElements(results: seq<seq<int>>)
    ensures Elements(Flatten(results)) == UnionOf(results)
  {
    if results != [] {
      var init, last := results[..|results| - 1], results[|results| - 1];
      FlattenElements(init);
      assert results == init + [last];
      assert Flatten(results) == Flatten(init) + last;
      forall x | x in UnionOf(results) ensures x in Elements(Flatten(results)) {
        var s :| s in results && x in s;
        if s != last {
          assert s in init;
          assert x in UnionOf(init);
        }
      }
      forall x | x in Elements(Flatten(results)) ensures x in UnionOf(results) {
        if x !in last {
          assert x in UnionOf(init);
          var s :| s in init && x in s;
          assert s in results;
        } else {
          assert last in results;
        }
      }
    }
  }

  /** The union does not depend on the order in which the results arrived. */
  lemma UnionIgnoresOrder(r1: seq<seq<int>>, r2: seq<seq<int>>)
    requires multiset(r1) == multiset(r2)
    ensures UnionOf(r1) == UnionOf(r2)
  {
    forall s ensures s in r1 <==> s in r2 {
      assert s in r1 <==> s in multiset(r1);
      assert s in r2 <==> s in multiset(r2);
    }
    UnionOfSameMembers(r1, r2);
  }

  lemma PairCounted(s: seq<int>, i: int, j: int)
    requires 0 <= i < j < |s|
    ensures s[i] == s[j] ==> multiset(s)[s[i]] >= 2
  {
    assert s == s[..i] + [s[i]] + s[i + 1..j] + [s[j]] + s[j + 1..];
  }

  /** A sorted list in which no value repeats is strictly increasing. */
  lemma SortedNoRepeatsIsStrict(s: seq<int>)
    requires Sorted(s) && NoRepeats(s)
    ensures StrictlyIncreasing(s)
  {
    forall i, j | 0 <= i < j < |s| ensures s[i] != s[j] {
      PairCounted(s, i, j);
    }
  }

  /** A strictly increasing list is determined by its set of values. */
  lemma {:induction false} StrictlyIncreasingUnique(a: seq<int>, b: seq<int>)
    requires StrictlyIncreasing(a) && StrictlyIncreasing(b)
    requires Elements(a) == Elements(b)
    ensures a == b
  {
    assert a != [] ==> a[0] in Elements(b);
    assert b != [] ==> b[0] in Elements(a);
    if a != [] && b != [] {
      assert a[0] == b[0];
      assert Elements(a[1..]) == Elements(b[1..]) by {
        assert Elements(a) == {a[0]} + Elements(a[1..]) by { assert a == [a[0]] + a[1..]; }
        assert Elements(b) == {b[0]} + Elements(b[1..]) by { assert b == [b[0]] + b[1..]; }
        assert a[0] !in Elements(a[1..]);
        assert b[0] !in Elements(b[1..]);
      }
      StrictlyIncreasingUnique(a[1..], b[1..]);
    }
  }

  /**
   * The merged output is the same whichever order the per-URL results
   * arrived in: two outputs that each satisfy MergeResults' contract, for two
   * orderings of the same results, are equal.
   */
  lemma MergeOrderIndependent(r1: seq<seq<int>>, r2: seq<seq<int>>, n1: seq<int>, n2: seq<int>)
    requires multiset(r1) == multiset(r2)
    requires StrictlyIncreasing(n1) && Elements(n1) == UnionOf(r1)
    requires StrictlyIncreasing(n2) && Elements(n2) == UnionOf(r2)
    ensures n1 == n2
  {
    UnionIgnoresOrder(r1, r2);
    StrictlyIncreasingUnique(n1, n2);
  }

  /** Two sources answering [1, 2] and [2, 3] merge into [1, 2, 3]. */
  lemma MergeExample(n: seq<int>)
    requires StrictlyIncreasing(n) && Elements(n) == UnionOf([[1, 2], [2, 3]])
    ensures n == [1, 2, 3]
  {
    var r: seq<seq<int>> := [[1, 2], [2, 3]];
    assert [1, 2] in r && [2, 3] in r;
    assert UnionOf(r) == {1, 2, 3} by {
      forall x | x in UnionOf(r) ensures x in {1, 2, 3} {
        var s :| s in r && x in s;
      }
      assert 1 in [1, 2] && 2 in [1, 2] && 3 in [2, 3];
    }
    assert Elements([1, 2, 3]) == {1, 2, 3} by {
      assert 1 in [1, 2, 3] && 2 in [1, 2, 3] && 3 in [1, 2, 3];
    }
    StrictlyIncreasingUnique(n, [1, 2, 3]);
  }

  /** `list(set(all_numbers))`: the values of `all`, each once, in no particular order. */
  method Dedup(all: seq<int>) returns (unique: seq<int>)
    ensures NoRepeats(unique)
    ensures Elements(unique) == Elements(all)
  {
    var pending := Elements(all);
    unique := [];
    while pending != {}
      invariant NoRepeats(unique)
      invariant Elements(unique) !! pending
      invariant Elements(unique) + pending == Elements(all)
      decreases pending
    {
      assert (forall v :: v !in pending) ==> pending == {};
      var v :| v in pending;
      assert v !in unique;
      unique := unique + [v];
      pending := pending - {v};
    }
  }

  /** Exchanges two elements of `a`. */
  method Swap(a: array<int>, i: int, j: int)
    requires 0 <= i < j < a.Length
    modifies a
    ensures a[i] == old(a[j]) && a[j] == old(a[i])
    ensures forall k :: 0 <= k < a.Length && k != i && k != j ==> a[k] == old(a[k])
    ensures multiset(a[..]) == multiset(old(a[..]))
  {
    a[i], a[j] := a[j], a[i];
  }

  /** Moves `a[i]` down into the ascending prefix `a[..i]`, leaving `a[..i + 1]` ascending. */
  method SinkInto(a: array<int>, i: int)
    requires 0 <= i < a.Length
    requires forall p, q :: 0 <= p < q < i ==> a[p] <= a[q]
    modifies a
    ensures forall p, q :: 0 <= p < q <= i ==> a[p] <= a[q]
    ensures forall k :: i < k < a.Length ==> a[k] == old(a[k])
    ensures multiset(a[..]) == multiset(old(a[..]))
  {
    var j := i;
    while j > 0 && a[j - 1] > a[j]
      invariant 0 <= j <= i
      invariant forall p, q :: 0 <= p < q <= i && p != j && q != j ==> a[p] <= a[q]
      invariant forall q :: j < q <= i ==> a[j] <= a[q]
      invariant forall k :: i < k < a.Length ==> a[k] == old(a[k])
      invariant multiset(a[..]) == multiset(old(a[..]))
    {
      Swap(a, j - 1, j);
      j := j - 1;
    }
  }

  /** `list.sort()`: sorts the list ascending, in place. */
  method SortInPlace(a: array<int>)
    modifies a
    ensures Sorted(a[..])
    ensures multiset(a[..]) == multiset(old(a[..]))
  {
    var i := 0;
    while i < a.Length
      invariant 0 <= i <= a.Length
      invariant forall p, q :: 0 <= p < q < i ==> a[p] <= a[q]
      invariant multiset(a[..]) == multiset(old(a[..]))
    {
      SinkInto(a, i);
      i := i + 1;
    }
  }

  /**
   * The body of `get_numbers` after the fetches: extend `all_numbers` with each
   * result in the order given, drop duplicates, sort. The output is strictly
   * ascending, holds exactly the union of the results, and is empty exactly
   * when every source contributed nothing.
   */
  method MergeResults(results: seq<seq<int>>) returns (numbers: seq<int>)
    ensures StrictlyIncreasing(numbers)
    ensures Elements(numbers) == UnionOf(results)
    ensures numbers == [] <==> forall i :: 0 <= i < |results| ==> results[i] == []
  {
    var all: seq<int> := [];
    for i := 0 to |results|
      invariant all == Flatten(results[..i])
    {
      assert results[..i + 1][..i] == results[..i];
      all := all + results[i];
    }
    assert results[..|results|] == results;
    FlattenElements(results);

    var unique := Dedup(all);
    var a := new int[|unique|](k requires 0 <= k < |unique| => unique[k]);
    assert a[..] == unique;
    SortInPlace(a);
    numbers := a[..];

    assert multiset(numbers) == multiset(unique);
    assert Elements(numbers) == Elements(unique) by {
      forall x ensures x in numbers <==> x in unique {
        assert x in numbers <==> x in multiset(numbers);
        assert x in unique <==> x in multiset(unique);
      }
    }
    SortedNoRepeatsIsStrict(numbers);

    if numbers != [] {
      assert numbers[0] in UnionOf(results);
      var s :| s in results && numbers[0] in s;
    }
    forall i | 0 <= i < |results| && results[i] != [] ensures numbers != [] {
      var s, x := results[i], results[i][0];
      assert s in results && x in s;
      assert x in UnionOf(results);
      assert results[i][0] in numbers;
    }
  }
}
