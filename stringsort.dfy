/**
 * sort.Strings from Go's standard library: sorts a slice of strings in place
 * into increasing order. The model sorts an array by insertion; since Go's
 * order on strings is total, every sorting algorithm yields the same result
 * (SortedUnique), so the choice of algorithm is not observable.
 */
module StringSort {
  import opened ByteStrings

  /** Non-decreasing in Go's order. */
  ghost predicate Sorted(s: seq<Str>)
  {
    forall i, j :: 0 <= i < j < |s| ==> !Less(s[j], s[i])
  }

  /** Increasing in Go's order, hence without duplicates. */
  ghost predicate StrictlySorted(s: seq<Str>)
  {
    forall i, j :: 0 <= i < j < |s| ==> Less(s[i], s[j])
  }

  /** No string occurs twice. */
  ghost predicate Distinct(s: seq<Str>)
  {
    forall x :: multiset(s)[x] <= 1
  }

  method Swap(a: array<Str>, i: nat, j: nat)
    requires i < a.Length && j < a.Length
    modifies a
    ensures a[i] == old(a[j]) && a[j] == old(a[i])
    ensures forall k :: 0 <= k < a.Length && k != i && k != j ==> a[k] == old(a[k])
    ensures multiset(a[..]) == multiset(old(a[..]))
  {
    a[i], a[j] := a[j], a[i];
  }

  /** sort.Strings(a). */
  method SortStrings(a: array<Str>)
    modifies a
    ensures Sorted(a[..])
    ensures multiset(a[..]) == multiset(old(a[..]))
  {
    var i := 0;
    while i < a.Length
      invariant 0 <= i <= a.Length
      invariant forall p, q :: 0 <= p < q < i ==> !Less(a[q], a[p])
      invariant multiset(a[..]) == multiset(old(a[..]))
    {
      var j := i;
      while j > 0 && Less(a[j], a[j - 1])
        invariant 0 <= j <= i
        invariant forall p, q :: 0 <= p < q <= i && p != j && q != j ==> !Less(a[q], a[p])
        invariant forall q :: j < q <= i ==> !Less(a[q], a[j])
        invariant multiset(a[..]) == multiset(old(a[..]))
      {
        LessAsymmetric(a[j], a[j - 1]);
        Swap(a, j - 1, j);
        j := j - 1;
      }
      forall p, q | 0 <= p < q <= i
        ensures !Less(a[q], a[p])
      {
        if q == j && p < j - 1 {
          NotLessTransitive(a[p], a[j - 1], a[j]);
        }
      }
      i := i + 1;
    }
  }

  /** A sorted permutation is unique: sorting is deterministic. */
  lemma {:induction false} SortedUnique(a: seq<Str>, b: seq<Str>)
    requires Sorted(a) && Sorted(b)
    requires multiset(a) == multiset(b)
    ensures a == b
  {
    if |a| == 0 {
      assert |multiset(b)| == 0;
    } else {
      assert |b| == |multiset(b)| == |multiset(a)| > 0;
      assert a[0] in multiset(b) && b[0] in multiset(a);
      HeadIsLeast(b, a[0]);
      HeadIsLeast(a, b[0]);
      LessTotal(a[0], b[0]);
      DropHead(a);
      DropHead(b);
      SortedUnique(a[1..], b[1..]);
    }
  }

  lemma HeadIsLeast(s: seq<Str>, x: Str)
    requires Sorted(s) && x in s
    ensures !Less(x, s[0])
  {
    var k :| 0 <= k < |s| && s[k] == x;
    if k == 0 {
      LessIrreflexive(x);
    }
  }

  lemma DropHead(s: seq<Str>)
    requires Sorted(s) && |s| > 0
    ensures Sorted(s[1..])
    ensures multiset(s[1..]) == multiset(s) - multiset{s[0]}
  {
    assert s == [s[0]] + s[1..];
  }

  /** Permutations hold the same strings. */
  lemma SameElements(a: seq<Str>, b: seq<Str>)
    requires multiset(a) == multiset(b)
    ensures forall x :: x in a <==> x in b
  {
    forall x
      ensures x in a <==> x in b
    {
      assert x in a <==> x in multiset(a);
      assert x in b <==> x in multiset(b);
    }
  }

  /** A sorted sequence without duplicates is strictly sorted. */
  lemma SortedDistinctIsStrict(s: seq<Str>)
    requires Sorted(s) && Distinct(s)
    ensures StrictlySorted(s)
  {
    forall i, j | 0 <= i < j < |s|
      ensures Less(s[i], s[j])
    {
      LessTotal(s[i], s[j]);
      RepeatCounts(s, i, j);
    }
  }

  lemma RepeatCounts(s: seq<Str>, i: nat, j: nat)
    requires i < j < |s|
    ensures s[i] == s[j] ==> multiset(s)[s[i]] >= 2
  {
    assert s == s[..j] + [s[j]] + s[j + 1..];
    assert s[i] in multiset(s[..j]);
  }

  lemma EmptyOrHasHead(s: seq<Str>)
    ensures s == [] || (|s| > 0 && s[0] in s)
  {
  }

  /** A strictly sorted sequence is determined by the set of its elements. */
  lemma {:induction false} StrictlySortedUnique(a: seq<Str>, b: seq<Str>)
    requires StrictlySorted(a) && StrictlySorted(b)
    requires forall x :: x in a <==> x in b
    ensures a == b
  {
    if |a| == 0 {
      EmptyOrHasHead(b);
    } else {
      assert a[0] in a;
      assert b[0] in b;
      var k :| 0 <= k < |b| && b[k] == a[0];
      var m :| 0 <= m < |a| && a[m] == b[0];
      assert !Less(a[0], b[0]) by {
        if k > 0 { LessAsymmetric(b[0], b[k]); } else { LessIrreflexive(a[0]); }
      }
      assert !Less(b[0], a[0]) by {
        if m == 0 { LessIrreflexive(a[0]); }
      }
      LessTotal(a[0], b[0]);
      forall x
        ensures x in a[1..] <==> x in b[1..]
      {
        if x in a[1..] {
          var i :| 1 <= i < |a| && a[i] == x;
          LessIrreflexive(x);
          assert a[i] in a;
          var j :| 0 <= j < |b| && b[j] == x;
          assert j != 0;
          assert b[1..][j - 1] == x;
        }
        if x in b[1..] {
          var i :| 1 <= i < |b| && b[i] == x;
          LessIrreflexive(x);
          assert b[i] in b;
          var j :| 0 <= j < |a| && a[j] == x;
          assert j != 0;
          assert a[1..][j - 1] == x;
        }
      }
      StrictlySortedUnique(a[1..], b[1..]);
    }
  }
}
