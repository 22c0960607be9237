/** The final ordering of run (main.go): records by domain, then by name. */
module Sorting {
  import opened Strings
  import opened Records

  /** The less function run hands to sort.Slice: by domain, and by name when domains are equal.
      A record is never before one with the same domain and name. */
  predicate RecordLess(x: Record, y: Record): (b: bool)
    ensures x.domain != y.domain ==> (b <==> Less(x.domain, y.domain))
    ensures x.domain == y.domain ==> (b <==> Less(x.name, y.name))
    ensures x.domain == y.domain && x.name == y.name ==> !b
  {
    LessIrreflexive(x.name);
    if x.domain != y.domain then Less(x.domain, y.domain) else Less(x.name, y.name)
  }

  /** No record is ordered before an earlier one: non-decreasing by domain, then by name.
      Records with equal domain and name may come in any order. */
  predicate Sorted(s: seq<Record>)
  {
    forall i, j :: 0 <= i < j < |s| ==> !RecordLess(s[j], s[i])
  }

  lemma RecordLessAsymmetric(x: Record, y: Record)
    requires RecordLess(x, y)
    ensures !RecordLess(y, x)
  {
    LessTrichotomy(x.domain, y.domain);
    LessTrichotomy(x.name, y.name);
  }

  /** "Not after" is transitive. */
  lemma NotAfterTransitive(x: Record, y: Record, z: Record)
    requires !RecordLess(y, x) && !RecordLess(z, y)
    ensures !RecordLess(z, x)
  {
    LessTrichotomy(x.domain, y.domain);
    LessTrichotomy(y.domain, z.domain);
    LessTrichotomy(x.domain, z.domain);
    LessTrichotomy(x.name, y.name);
    LessTrichotomy(y.name, z.name);
    LessTrichotomy(x.name, z.name);
    if x.domain != y.domain && y.domain != z.domain {
      LessTransitive(x.domain, y.domain, z.domain);
    }
    if x.domain == y.domain == z.domain && x.name != y.name && y.name != z.name {
      LessTransitive(x.name, y.name, z.name);
    }
  }

  /** A sorted prefix followed by the rest in sorted order, with the prefix not after the rest. */
  ghost predicate SortedSplit(s: seq<Record>, j: int, hi: int)
    requires 0 <= j <= hi <= |s|
  {
    && Sorted(s[..j])
    && Sorted(s[j..hi])
    && forall a, b :: 0 <= a < j < b < hi ==> !RecordLess(s[b], s[a])
  }

  method Swap(a: array<Record>, i: int, j: int)
    requires 0 <= i < a.Length && 0 <= j < a.Length
    modifies a
    ensures a[..] == old(a[..])[i := old(a[j])][j := old(a[i])]
    ensures multiset(a[..]) == multiset(old(a[..]))
  {
    a[i], a[j] := a[j], a[i];
  }

  /**
    sort.Slice with run's less function, as an insertion sort in place: the array ends
    sorted by (domain, name) and holds the same records as before.
   */
  method SortRecords(a: array<Record>)
    modifies a
    ensures Sorted(a[..])
    ensures multiset(a[..]) == multiset(old(a[..]))
  {
    if a.Length == 0 {
      return;
    }
    for i := 1 to a.Length
      invariant Sorted(a[..i])
      invariant multiset(a[..]) == multiset(old(a[..]))
    {
      var j := i;
      while j > 0 && RecordLess(a[j], a[j - 1])
        invariant 0 <= j <= i
        invariant SortedSplit(a[..], j, i + 1)
        invariant multiset(a[..]) == multiset(old(a[..]))
      {
        SwapStep(a[..], j, i);
        Swap(a, j - 1, j);
        j := j - 1;
      }
      InsertDone(a[..], j, i);
    }
  }

  /** Swapping the out-of-order pair at j - 1, j moves the split one place left. */
  lemma SwapStep(s: seq<Record>, j: int, i: int)
    requires 0 < j <= i < |s|
    requires SortedSplit(s, j, i + 1)
    requires RecordLess(s[j], s[j - 1])
    ensures SortedSplit(s[j - 1 := s[j]][j := s[j - 1]], j - 1, i + 1)
  {
    var t := s[j - 1 := s[j]][j := s[j - 1]];
    RecordLessAsymmetric(s[j], s[j - 1]);
    assert t[..j - 1] == s[..j - 1];
    forall a, b | 0 <= a < b < j - 1
      ensures !RecordLess(t[b], t[a])
    {
      assert s[..j][a] == s[a] && s[..j][b] == s[b];
    }
    forall a, b | j - 1 <= a < b < i + 1
      ensures !RecordLess(t[b], t[a])
    {
      if a == j - 1 && b == j {
      } else if a == j - 1 {
        assert s[j..i + 1][0] == s[j] && s[j..i + 1][b - j] == s[b];
      } else if a == j {
        assert s[..j][j - 1] == s[j - 1];
      } else {
        assert s[j..i + 1][a - j] == s[a] && s[j..i + 1][b - j] == s[b];
      }
    }
    forall a, b | 0 <= a < j - 1 < b < i + 1
      ensures !RecordLess(t[b], t[a])
    {
      if b == j {
        assert s[..j][a] == s[a] && s[..j][j - 1] == s[j - 1];
      }
    }
  }

  /** When the inserted record is no longer before its left neighbour, the prefix is sorted. */
  lemma InsertDone(s: seq<Record>, j: int, i: int)
    requires 0 <= j <= i < |s|
    requires SortedSplit(s, j, i + 1)
    requires j > 0 ==> !RecordLess(s[j], s[j - 1])
    ensures Sorted(s[..i + 1])
  {
    forall a, b | 0 <= a < b < i + 1
      ensures !RecordLess(s[b], s[a])
    {
      if b < j {
        assert s[..j][a] == s[a] && s[..j][b] == s[b];
      } else if a >= j {
        assert s[j..i + 1][a - j] == s[a] && s[j..i + 1][b - j] == s[b];
      } else if b == j {
        if a < j - 1 {
          assert s[..j][a] == s[a] && s[..j][j - 1] == s[j - 1];
          NotAfterTransitive(s[a], s[j - 1], s[j]);
        }
      }
    }
  }
}
