/**
 * The sort.Interface implementations of apis/apis.go (ImageSlice and
 * VolumeSlice, both newest first) and the in-place sort the callers apply
 * with them.
 */
module Apis {
  /** The fields of ec2.Image the program reads. CreationDate is an ISO 8601 string. */
  datatype Image = Image(imageId: string, name: string, creationDate: string)

  /** The fields of ec2.Snapshot the program reads; StartTime as an instant on one clock. */
  datatype Snapshot = Snapshot(snapshotId: string, volumeId: string, startTime: int)

  /**
   * Go's `<` on strings. Go compares the UTF-8 bytes, which orders valid
   * text exactly as its code points, so the model compares characters.
   */
  function LexLess(a: string, b: string): bool
  {
    if a == [] then b != []
    else if b == [] then false
    else if a[0] != b[0] then a[0] < b[0]
    else LexLess(a[1..], b[1..])
  }

  lemma {:induction false} LexIrreflexive(a: string)
    ensures !LexLess(a, a)
    decreases |a|
  {
    if a != [] {
      LexIrreflexive(a[1..]);
    }
  }

  lemma {:induction false} LexTransitive(a: string, b: string, c: string)
    requires LexLess(a, b) && LexLess(b, c)
    ensures LexLess(a, c)
    decreases |a|
  {
    if a != [] && b != [] && c != [] && a[0] == b[0] && b[0] == c[0] {
      LexTransitive(a[1..], b[1..], c[1..]);
    }
  }

  /** Two different strings are always ordered one way or the other. */
  lemma {:induction false} LexTotal(a: string, b: string)
    ensures a == b || LexLess(a, b) || LexLess(b, a)
    decreases |a|
  {
    if a != [] && b != [] && a[0] == b[0] {
      LexTotal(a[1..], b[1..]);
      if a[1..] == b[1..] {
        assert a == [a[0]] + a[1..] && b == [b[0]] + b[1..];
      }
    }
  }

  /**
   * What sort.Sort needs of Less: irreflexive, transitive, and with
   * "neither is less" an equivalence (so !less is transitive too).
   */
  ghost predicate StrictWeakOrder<T(!new)>(less: (T, T) -> bool)
  {
    (forall x :: !less(x, x)) &&
    (forall x, y, z :: less(x, y) && less(y, z) ==> less(x, z)) &&
    (forall x, y, z :: !less(x, y) && !less(y, z) ==> !less(x, z))
  }

  /** ImageSlice.Less on elements: i's CreationDate is greater than j's, so newer sorts first. */
  function ImageNewer(x: Image, y: Image): bool
  {
    LexLess(y.creationDate, x.creationDate)
  }

  /** VolumeSlice.Less on elements: i's StartTime is strictly after j's. */
  function SnapshotNewer(x: Snapshot, y: Snapshot): bool
  {
    x.startTime > y.startTime
  }

  /** ImageSlice.Less is irreflexive, asymmetric, transitive, and orders by date only. */
  lemma ImageNewerIsStrictWeakOrder()
    ensures StrictWeakOrder(ImageNewer)
    ensures forall x, y :: ImageNewer(x, y) ==> !ImageNewer(y, x)
  {
    forall x: Image
      ensures !ImageNewer(x, x)
    {
      LexIrreflexive(x.creationDate);
    }
    forall x: Image, y: Image, z: Image | ImageNewer(x, y) && ImageNewer(y, z)
      ensures ImageNewer(x, z)
    {
      LexTransitive(z.creationDate, y.creationDate, x.creationDate);
    }
    forall x: Image, y: Image, z: Image | !ImageNewer(x, y) && !ImageNewer(y, z)
      ensures !ImageNewer(x, z)
    {
      LexTotal(x.creationDate, y.creationDate);
      LexTotal(y.creationDate, z.creationDate);
      if ImageNewer(x, z) {
        if x.creationDate != y.creationDate && y.creationDate != z.creationDate {
          LexTransitive(x.creationDate, y.creationDate, z.creationDate);
          LexIrreflexive(z.creationDate);
          LexTransitive(z.creationDate, x.creationDate, z.creationDate);
        }
      }
    }
    forall x: Image, y: Image | ImageNewer(x, y)
      ensures !ImageNewer(y, x)
    {
      if ImageNewer(y, x) {
        LexTransitive(x.creationDate, y.creationDate, x.creationDate);
        LexIrreflexive(x.creationDate);
      }
    }
  }

  /** VolumeSlice.Less is a strict weak order as well. */
  lemma SnapshotNewerIsStrictWeakOrder()
    ensures StrictWeakOrder(SnapshotNewer)
  {
  }

  /** No element is strictly less than (for these comparators: newer than) one before it. */
  ghost predicate Sorted<T>(s: seq<T>, less: (T, T) -> bool)
  {
    forall i, j :: 0 <= i < j < |s| ==> !less(s[j], s[i])
  }

  /** Inserts `x` into `s` from the right, passing every element it is less than. */
  function Insert<T>(s: seq<T>, x: T, less: (T, T) -> bool): (r: seq<T>)
    ensures |r| == |s| + 1
  {
    if s == [] then [x]
    else if less(x, s[|s| - 1]) then Insert(s[..|s| - 1], x, less) + [s[|s| - 1]]
    else s + [x]
  }

  /** The order an insertion sort leaves `s` in. */
  function InsertionSorted<T>(s: seq<T>, less: (T, T) -> bool): (r: seq<T>)
    ensures |r| == |s|
  {
    if s == [] then [] else Insert(InsertionSorted(s[..|s| - 1], less), s[|s| - 1], less)
  }

  lemma {:induction false} InsertPermutes<T>(s: seq<T>, x: T, less: (T, T) -> bool)
    ensures multiset(Insert(s, x, less)) == multiset(s) + multiset{x}
    decreases |s|
  {
    if s != [] && less(x, s[|s| - 1]) {
      InsertPermutes(s[..|s| - 1], x, less);
      assert s == s[..|s| - 1] + [s[|s| - 1]];
    }
  }

  /** Sorting only reorders: the result is a permutation of the input. */
  lemma {:induction false} InsertionSortedPermutes<T>(s: seq<T>, less: (T, T) -> bool)
    ensures multiset(InsertionSorted(s, less)) == multiset(s)
    decreases |s|
  {
    if s != [] {
      InsertionSortedPermutes(s[..|s| - 1], less);
      InsertPermutes(InsertionSorted(s[..|s| - 1], less), s[|s| - 1], less);
      assert s == s[..|s| - 1] + [s[|s| - 1]];
    }
  }

  lemma {:induction false} InsertKeepsSorted<T(!new)>(s: seq<T>, x: T, less: (T, T) -> bool)
    requires StrictWeakOrder(less) && Sorted(s, less)
    ensures Sorted(Insert(s, x, less), less)
    decreases |s|
  {
    if s != [] {
      var init, last := s[..|s| - 1], s[|s| - 1];
      if less(x, last) {
        var t := Insert(init, x, less);
        InsertKeepsSorted(init, x, less);
        InsertPermutes(init, x, less);
        forall i | 0 <= i < |t|
          ensures !less(last, t[i])
        {
          assert t[i] in multiset(t);
          if t[i] != x {
            assert t[i] in multiset(init);
            var k :| 0 <= k < |init| && init[k] == t[i];
            assert s[k] == t[i];
          }
        }
        assert Insert(s, x, less) == t + [last];
      } else {
        assert Insert(s, x, less) == s + [x];
        forall i | 0 <= i < |s|
          ensures !less(x, s[i])
        {
          if i < |s| - 1 {
            assert !less(last, s[i]);
          }
        }
      }
    }
  }

  /** Sorting with a strict weak order yields a sorted sequence. */
  lemma {:induction false} InsertionSortedIsSorted<T(!new)>(s: seq<T>, less: (T, T) -> bool)
    requires StrictWeakOrder(less)
    ensures Sorted(InsertionSorted(s, less), less)
    decreases |s|
  {
    if s != [] {
      InsertionSortedIsSorted(s[..|s| - 1], less);
      InsertKeepsSorted(InsertionSorted(s[..|s| - 1], less), s[|s| - 1], less);
    }
  }

  /** Swap(i, j): exchanges the two positions and nothing else. */
  method Swap<T>(a: array<T>, i: int, j: int)
    requires 0 <= i < a.Length && 0 <= j < a.Length
    modifies a
    ensures a[i] == old(a[j]) && a[j] == old(a[i])
    ensures forall k :: 0 <= k < a.Length && k != i && k != j ==> a[k] == old(a[k])
    ensures multiset(a[..]) == multiset(old(a[..]))
  {
    a[i], a[j] := a[j], a[i];
  }

  /** One pass of the sort: a[i] moves left past every element it is less than. */
  method SinkInto<T>(a: array<T>, i: int, less: (T, T) -> bool)
    requires 0 <= i < a.Length
    modifies a
    ensures a[..i + 1] == Insert(old(a[..i]), old(a[i]), less)
    ensures a[i + 1..] == old(a[i + 1..])
  {
    ghost var prefix := a[..i];
    ghost var x := a[i];
    var j := i;
    assert prefix[..j] == prefix && prefix[j..i] == [];
    while j > 0 && less(a[j], a[j - 1])
      invariant 0 <= j <= i
      invariant forall k :: 0 <= k < j ==> a[k] == prefix[k]
      invariant a[j] == x
      invariant forall k :: j < k <= i ==> a[k] == prefix[k - 1]
      invariant forall k :: i < k < a.Length ==> a[k] == old(a[k])
      invariant Insert(prefix, x, less) == Insert(prefix[..j], x, less) + prefix[j..i]
    {
      SinkStep(prefix, x, less, j);
      Swap(a, j - 1, j);
      j := j - 1;
    }
    assert Insert(prefix[..j], x, less) == prefix[..j] + [x];
    assert a[..i + 1] == prefix[..j] + [x] + prefix[j..i];
  }

  /** Moving x one place further left keeps the same final order. */
  lemma SinkStep<T>(prefix: seq<T>, x: T, less: (T, T) -> bool, j: int)
    requires 0 < j <= |prefix|
    requires less(x, prefix[j - 1])
    ensures Insert(prefix[..j], x, less) + prefix[j..] == Insert(prefix[..j - 1], x, less) + prefix[j - 1..]
  {
    assert prefix[..j][..j - 1] == prefix[..j - 1];
    assert prefix[j - 1..] == [prefix[j - 1]] + prefix[j..];
  }

  /** The slice of a reply as an array, sorted in place by SortBy. */
  method SortedArray<T>(s: seq<T>, less: (T, T) -> bool) returns (a: array<T>)
    ensures fresh(a)
    ensures a[..] == InsertionSorted(s, less)
  {
    a := new T[|s|](k requires 0 <= k < |s| => s[k]);
    assert a[..] == s;
    SortBy(a, less);
  }

  /**
   * sort.Sort through Len, Less and Swap: an insertion sort that swaps each
   * element towards the front while it is less than its predecessor.
   */
  method SortBy<T>(a: array<T>, less: (T, T) -> bool)
    modifies a
    ensures a[..] == InsertionSorted(old(a[..]), less)
  {
    ghost var input := a[..];
    var i := 0;
    while i < a.Length
      invariant 0 <= i <= a.Length
      invariant a[..i] == InsertionSorted(input[..i], less)
      invariant a[i..] == input[i..]
    {
      assert a[i] == input[i];
      SinkInto(a, i, less);
      assert input[..i + 1][..i] == input[..i];
      assert a[i + 1..] == input[i + 1..];
      i := i + 1;
    }
    assert a[..] == a[..a.Length];
    assert input[..a.Length] == input;
  }
}
