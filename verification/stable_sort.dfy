/**
 * `files.sortByDescending { it.dateAdded }`: Kotlin's sort is stable, so files
 * with the same `dateAdded` keep their relative order.  Modelled as insertion
 * sort on sequences.
 */
module StableSort {
  import opened AndroidModel

  predicate SortedByDateDesc(s: seq<MediaFile>) {
    forall i, j :: 0 <= i < j < |s| ==> s[i].dateAdded >= s[j].dateAdded
  }

  /** The files added at time `d`, in their order in `s`. */
  function WithDate(s: seq<MediaFile>, d: int): seq<MediaFile>
    decreases |s|
  {
    if s == [] then [] else (if s[0].dateAdded == d then [s[0]] else []) + WithDate(s[1..], d)
  }

  /** Puts `x` in front of the first file that is not newer than it. */
  function Insert(x: MediaFile, s: seq<MediaFile>): seq<MediaFile>
    decreases |s|
  {
    if s == [] || s[0].dateAdded <= x.dateAdded then [x] + s
    else [s[0]] + Insert(x, s[1..])
  }

  lemma {:induction false} InsertMultiset(x: MediaFile, s: seq<MediaFile>)
    ensures multiset(Insert(x, s)) == multiset(s) + multiset{x}
    decreases |s|
  {
    if !(s == [] || s[0].dateAdded <= x.dateAdded) {
      assert s == [s[0]] + s[1..];
      InsertMultiset(x, s[1..]);
    }
  }

  lemma SortedTail(s: seq<MediaFile>)
    requires |s| > 0 && SortedByDateDesc(s)
    ensures SortedByDateDesc(s[1..])
  {
    forall i, j | 0 <= i < j < |s[1..]| ensures s[1..][i].dateAdded >= s[1..][j].dateAdded {
      assert s[1..][i] == s[i + 1] && s[1..][j] == s[j + 1];
    }
  }

  /** A file at least as new as every file of a sorted sequence can head it. */
  lemma SortedCons(y: MediaFile, t: seq<MediaFile>)
    requires SortedByDateDesc(t)
    requires forall k :: 0 <= k < |t| ==> t[k].dateAdded <= y.dateAdded
    ensures SortedByDateDesc([y] + t)
  {
    var r := [y] + t;
    forall i, j | 0 <= i < j < |r| ensures r[i].dateAdded >= r[j].dateAdded {
      assert r[j] == t[j - 1];
      if i > 0 { assert r[i] == t[i - 1]; }
    }
  }

  lemma {:induction false} InsertSorted(x: MediaFile, s: seq<MediaFile>)
    requires SortedByDateDesc(s)
    ensures SortedByDateDesc(Insert(x, s))
    decreases |s|
  {
    if s == [] || s[0].dateAdded <= x.dateAdded {
      forall k | 0 <= k < |s| ensures s[k].dateAdded <= x.dateAdded {
        if k > 0 { assert s[0].dateAdded >= s[k].dateAdded; }
      }
      SortedCons(x, s);
    } else {
      SortedTail(s);
      InsertSorted(x, s[1..]);
      InsertMultiset(x, s[1..]);
      var tail := Insert(x, s[1..]);
      forall k | 0 <= k < |tail| ensures tail[k].dateAdded <= s[0].dateAdded {
        var y := tail[k];
        assert y in multiset(tail);
        if y != x {
          assert y in multiset(s[1..]);
          var m :| 0 <= m < |s[1..]| && s[1..][m] == y;
          assert s[m + 1] == y;
        }
      }
      SortedCons(s[0], tail);
    }
  }

  lemma {:induction false} InsertStable(x: MediaFile, s: seq<MediaFile>, d: int)
    ensures WithDate(Insert(x, s), d) == if d == x.dateAdded then [x] + WithDate(s, d) else WithDate(s, d)
    decreases |s|
  {
    var r := Insert(x, s);
    if s == [] || s[0].dateAdded <= x.dateAdded {
      assert r[1..] == s;
    } else {
      var tail := Insert(x, s[1..]);
      assert r[1..] == tail;
      InsertStable(x, s[1..], d);
    }
  }

  /** Inserting the head into the sorted tail sorts the whole sequence. */
  lemma SortStep(s: seq<MediaFile>, rest: seq<MediaFile>)
    requires s != []
    requires SortedByDateDesc(rest) && multiset(rest) == multiset(s[1..])
    requires forall d :: WithDate(rest, d) == WithDate(s[1..], d)
    ensures SortedByDateDesc(Insert(s[0], rest))
    ensures multiset(Insert(s[0], rest)) == multiset(s)
    ensures forall d :: WithDate(Insert(s[0], rest), d) == WithDate(s, d)
  {
    InsertMultiset(s[0], rest);
    InsertSorted(s[0], rest);
    assert s == [s[0]] + s[1..];
    forall d ensures WithDate(Insert(s[0], rest), d) == WithDate(s, d) {
      InsertStable(s[0], rest, d);
    }
  }

  /**
   * The sorted files: newest first, the same files with the same
   * multiplicities, and for every `dateAdded` the files with that date in
   * their original order.
   */
  function SortByDescendingDate(s: seq<MediaFile>): (r: seq<MediaFile>)
    ensures SortedByDateDesc(r)
    ensures multiset(r) == multiset(s)
    ensures forall d :: WithDate(r, d) == WithDate(s, d)
    decreases |s|
  {
    if s == [] then []
    else
      var rest := SortByDescendingDate(s[1..]);
      SortStep(s, rest);
      Insert(s[0], rest)
  }
}
