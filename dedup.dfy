/**
 * What removing duplicate corpus files leaves behind. Files are names in
 * one directory mapped to their contents; walking the names in sorted
 * order and deleting every later file with the same contents keeps, of
 * each group of identical files, the one whose name sorts first.
 */
module Dedup {
  import opened Text

  type Bytes = seq<bv8>

  /** No name with the same contents sorts before `n`. */
  predicate FirstOfClass(files: map<string, Bytes>, n: string)
    requires n in files
  {
    forall m :: m in files && files[m] == files[n] ==> !StrLess(m, n)
  }

  /** The directory after duplicate removal. */
  function Deduped(files: map<string, Bytes>): map<string, Bytes> {
    map n | n in files && FirstOfClass(files, n) :: files[n]
  }

  /** Removal only deletes: the survivors are original files with their contents unchanged. */
  lemma DedupedSubset(files: map<string, Bytes>)
    ensures Deduped(files).Keys <= files.Keys
    ensures forall n :: n in Deduped(files) ==> Deduped(files)[n] == files[n]
  {
  }

  /** No two remaining files have the same contents. */
  lemma DedupedDistinct(files: map<string, Bytes>, a: string, b: string)
    requires a in Deduped(files) && b in Deduped(files)
    ensures Deduped(files)[a] == Deduped(files)[b] ==> a == b
  {
    StrLessTotal(a, b);
  }

  /**
   * Every file has exactly one survivor with its contents: the name of its
   * group that sorts first. A file whose contents no other file shares survives.
   */
  lemma DedupedSurvivor(files: map<string, Bytes>, n: string)
    requires n in files
    ensures exists m :: m in Deduped(files) && files[m] == files[n] && (m == n || StrLess(m, n))
    ensures (forall m :: m in files && m != n ==> files[m] != files[n]) ==> n in Deduped(files)
  {
    var group := set m | m in files && files[m] == files[n];
    assert n in group;
    MinExists(group);
    var first :| first in group && forall t :: t in group && t != first ==> StrLess(first, t);
    forall m | m in files && files[m] == files[first]
      ensures !StrLess(m, first)
    {
      if m != first {
        assert m in group;
        StrLessAsymmetric(first, m);
      } else {
        StrLessIrreflexive(first);
      }
    }
    assert first in Deduped(files);
    if (forall m :: m in files && m != n ==> files[m] != files[n]) {
      assert first == n;
    }
  }

  /** Removing duplicates a second time removes nothing. */
  lemma DedupedIdempotent(files: map<string, Bytes>)
    ensures Deduped(Deduped(files)) == Deduped(files)
  {
    var d := Deduped(files);
    forall n | n in d
      ensures n in Deduped(d)
    {
      forall m | m in d && d[m] == d[n]
        ensures !StrLess(m, n)
      {
        DedupedDistinct(files, m, n);
        StrLessIrreflexive(n);
      }
    }
    assert Deduped(d).Keys == d.Keys;
  }

  /** Distinct keys with distinct values: as many keys as values. */
  lemma {:induction false} InjectiveCount(m: map<string, Bytes>)
    requires forall a, b :: a in m && b in m && a != b ==> m[a] != m[b]
    ensures |m.Keys| == |m.Values|
    decreases |m.Keys|
  {
    if m.Keys != {} {
      var k :| k in m.Keys;
      var rest := m - {k};
      InjectiveCount(rest);
      assert rest.Keys == m.Keys - {k};
      assert rest.Values == m.Values - {m[k]} by {
        forall v | v in m.Values && v != m[k]
          ensures v in rest.Values
        {
          var a :| a in m && m[a] == v;
          assert a in rest;
        }
      }
      assert m[k] in m.Values;
    } else {
      assert m.Values == {};
    }
  }

  /** One file survives per distinct contents. */
  lemma DedupedCount(files: map<string, Bytes>)
    ensures |Deduped(files).Keys| == |files.Values|
  {
    var d := Deduped(files);
    forall a, b | a in d && b in d && a != b
      ensures d[a] != d[b]
    {
      DedupedDistinct(files, a, b);
    }
    InjectiveCount(d);
    forall v | v in files.Values
      ensures v in d.Values
    {
      var n :| n in files && files[n] == v;
      DedupedSurvivor(files, n);
      var m :| m in d && files[m] == files[n] && (m == n || StrLess(m, n));
      assert d[m] == v;
    }
    assert d.Values == files.Values;
  }

  // ---- the project's test cases: files `0.txt`, `1.txt`, ... ----

  const TEST: Bytes := [0x74, 0x65, 0x73, 0x74]
  const TEST1: Bytes := TEST + [0x31]
  const TEST2: Bytes := TEST + [0x32]

  lemma DedupNothing()
    ensures Deduped(map[]) == map[]
  {
  }

  /** Three identical files leave one. */
  lemma DedupThreeSame()
    ensures |Deduped(map["0.txt" := TEST, "1.txt" := TEST, "2.txt" := TEST]).Keys| == 1
  {
    var files := map["0.txt" := TEST, "1.txt" := TEST, "2.txt" := TEST];
    DedupedCount(files);
    assert files["0.txt"] == TEST;
    assert files.Values == {TEST};
  }

  /** Two pairs of identical files leave two. */
  lemma DedupTwoPairs()
    ensures |Deduped(map["0.txt" := TEST1, "1.txt" := TEST1, "2.txt" := TEST2, "3.txt" := TEST2]).Keys| == 2
  {
    var files := map["0.txt" := TEST1, "1.txt" := TEST1, "2.txt" := TEST2, "3.txt" := TEST2];
    DedupedCount(files);
    assert files["0.txt"] == TEST1 && files["2.txt"] == TEST2;
    assert files.Values == {TEST1, TEST2};
    assert TEST1[4] != TEST2[4];
  }
}
