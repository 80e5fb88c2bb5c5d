/**
 * The shard catalog: the shards of a stream, ordered by ascending ShardId
 * (Go's string `<`), so that the integer index of a shard names the same
 * shard on every load.
 */
module ShardCatalog {
  import opened KinesisApi
  import opened StringOrder

  /** No shard's id is less than the id of a shard before it. */
  ghost predicate SortedById(s: seq<Shard>)
  {
    forall i, j :: 0 <= i < j < |s| ==> !Less(s[j].shardId, s[i].shardId)
  }

  /** Every id ascends strictly along the sequence. */
  ghost predicate StrictlyAscending(s: seq<Shard>)
  {
    forall i, j :: 0 <= i < j < |s| ==> Less(s[i].shardId, s[j].shardId)
  }

  ghost predicate DistinctIds(s: seq<Shard>)
  {
    forall i, j :: 0 <= i < j < |s| ==> s[i].shardId != s[j].shardId
  }

  /** Reordering shards keeps their ids distinct. */
  lemma DistinctIdsPreserved(d: seq<Shard>, s: seq<Shard>)
    requires DistinctIds(d) && multiset(s) == multiset(d)
    ensures DistinctIds(s)
  {
    forall i, j | 0 <= i < j < |s|
      ensures s[i].shardId != s[j].shardId
    {
      if s[i].shardId == s[j].shardId {
        assert s[i] in multiset(d) && s[j] in multiset(d);
        var p :| 0 <= p < |d| && d[p] == s[i];
        var q :| 0 <= q < |d| && d[q] == s[j];
        assert p == q;
        assert s[i] == s[j];
        var rest := s[..i] + s[i + 1..];
        assert s == s[..i] + [s[i]] + s[i + 1..];
        assert s[j] in rest by { assert rest[j - 1] == s[j]; }
        assert multiset(s)[s[i]] >= 2 by {
          assert multiset(s) == multiset(s[..i]) + multiset{s[i]} + multiset(s[i + 1..]);
          assert multiset(rest) == multiset(s[..i]) + multiset(s[i + 1..]);
        }
        MultiplicityAtMostOne(d, s[i]);
        assert false;
      }
    }
  }

  /**
   * When DescribeStream lists distinct ids, the sorted catalog built from
   * them ascends strictly.
   */
  lemma CatalogStrictlyAscending(described: seq<Shard>, catalog: seq<Shard>)
    requires DistinctIds(described)
    requires SortedById(catalog) && multiset(catalog) == multiset(described)
    ensures StrictlyAscending(catalog)
  {
    DistinctIdsPreserved(described, catalog);
    SortedDistinctIsStrict(catalog);
  }

  /** With distinct ids, no shard occurs twice. */
  lemma {:induction false} MultiplicityAtMostOne(d: seq<Shard>, x: Shard)
    requires DistinctIds(d)
    ensures multiset(d)[x] <= 1
  {
    if |d| != 0 {
      assert d == [d[0]] + d[1..];
      assert multiset(d) == multiset{d[0]} + multiset(d[1..]);
      MultiplicityAtMostOne(d[1..], x);
      if d[0] == x {
        assert x !in d[1..];
      }
    }
  }

  /** Sorted with distinct ids is strictly ascending. */
  lemma SortedDistinctIsStrict(s: seq<Shard>)
    requires SortedById(s) && DistinctIds(s)
    ensures StrictlyAscending(s)
  {
    forall i, j | 0 <= i < j < |s|
      ensures Less(s[i].shardId, s[j].shardId)
    {
      LessTotal(s[i].shardId, s[j].shardId);
    }
  }

  /** Two sorted arrangements of the same shards with distinct ids start alike. */
  lemma SameFirst(a: seq<Shard>, b: seq<Shard>)
    requires SortedById(a) && SortedById(b) && DistinctIds(a)
    requires multiset(a) == multiset(b) && |a| != 0
    ensures |b| != 0 && a[0] == b[0]
  {
    assert a[0] in multiset(b);
    var k :| 0 <= k < |b| && b[k] == a[0];
    assert b[0] in multiset(a);
    var m :| 0 <= m < |a| && a[m] == b[0];
    if m != 0 {
      assert !Less(a[m].shardId, a[0].shardId);
      assert !Less(b[k].shardId, b[0].shardId);
      LessTotal(a[0].shardId, b[0].shardId);
      assert false;
    }
  }

  /**
   * Two sorted arrangements of the same shards with distinct ids are the
   * same sequence: whatever order DescribeStream lists the shards in, the
   * sorted catalog, and so the index of every shard, is the same.
   */
  lemma {:induction false} SortedArrangementUnique(a: seq<Shard>, b: seq<Shard>)
    requires SortedById(a) && SortedById(b) && DistinctIds(a)
    requires multiset(a) == multiset(b)
    ensures a == b
  {
    if |a| == 0 {
      assert |b| == |multiset(b)| == 0;
    } else {
      SameFirst(a, b);
      DropFirst(a, b);
      SortedArrangementUnique(a[1..], b[1..]);
      assert a == [a[0]] + a[1..] && b == [b[0]] + b[1..];
    }
  }

  /** Removing the same first shard keeps both sides sorted and alike. */
  lemma DropFirst(a: seq<Shard>, b: seq<Shard>)
    requires SortedById(a) && SortedById(b) && DistinctIds(a)
    requires multiset(a) == multiset(b) && |a| != 0 && |b| != 0 && a[0] == b[0]
    ensures SortedById(a[1..]) && SortedById(b[1..]) && DistinctIds(a[1..])
    ensures multiset(a[1..]) == multiset(b[1..])
  {
    assert a == [a[0]] + a[1..] && b == [b[0]] + b[1..];
    assert multiset(a) == multiset{a[0]} + multiset(a[1..]);
    assert multiset(b) == multiset{b[0]} + multiset(b[1..]);
    assert multiset(a[1..]) == multiset(a) - multiset{a[0]};
  }

  /** Exchanges two elements of an array. */
  method Swap(a: array<Shard>, i: nat, j: nat)
    requires i < a.Length && j < a.Length
    modifies a
    ensures a[..] == old(a[..])[i := old(a[j])][j := old(a[i])]
    ensures multiset(a[..]) == old(multiset(a[..]))
  {
    a[i], a[j] := a[j], a[i];
  }

  /** `a <= b <= c` implies `a <= c`, where `x <= y` is `!Less(y, x)`. */
  lemma NotLessTransitive(a: string, b: string, c: string)
    requires !Less(b, a) && !Less(c, b)
    ensures !Less(c, a)
  {
  }


  /** The ids of `s[lo..hi]` ascend. */
  ghost predicate SortedBetween(s: seq<Shard>, lo: nat, hi: nat)
    requires lo <= hi <= |s|
  {
    forall p, q :: lo <= p < q < hi ==> !Less(s[q].shardId, s[p].shardId)
  }

  /** Moves `a[i]` down into the sorted prefix `a[..i]`. */
  method InsertShard(a: array<Shard>, i: nat)
    requires i < a.Length && SortedBetween(a[..], 0, i)
    modifies a
    ensures SortedBetween(a[..], 0, i + 1)
    ensures multiset(a[..]) == old(multiset(a[..]))
    ensures a[i + 1..] == old(a[i + 1..])
  {
    var j := i;
    while 0 < j && Less(a[j].shardId, a[j - 1].shardId)
      invariant 0 <= j <= i
      invariant SortedBetween(a[..], 0, j) && SortedBetween(a[..], j, i + 1)
      invariant forall p, q :: 0 <= p < j < q <= i ==> !Less(a[q].shardId, a[p].shardId)
      invariant forall q :: j < q <= i ==> !Less(a[q].shardId, a[j].shardId)
      invariant multiset(a[..]) == old(multiset(a[..]))
      invariant a[i + 1..] == old(a[i + 1..])
    {
      LessAsymmetric(a[j].shardId, a[j - 1].shardId);
      Swap(a, j - 1, j);
      j := j - 1;
    }
    forall p | 0 <= p < j
      ensures !Less(a[j].shardId, a[p].shardId)
    {
      LessIrreflexive(a[p].shardId);
      NotLessTransitive(a[p].shardId, a[j - 1].shardId, a[j].shardId);
    }
  }

  /**
   * Sorts the shards in place by ascending ShardId, as `sort.Slice` does
   * with the less-function `ShardId[i] < ShardId[j]`: sorted, and a
   * permutation of what was there.
   */
  method SortShards(a: array<Shard>)
    modifies a
    ensures SortedById(a[..])
    ensures multiset(a[..]) == old(multiset(a[..]))
  {
    var i := 0;
    while i < a.Length
      invariant 0 <= i <= a.Length
      invariant SortedBetween(a[..], 0, i)
      invariant multiset(a[..]) == old(multiset(a[..]))
    {
      InsertShard(a, i);
      i := i + 1;
    }
  }
}
