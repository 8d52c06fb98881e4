/** The two commits of the Trade log, append and compaction, as lists of file
    operations: what the disk is worth after any number of them. */
module TradeLog {
  import opened Options
  import opened TradeRows
  import opened TradeDisk

  /** What a manager holds in memory: its buckets in insertion order, the durable
      identity it remembers and how many rows of each bucket are persisted. */
  datatype Memory = Memory(
    order: seq<string>, cache: map<string, seq<Row>>, counts: map<string, nat>,
    stream: nat, revision: nat, committed: nat, digest: Chain, maxTs: int, needsRewrite: bool)

  ghost predicate ValidMemory(mem: Memory) {
    && (forall i, j :: 0 <= i < j < |mem.order| ==> mem.order[i] != mem.order[j])
    && (forall symbol :: symbol in mem.order <==> symbol in mem.cache)
  }

  /** `_validate_account_rows_locked`. */
  ghost predicate ValidRows(mem: Memory) {
    forall symbol :: symbol in mem.cache ==>
      DistinctIds(mem.cache[symbol]) && forall i :: 0 <= i < |mem.cache[symbol]| ==> mem.cache[symbol][i].symbol == symbol
  }

  /** The persisted part of every bucket is what the digest says is on disk. */
  ghost predicate Aligned(mem: Memory) {
    && CountsAgree(mem.counts, RowsOf(mem.digest))
    && (forall symbol :: symbol in mem.cache && Count(mem.counts, symbol) <= |mem.cache[symbol]| ==>
          mem.cache[symbol][..Count(mem.counts, symbol)] == Bucket(RowsOf(mem.digest), symbol))
  }

  /** The five remembered fields equal the durable ones and memory is not older. */
  predicate Current(d: Disk, mem: Memory) {
    && d.meta.Some?
    && d.meta.value.stream == mem.stream && d.meta.value.revision == mem.revision
    && d.meta.value.committed == mem.committed && d.meta.value.digest == mem.digest
    && d.meta.value.maxTs <= mem.maxTs
  }

  /** No bucket is shorter than its persisted part. */
  ghost predicate Fits(mem: Memory, counts: map<string, nat>) {
    forall symbol {:trigger mem.cache[symbol]} :: symbol in mem.cache ==> Count(counts, symbol) <= |mem.cache[symbol]|
  }

  /** Persisting by append is not possible; the file is rewritten instead. */
  ghost predicate Shrunk(mem: Memory) {
    mem.needsRewrite || !Fits(mem, mem.counts)
  }

  /** The rows after the persisted ones, bucket by bucket. */
  ghost function Pending(mem: Memory, counts: map<string, nat>, k: nat): seq<Row>
    requires ValidMemory(mem) && Fits(mem, counts) && k <= |mem.order|
  {
    if k == 0 then []
    else Pending(mem, counts, k - 1) + mem.cache[mem.order[k - 1]][Count(counts, mem.order[k - 1])..]
  }

  /** What one more bucket adds to the bucket of a symbol. */
  lemma OneMoreBucket(before: seq<Row>, rows: seq<Row>, owner: string, symbol: string)
    requires forall i :: 0 <= i < |rows| ==> rows[i].symbol == owner
    ensures Bucket(before + rows, symbol) == if symbol == owner then Bucket(before, symbol) + rows else Bucket(before, symbol)
  {
    BucketConcat(before, rows, symbol);
    BucketOfOne(rows, owner, symbol);
  }

  lemma PrefixMembers(order: seq<string>, k: nat, symbol: string)
    requires 0 < k <= |order| && forall i, j :: 0 <= i < j < |order| ==> order[i] != order[j]
    ensures symbol in order[..k] <==> symbol in order[..k - 1] || symbol == order[k - 1]
    ensures order[k - 1] !in order[..k - 1]
  {
    assert order[..k] == order[..k - 1] + [order[k - 1]];
  }

  lemma {:induction false} PendingBucket(mem: Memory, counts: map<string, nat>, k: nat, symbol: string)
    requires ValidMemory(mem) && ValidRows(mem) && Fits(mem, counts) && k <= |mem.order|
    ensures Bucket(Pending(mem, counts, k), symbol) ==
              if symbol in mem.order[..k] then mem.cache[symbol][Count(counts, symbol)..] else []
  {
    if k > 0 {
      var owner := mem.order[k - 1];
      var rows := mem.cache[owner][Count(counts, owner)..];
      PendingBucket(mem, counts, k - 1, symbol);
      PrefixMembers(mem.order, k, symbol);
      OneMoreBucket(Pending(mem, counts, k - 1), rows, owner, symbol);
    }
  }

  function Lengths(mem: Memory): map<string, nat> {
    map symbol | symbol in mem.cache :: |mem.cache[symbol]|
  }

  /** The new rows of an append. */
  ghost function Delta(mem: Memory): seq<Row>
    requires ValidMemory(mem) && Fits(mem, mem.counts)
  {
    Pending(mem, mem.counts, |mem.order|)
  }

  ghost function NextManifest(mem: Memory): Manifest
    requires ValidMemory(mem) && Fits(mem, mem.counts)
  {
    var rows := Delta(mem);
    Manifest(mem.stream, if rows != [] then mem.revision + 1 else mem.revision,
             mem.committed + |EncodeAll(rows)|, mem.counts + Lengths(mem), Extend(mem.digest, rows), mem.maxTs)
  }

  /** Everything a compaction writes: all rows of all buckets. */
  ghost function AllRows(mem: Memory): seq<Row>
    requires ValidMemory(mem)
  {
    Pending(mem, map[], |mem.order|)
  }

  ghost function FirstManifest(mem: Memory, stream: nat): Manifest
    requires ValidMemory(mem)
  {
    Manifest(stream, 1, |EncodeAll(AllRows(mem))|, Lengths(mem), Extend(Seed, AllRows(mem)), mem.maxTs)
  }

  lemma JoinedBucket(former: seq<Row>, delta: seq<Row>, bucket: seq<Row>, n: nat, symbol: string)
    requires n <= |bucket| && Bucket(former, symbol) == bucket[..n] && Bucket(delta, symbol) == bucket[n..]
    ensures Bucket(former + delta, symbol) == bucket
  {
    BucketConcat(former, delta, symbol);
    assert bucket == bucket[..n] + bucket[n..];
  }

  lemma DeltaBucket(mem: Memory, symbol: string)
    requires ValidMemory(mem) && ValidRows(mem) && Fits(mem, mem.counts)
    ensures Bucket(Delta(mem), symbol) == if symbol in mem.cache then mem.cache[symbol][Count(mem.counts, symbol)..] else []
  {
    PendingBucket(mem, mem.counts, |mem.order|, symbol);
    assert mem.order[..|mem.order|] == mem.order;
  }

  /** What a commit makes of one bucket of the log. */
  lemma CommittedBucket(mem: Memory, symbol: string)
    requires ValidMemory(mem) && ValidRows(mem) && Aligned(mem) && Fits(mem, mem.counts)
    ensures Bucket(RowsOf(mem.digest) + Delta(mem), symbol) ==
              if symbol in mem.cache then mem.cache[symbol] else Bucket(RowsOf(mem.digest), symbol)
  {
    DeltaBucket(mem, symbol);
    if symbol in mem.cache {
      JoinedBucket(RowsOf(mem.digest), Delta(mem), mem.cache[symbol], Count(mem.counts, symbol), symbol);
    } else {
      BucketConcat(RowsOf(mem.digest), Delta(mem), symbol);
    }
  }

  lemma CommittedCounts(mem: Memory)
    requires ValidMemory(mem) && ValidRows(mem) && Aligned(mem) && Fits(mem, mem.counts)
    ensures CountsAgree(mem.counts + Lengths(mem), RowsOf(mem.digest) + Delta(mem))
  {
    forall symbol
      ensures |Bucket(RowsOf(mem.digest) + Delta(mem), symbol)| == Count(mem.counts + Lengths(mem), symbol)
    {
      CommittedBucket(mem, symbol);
      assert |Bucket(RowsOf(mem.digest), symbol)| == Count(mem.counts, symbol);
    }
  }

  lemma CommittedUnique(mem: Memory)
    requires ValidMemory(mem) && ValidRows(mem) && Aligned(mem) && Fits(mem, mem.counts) && UniqueIds(RowsOf(mem.digest))
    ensures UniqueIds(RowsOf(mem.digest) + Delta(mem))
  {
    UniqueByBucket(RowsOf(mem.digest));
    forall symbol ensures DistinctIds(Bucket(RowsOf(mem.digest) + Delta(mem), symbol)) {
      CommittedBucket(mem, symbol);
      assert DistinctIds(Bucket(RowsOf(mem.digest), symbol));
    }
    UniqueByBucket(RowsOf(mem.digest) + Delta(mem));
  }

  /** After a commit the log holds, symbol by symbol, what memory holds. */
  lemma CommittedRows(mem: Memory)
    requires ValidMemory(mem) && ValidRows(mem) && Aligned(mem) && Fits(mem, mem.counts) && UniqueIds(RowsOf(mem.digest))
    requires mem.revision > 0 && mem.committed == |EncodeAll(RowsOf(mem.digest))|
    ensures RowsOf(NextManifest(mem).digest) == RowsOf(mem.digest) + Delta(mem)
    ensures forall symbol :: symbol in mem.cache ==> Bucket(RowsOf(NextManifest(mem).digest), symbol) == mem.cache[symbol]
    ensures Certifiable(NextManifest(mem))
  {
    ExtendRows(mem.digest, Delta(mem));
    EncodeConcat(RowsOf(mem.digest), Delta(mem));
    CommittedCounts(mem);
    CommittedUnique(mem);
    forall symbol | symbol in mem.cache ensures Bucket(RowsOf(mem.digest) + Delta(mem), symbol) == mem.cache[symbol] {
      CommittedBucket(mem, symbol);
    }
  }

  lemma CompactedBucket(mem: Memory, symbol: string)
    requires ValidMemory(mem) && ValidRows(mem)
    ensures Bucket(AllRows(mem), symbol) == if symbol in mem.cache then mem.cache[symbol] else []
  {
    PendingBucket(mem, map[], |mem.order|, symbol);
    assert mem.order[..|mem.order|] == mem.order;
  }

  lemma CompactedUnique(mem: Memory)
    requires ValidMemory(mem) && ValidRows(mem)
    ensures UniqueIds(AllRows(mem)) && CountsAgree(Lengths(mem), AllRows(mem))
  {
    forall symbol
      ensures DistinctIds(Bucket(AllRows(mem), symbol))
      ensures |Bucket(AllRows(mem), symbol)| == Count(Lengths(mem), symbol)
    {
      CompactedBucket(mem, symbol);
    }
    assert UniqueInBuckets(AllRows(mem));
    UniqueByBucket(AllRows(mem));
  }

  /** A compacted log holds exactly what memory holds. */
  lemma CompactedRows(mem: Memory, stream: nat)
    requires ValidMemory(mem) && ValidRows(mem)
    ensures RowsOf(FirstManifest(mem, stream).digest) == AllRows(mem)
    ensures Certifiable(FirstManifest(mem, stream))
  {
    ExtendRows(Seed, AllRows(mem));
    assert [] + AllRows(mem) == AllRows(mem);
    CompactedUnique(mem);
  }
}
