/** A reader process that follows the durable Trade log: either it parses only the
    bytes after the boundary it has already loaded, or it reads everything. */
module TradeReaderFile {
  import opened Options
  import opened TradeRows
  import opened TradeDisk
  import opened TradeLog
  import T = TradeManagerFile
  import R = TradeRuns

  /** Counts after some more rows. */
  function Accumulate(counts: map<string, nat>, rows: seq<Row>): map<string, nat> {
    if rows == [] then counts
    else
      var before := Accumulate(counts, rows[..|rows| - 1]);
      var symbol := rows[|rows| - 1].symbol;
      before[symbol := Count(before, symbol) + 1]
  }

  lemma {:induction false} AccumulateCounts(counts: map<string, nat>, rows: seq<Row>, symbol: string)
    ensures Count(Accumulate(counts, rows), symbol) == Count(counts, symbol) + |Bucket(rows, symbol)|
    ensures symbol in Accumulate(counts, rows) <==> symbol in counts || Bucket(rows, symbol) != []
  {
    if rows != [] {
      AccumulateCounts(counts, rows[..|rows| - 1], symbol);
    }
  }

  /** The suffix path: the new bytes parse, repeat no known ID, and continue both
      the loaded counts and the loaded digest to the manifest's. */
  ghost function SuffixRead(base: Manifest, raw: Option<seq<Cell>>, m: Manifest): Option<seq<Row>> {
    if raw.None? then None
    else
      var rows := Parse(raw.value);
      if rows.Some? && UniqueIds(RowsOf(base.digest) + rows.value) && Accumulate(base.counts, rows.value) == m.counts
         && Extend(base.digest, rows.value) == m.digest
      then rows else None
  }

  lemma StrictReadRows(bytes: Option<seq<Cell>>, m: Manifest)
    ensures StrictRead(bytes, m).Some? ==> StrictRead(bytes, m).value == RowsOf(m.digest)
  {
    if StrictRead(bytes, m).Some? {
      ExtendRows(Seed, StrictRead(bytes, m).value);
      assert [] + StrictRead(bytes, m).value == StrictRead(bytes, m).value;
    }
  }

  /** The incremental reload refines the full one: when it succeeds, on whatever
      bytes it was given, the loaded rows and the new ones together are exactly
      what a strict read from byte 0 under the same manifest returns. */
  lemma SuffixRefinesFull(base: Manifest, raw: Option<seq<Cell>>, m: Manifest, bytes: Option<seq<Cell>>)
    requires SuffixRead(base, raw, m).Some?
    ensures RowsOf(base.digest) + SuffixRead(base, raw, m).value == RowsOf(m.digest)
    ensures StrictRead(bytes, m).Some? ==> StrictRead(bytes, m).value == RowsOf(base.digest) + SuffixRead(base, raw, m).value
  {
    ExtendRows(base.digest, SuffixRead(base, raw, m).value);
    StrictReadRows(bytes, m);
  }

  /** When the suffix path accepts: on a sound file and a later version of the
      loaded stream it succeeds exactly when the manifest gained no symbol without
      rows.  The full reload accepts either way. */
  lemma SuffixAcceptsExactly(base: Manifest, m: Manifest, bytes: seq<Cell>)
    requires Certifiable(base) && Certifiable(m) && Holds(bytes, m)
    requires RowsOf(base.digest) <= RowsOf(m.digest) && base.counts.Keys <= m.counts.Keys
    ensures base.committed <= m.committed && StrictRead(Some(bytes), m) == Some(RowsOf(m.digest))
    ensures SuffixRead(base, Some(bytes[base.committed..m.committed]), m).Some? <==>
              forall symbol :: symbol in m.counts && symbol !in base.counts ==>
                Bucket(RowsOf(m.digest)[|RowsOf(base.digest)|..], symbol) != []
  {
    var former, all := RowsOf(base.digest), RowsOf(m.digest);
    var rows := all[|former|..];
    assert all == former + rows;
    StrictReadExactly(Some(bytes), m);
    SuffixBytes(bytes[..m.committed], former, rows);
    assert bytes[base.committed..m.committed] == bytes[..m.committed][base.committed..];
    ParseEncoded(rows);
    SuffixChain(base.digest, m.digest, rows);
    SuffixCounts(base, m, former, rows);
  }

  lemma SuffixBytes(committed: seq<Cell>, former: seq<Row>, rows: seq<Row>)
    requires committed == EncodeAll(former + rows)
    ensures |EncodeAll(former)| <= |committed| && committed[|EncodeAll(former)|..] == EncodeAll(rows)
  {
    EncodeConcat(former, rows);
  }

  lemma SuffixChain(former: Chain, whole: Chain, rows: seq<Row>)
    requires RowsOf(whole) == RowsOf(former) + rows
    ensures Extend(former, rows) == whole
  {
    DigestDetermines(former);
    DigestDetermines(whole);
    ChainLaw(Seed, RowsOf(former), rows);
  }

  lemma SuffixCounts(base: Manifest, m: Manifest, former: seq<Row>, rows: seq<Row>)
    requires CountsAgree(base.counts, former) && CountsAgree(m.counts, former + rows) && base.counts.Keys <= m.counts.Keys
    ensures Accumulate(base.counts, rows) == m.counts <==>
              forall symbol :: symbol in m.counts && symbol !in base.counts ==> Bucket(rows, symbol) != []
  {
    forall symbol
      ensures Count(Accumulate(base.counts, rows), symbol) == Count(m.counts, symbol)
      ensures symbol in Accumulate(base.counts, rows) <==> symbol in base.counts || Bucket(rows, symbol) != []
      ensures Bucket(rows, symbol) != [] ==> symbol in m.counts
    {
      AccumulateCounts(base.counts, rows, symbol);
      BucketConcat(former, rows, symbol);
      assert |Bucket(former, symbol)| == Count(base.counts, symbol);
      assert |Bucket(former + rows, symbol)| == Count(m.counts, symbol);
    }
    if forall symbol :: symbol in m.counts && symbol !in base.counts ==> Bucket(rows, symbol) != [] {
      assert Accumulate(base.counts, rows).Keys == m.counts.Keys;
      forall symbol | symbol in m.counts ensures Accumulate(base.counts, rows)[symbol] == m.counts[symbol] {
        assert Count(Accumulate(base.counts, rows), symbol) == Count(m.counts, symbol);
      }
    }
  }

  // ------------------------------------------------------------------
  // Where the incremental reload fails and the full one does not.
  // ------------------------------------------------------------------

  /** The version names a symbol the reader has not loaded and that has no rows. */
  ghost predicate Hides(base: Manifest, m: Manifest, symbol: string) {
    symbol in m.counts && symbol !in base.counts && Bucket(RowsOf(m.digest), symbol) == []
  }

  /** Whatever bytes are read, such a version is refused. */
  lemma HidingFails(base: Manifest, raw: Option<seq<Cell>>, m: Manifest, symbol: string)
    requires Hides(base, m, symbol)
    ensures SuffixRead(base, raw, m).None?
  {
    if SuffixRead(base, raw, m).Some? {
      var rows := SuffixRead(base, raw, m).value;
      ExtendRows(base.digest, rows);
      BucketConcat(RowsOf(base.digest), rows, symbol);
      AccumulateCounts(base.counts, rows, symbol);
      assert false;
    }
  }

  /** A manager that has persisted the version a reader has loaded, and that now
      appends: the reader can follow the new version incrementally exactly when no
      bucket was opened and left empty. */
  lemma FollowsAppendExactly(base: Manifest, mem: Memory, bytes: seq<Cell>)
    requires ValidMemory(mem) && ValidRows(mem) && Aligned(mem) && Fits(mem, mem.counts) && UniqueIds(RowsOf(mem.digest))
    requires Certifiable(base) && base.digest == mem.digest && base.counts == mem.counts
    requires base.revision == mem.revision && base.committed == mem.committed
    requires Holds(bytes, NextManifest(mem))
    ensures Certifiable(NextManifest(mem)) && base.committed <= NextManifest(mem).committed
    ensures StrictRead(Some(bytes), NextManifest(mem)).Some?
    ensures SuffixRead(base, Some(bytes[base.committed..NextManifest(mem).committed]), NextManifest(mem)).Some? <==>
              forall symbol :: symbol in mem.cache && symbol !in mem.counts ==> mem.cache[symbol] != []
  {
    var m, former, delta := NextManifest(mem), RowsOf(mem.digest), Delta(mem);
    CommittedRows(mem);
    SuffixAcceptsExactly(base, m, bytes);
    assert RowsOf(m.digest)[|former|..] == delta;
    forall symbol | symbol in mem.cache && symbol !in mem.counts ensures Bucket(delta, symbol) == mem.cache[symbol] {
      DeltaBucket(mem, symbol);
      assert mem.cache[symbol][0..] == mem.cache[symbol];
    }
    assert forall symbol :: symbol in m.counts && symbol !in base.counts <==> symbol in mem.cache && symbol !in mem.counts;
  }

  /** The version stays refused under later appends of the stream for as long as
      the symbol has no rows. */
  lemma HidingPersists(base: Manifest, mem: Memory, symbol: string)
    requires ValidMemory(mem) && ValidRows(mem) && Aligned(mem) && Fits(mem, mem.counts) && UniqueIds(RowsOf(mem.digest))
    requires mem.revision > 0 && mem.committed == |EncodeAll(RowsOf(mem.digest))|
    requires symbol in mem.cache && mem.cache[symbol] == [] && symbol !in base.counts
    ensures Hides(base, NextManifest(mem), symbol)
  {
    CommittedRows(mem);
    assert symbol in Lengths(mem);
  }

  /** A manager of an empty log that opened the bucket of a and got a fill of b. */
  function Opened(a: string, b: string, fill: Row): Memory {
    Memory([a, b], map[a := [], b := [fill]], map[], 0, 1, 0, Seed, 0, false)
  }

  const EMPTY := Manifest(0, 1, 0, map[], Seed, 0)

  lemma OpenedDelta(mem: Memory, a: string, b: string, fill: Row)
    requires mem == Opened(a, b, fill) && a != b && fill.symbol == b
    ensures ValidMemory(mem) && ValidRows(mem) && Fits(mem, mem.counts) && Delta(mem) == [fill]
  {
    assert mem.cache[a] == [] && mem.cache[b] == [fill];
    assert Pending(mem, map[], 1) == Pending(mem, map[], 0) + [][0..] == [];
    assert Pending(mem, map[], 2) == Pending(mem, map[], 1) + [fill][0..] == [fill];
  }

  lemma EmptyAligned(mem: Memory)
    requires mem.counts == map[] && mem.digest == Seed
    ensures Aligned(mem) && UniqueIds(RowsOf(mem.digest))
  {
  }

  lemma OneFill(fill: Row)
    requires fill.width == 0
    ensures EncodeAll([fill]) == [Cell(fill, 0)] && Extend(Seed, [fill]) == Link(Seed, fill) && RowsOf(Link(Seed, fill)) == [fill]
  {
    EncodeOne(fill);
    assert Encode(fill) == [Cell(fill, 0)];
    assert [fill][..0] == [];
    assert RowsOf(Link(Seed, fill)) == [] + [fill] == [fill];
  }

  lemma OpenedLengths(mem: Memory, a: string, b: string, fill: Row)
    requires mem == Opened(a, b, fill) && a != b
    ensures mem.counts + Lengths(mem) == map[a := 0, b := 1]
  {
    assert |mem.cache[a]| == 0 && |mem.cache[b]| == 1;
    assert Lengths(mem).Keys == {a, b};
  }

  lemma OpenedManifest(mem: Memory, a: string, b: string, fill: Row)
    requires mem == Opened(a, b, fill) && a != b && ValidMemory(mem) && Fits(mem, mem.counts) && Delta(mem) == [fill]
    requires EncodeAll([fill]) == [Cell(fill, 0)] && Extend(Seed, [fill]) == Link(Seed, fill)
    ensures NextManifest(mem) == Manifest(0, 2, 1, map[a := 0, b := 1], Link(Seed, fill), 0)
  {
    OpenedLengths(mem, a, b, fill);
  }

  /** The failing input: a reader has loaded an empty log; then one bucket is
      opened without a trade and another one gets its first. */
  lemma EmptySymbolRefused(mem: Memory, a: string, b: string, fill: Row)
    requires mem == Opened(a, b, fill) && a != b && fill.symbol == b && fill.width == 0
    ensures ValidMemory(mem) && Fits(mem, mem.counts) && Certifiable(EMPTY)
    ensures NextManifest(mem) == Manifest(0, 2, 1, map[a := 0, b := 1], Link(Seed, fill), 0)
    ensures SuffixRead(EMPTY, Some([Cell(fill, 0)]), NextManifest(mem)) == None
    ensures StrictRead(Some([Cell(fill, 0)]), NextManifest(mem)) == Some([fill])
  {
    var bytes := [Cell(fill, 0)];
    OpenedDelta(mem, a, b, fill);
    EmptyAligned(mem);
    OneFill(fill);
    OpenedManifest(mem, a, b, fill);
    assert EncodeAll([]) == [] && bytes[..1] == bytes;
    assert bytes[0..1] == bytes && mem.cache[a] == [];
    FollowsAppendExactly(EMPTY, mem, bytes);
    StrictReadRows(Some(bytes), NextManifest(mem));
  }

  // ------------------------------------------------------------------
  // The reader.
  // ------------------------------------------------------------------

  datatype Plan = Failed | Full | Suffix(base: Manifest, rows: seq<Row>)

  class TradeReader {
    var order: seq<string>
    var cache: map<string, seq<Row>>
    var loaded: Option<Manifest>
    var dirty: bool

    /** Unless another thread changed the rows in memory, they are exactly those of
        the loaded version, symbol by symbol. */
    ghost predicate Valid()
      reads this
    {
      && (forall symbol :: symbol in order <==> symbol in cache)
      && (loaded.Some? && !dirty ==>
            && UniqueIds(RowsOf(loaded.value.digest)) && CountsAgree(loaded.value.counts, RowsOf(loaded.value.digest))
            && Shows(cache, RowsOf(loaded.value.digest)))
    }

    constructor ()
      ensures Valid() && loaded.None? && !dirty
    {
      order, cache, loaded, dirty := [], map[], None, false;
    }

    predicate CanAppend(m: Manifest)
      reads this
    {
      loaded.Some? && !dirty && loaded.value.stream == m.stream && loaded.value.committed <= m.committed
    }

    /** The first half of `_ensure_trade_version`, on the bytes it happened to read. */
    method Prepare(m: Manifest, raw: Option<seq<Cell>>) returns (plan: Plan)
      requires Valid()
      ensures plan.Full? <==> !CanAppend(m)
      ensures plan.Suffix? ==> loaded == Some(plan.base) && SuffixRead(plan.base, raw, m) == Some(plan.rows)
      ensures plan.Failed? ==> CanAppend(m) && SuffixRead(loaded.value, raw, m).None?
    {
      if !CanAppend(m) {
        return Full;
      }
      if raw.None? {
        return Failed;
      }
      var rows := Parse(raw.value);
      if rows.None? {
        return Failed;
      }
      var unique := NewIds(rows.value);
      if !unique || Accumulate(loaded.value.counts, rows.value) != m.counts || Extend(loaded.value.digest, rows.value) != m.digest {
        return Failed;
      }
      return Suffix(loaded.value, rows.value);
    }

    /** No row repeats an ID of the cache or of the suffix. */
    method NewIds(rows: seq<Row>) returns (ok: bool)
      requires Valid() && loaded.Some? && !dirty
      ensures ok <==> UniqueIds(RowsOf(loaded.value.digest) + rows)
    {
      ghost var former := RowsOf(loaded.value.digest);
      var seen := set symbol, i | symbol in cache && 0 <= i < |cache[symbol]| :: (symbol, cache[symbol][i].id);
      KnownIds(cache, former, seen);
      var i := 0;
      while i < |rows|
        invariant 0 <= i <= |rows|
        invariant forall key :: key in seen <==> HasId(former + rows[..i], key)
        invariant UniqueIds(former + rows[..i])
      {
        var key := (rows[i].symbol, rows[i].id);
        NextId(former, rows, i);
        if key in seen {
          return false;
        }
        seen := seen + {key};
        i := i + 1;
      }
      assert rows[..i] == rows;
      return true;
    }

    /** The second half, after a second look at the manifest.  Other threads may
        have changed this reader in between. */
    method Commit(plan: Plan, m: Manifest, again: Manifest, full: Option<seq<Cell>>, last: Manifest) returns (ok: bool)
      requires Valid() && (plan.Suffix? ==> exists raw :: SuffixRead(plan.base, raw, m) == Some(plan.rows))
      modifies this
      ensures Valid()
      ensures plan.Failed? ==> !ok
      ensures ok ==> loaded == Some(m) && !dirty && Shows(cache, RowsOf(m.digest))
      ensures !ok ==> order == old(order) && cache == old(cache) && loaded == old(loaded) && dirty == old(dirty)
    {
      if plan.Failed? || again != m {
        return false;
      }
      if plan.Suffix? && !dirty && loaded == Some(plan.base) && T.CountsMatch(loaded.value.counts, cache) {
        Extended(plan.base, plan.rows, m, cache);
        Add(plan.rows);
        loaded := Some(m);
        return true;
      }
      var rows := T.ReadStrict(full, m);
      StrictReadRows(full, m);
      if rows.None? || last != m {
        return false;
      }
      order, cache := T.Grouped(rows.value);
      loaded, dirty := Some(m), false;
      return true;
    }

    /** `_ensure_trade_version`, when no other thread touches the reader: a version
        that names a new symbol without rows is refused, and since nothing changes,
        so is every later attempt. */
    method Reload(m: Manifest, raw: Option<seq<Cell>>, again: Manifest, full: Option<seq<Cell>>, last: Manifest) returns (ok: bool)
      requires Valid()
      modifies this
      ensures Valid()
      ensures ok ==> loaded == Some(m) && !dirty && Shows(cache, RowsOf(m.digest))
      ensures !ok ==> order == old(order) && cache == old(cache) && loaded == old(loaded) && dirty == old(dirty)
      ensures old(CanAppend(m)) && (exists symbol :: Hides(old(loaded).value, m, symbol)) ==> !ok
    {
      ghost var following := CanAppend(m);
      if following && exists symbol :: Hides(loaded.value, m, symbol) {
        var symbol :| Hides(loaded.value, m, symbol);
        HidingFails(loaded.value, raw, m, symbol);
      }
      var plan := Prepare(m, raw);
      ok := Commit(plan, m, again, full, last);
    }

    /** Appends one row to its bucket, opening the bucket when it is the first. */
    method AddOne(row: Row)
      requires forall symbol :: symbol in order <==> symbol in cache
      modifies this`order, this`cache
      ensures forall symbol :: symbol in order <==> symbol in cache
      ensures cache == old(cache)[row.symbol := Items(old(cache), row.symbol) + [row]]
    {
      if row.symbol in cache {
        cache := cache[row.symbol := cache[row.symbol] + [row]];
      } else {
        order, cache := order + [row.symbol], cache[row.symbol := [] + [row]];
      }
    }

    /** Appends rows to their buckets. */
    method Add(rows: seq<Row>)
      requires forall symbol :: symbol in order <==> symbol in cache
      modifies this`order, this`cache
      ensures forall symbol :: symbol in order <==> symbol in cache
      ensures cache == Added(old(cache), rows)
    {
      var i := 0;
      while i < |rows|
        invariant 0 <= i <= |rows|
        invariant forall symbol :: symbol in order <==> symbol in cache
        invariant cache == Added(old(cache), rows[..i])
      {
        assert rows[..i + 1][..i] == rows[..i];
        AddOne(rows[i]);
        i := i + 1;
      }
      assert rows[..i] == rows;
    }
  }

  /** The buckets after some more rows. */
  function Added(cache: map<string, seq<Row>>, rows: seq<Row>): map<string, seq<Row>> {
    if rows == [] then cache
    else
      var before := Added(cache, rows[..|rows| - 1]);
      var row := rows[|rows| - 1];
      before[row.symbol := Items(before, row.symbol) + [row]]
  }

  lemma {:induction false} AddedItems(cache: map<string, seq<Row>>, rows: seq<Row>, symbol: string)
    ensures Items(Added(cache, rows), symbol) == Items(cache, symbol) + Bucket(rows, symbol)
  {
    if rows != [] {
      AddedItems(cache, rows[..|rows| - 1], symbol);
    }
  }

  function Items(cache: map<string, seq<Row>>, symbol: string): seq<Row> {
    if symbol in cache then cache[symbol] else []
  }

  /** The cache holds the rows, symbol by symbol. */
  ghost predicate Shows(cache: map<string, seq<Row>>, rows: seq<Row>) {
    forall symbol {:trigger Bucket(rows, symbol)} {:trigger symbol in cache} :: Items(cache, symbol) == Bucket(rows, symbol)
  }

  ghost predicate HasId(rows: seq<Row>, key: (string, nat)) {
    exists i :: 0 <= i < |rows| && rows[i].symbol == key.0 && rows[i].id == key.1
  }

  lemma KnownIds(cache: map<string, seq<Row>>, rows: seq<Row>, seen: set<(string, nat)>)
    requires Shows(cache, rows)
    requires seen == set symbol, i | symbol in cache && 0 <= i < |cache[symbol]| :: (symbol, cache[symbol][i].id)
    ensures forall key :: key in seen <==> HasId(rows + [], key)
  {
    assert rows + [] == rows;
    forall key: (string, nat) ensures key in seen <==> HasId(rows, key) {
      BucketMembers(rows, key.0);
      var bucket := Bucket(rows, key.0);
      if HasId(rows, key) {
        var i :| 0 <= i < |rows| && rows[i].symbol == key.0 && rows[i].id == key.1;
        assert rows[i] in bucket;
        var j :| 0 <= j < |bucket| && bucket[j] == rows[i];
        assert Items(cache, key.0) == bucket;
        assert cache[key.0][j].id == key.1;
      }
      if key in seen {
        assert Items(cache, key.0) == bucket;
        var j :| 0 <= j < |cache[key.0]| && cache[key.0][j].id == key.1;
        assert bucket[j] in bucket;
        var i :| 0 <= i < |rows| && rows[i] == bucket[j];
      }
    }
  }

  lemma NextId(former: seq<Row>, rows: seq<Row>, i: nat)
    requires i < |rows| && UniqueIds(former + rows[..i])
    ensures former + rows[..i + 1] == (former + rows[..i]) + [rows[i]]
    ensures HasId(former + rows[..i], (rows[i].symbol, rows[i].id)) ==> !UniqueIds(former + rows)
    ensures !HasId(former + rows[..i], (rows[i].symbol, rows[i].id)) ==> UniqueIds(former + rows[..i + 1])
    ensures forall key :: HasId(former + rows[..i + 1], key) <==>
              HasId(former + rows[..i], key) || key == (rows[i].symbol, rows[i].id)
  {
    var before := former + rows[..i];
    assert former + rows[..i + 1] == before + [rows[i]];
    if HasId(before, (rows[i].symbol, rows[i].id)) {
      var j :| 0 <= j < |before| && before[j].symbol == rows[i].symbol && before[j].id == rows[i].id;
      assert (former + rows)[j] == before[j] && (former + rows)[|before|] == rows[i];
    }
    forall key ensures HasId(before + [rows[i]], key) <==> HasId(before, key) || key == (rows[i].symbol, rows[i].id) {
      if HasId(before, key) {
        var j :| 0 <= j < |before| && before[j].symbol == key.0 && before[j].id == key.1;
        assert (before + [rows[i]])[j] == before[j];
      }
      if key == (rows[i].symbol, rows[i].id) {
        assert (before + [rows[i]])[|before|] == rows[i];
      }
    }
  }

  /** The extended version, read off the suffix. */
  lemma Extended(base: Manifest, rows: seq<Row>, m: Manifest, cache: map<string, seq<Row>>)
    requires exists raw :: SuffixRead(base, raw, m) == Some(rows)
    requires Shows(cache, RowsOf(base.digest)) && CountsAgree(base.counts, RowsOf(base.digest))
    ensures RowsOf(m.digest) == RowsOf(base.digest) + rows && UniqueIds(RowsOf(m.digest))
    ensures CountsAgree(m.counts, RowsOf(m.digest))
    ensures Shows(Added(cache, rows), RowsOf(m.digest))
  {
    ExtendRows(base.digest, rows);
    forall symbol
      ensures Items(Added(cache, rows), symbol) == Bucket(RowsOf(base.digest) + rows, symbol)
      ensures |Bucket(RowsOf(base.digest) + rows, symbol)| == Count(m.counts, symbol)
    {
      BucketConcat(RowsOf(base.digest), rows, symbol);
      AccumulateCounts(base.counts, rows, symbol);
      AddedItems(cache, rows, symbol);
      assert Items(cache, symbol) == Bucket(RowsOf(base.digest), symbol);
      assert |Bucket(RowsOf(base.digest), symbol)| == Count(base.counts, symbol);
    }
  }
}
