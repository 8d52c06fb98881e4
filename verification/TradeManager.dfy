/** CacheTradeManager's persistence as the source runs it: loops over buckets and
    rows, with the process dying after any file operation. */
module TradeManagerFile {
  import opened Options
  import opened TradeRows
  import opened TradeDisk
  import opened TradeLog
  import opened TradeCommits
  import opened TradeFiles
  import R = TradeRuns

  datatype Saved = Stale | Invalid | Died | Stored

  /** How an append of valid rows by a current manager ends: a live file shorter
      than its boundary is only opened, which creates a missing one. */
  ghost predicate AppendEnds(d: Disk, mem: Memory, fuel: nat, saved: Saved, after: Disk, kept: Memory, left: nat)
    requires ValidMemory(mem) && Fits(mem, mem.counts)
  {
    if |Live(d)| < mem.committed then
      (saved.Died? || saved.Invalid?) && Ran(d, after, [Open], fuel, left, saved.Invalid?) && kept == mem
    else
      && (saved.Died? || saved.Stored?)
      && Ran(d, after, AppendOps(d, mem), fuel, left, saved.Stored?)
      && if saved.Stored? then R.Committed(mem, kept, NextManifest(mem)) else kept == mem
  }

  /** How a compaction ends: it needs a live file that satisfies its manifest, and
      finds invalid rows only after that file was kept. */
  ghost predicate CompactEnds(d: Disk, mem: Memory, linked: bool, unused: nat, fuel: nat, saved: Saved, after: Disk, kept: Memory, left: nat)
    requires ValidMemory(mem)
  {
    if !LiveCertified(d) then
      saved.Stale? && after == d && kept == mem.(needsRewrite := true)
    else if fuel > 0 && !ValidRows(mem) then
      saved.Invalid? && after == Do(d, Stage(linked)) && kept == mem.(needsRewrite := true)
    else
      && (saved.Died? || saved.Stored?)
      && Ran(d, after, CompactOps(d, mem, linked, unused), fuel, left, saved.Stored?)
      && if saved.Stored? then R.Committed(mem, kept, FirstManifest(mem, unused)) else kept == mem
  }

  /** How a save ends: a manager whose identity is not the durable one, or whose
      rows are invalid, changes nothing; a shrunk one compacts; any other appends. */
  ghost predicate SaveEnds(d: Disk, mem: Memory, linked: bool, unused: nat, fuel: nat, saved: Saved, after: Disk, kept: Memory, left: nat)
    requires ValidMemory(mem)
  {
    if !Current(d, mem) then saved.Stale? && after == d && kept == mem
    else if !ValidRows(mem) then saved.Invalid? && after == d && kept == mem
    else if Shrunk(mem) then CompactEnds(d, mem, linked, unused, fuel, saved, after, kept, left)
    else AppendEnds(d, mem, fuel, saved, after, kept, left)
  }

  class TradeManager {
    var order: seq<string>
    var cache: map<string, seq<Row>>
    var counts: map<string, nat>
    var stream: nat
    var revision: nat
    var committed: nat
    var digest: Chain
    var maxTs: int
    var needsRewrite: bool

    function Mem(): Memory
      reads this
    {
      Memory(order, cache, counts, stream, revision, committed, digest, maxTs, needsRewrite)
    }

    constructor ()
      ensures Mem() == Memory([], map[], map[], 0, 0, 0, Seed, 0, false)
    {
      order, cache, counts := [], map[], map[];
      stream, revision, committed, digest, maxTs, needsRewrite := 0, 0, 0, Seed, 0, false;
    }

    /** `_validate_account_rows_locked`: every row is in its own bucket and no ID
        occurs twice there. */
    method Validate() returns (ok: bool)
      requires ValidMemory(Mem())
      ensures ok <==> ValidRows(Mem())
    {
      var k := 0;
      while k < |order|
        invariant 0 <= k <= |order|
        invariant forall j :: 0 <= j < k ==> ValidBucket(cache[order[j]], order[j])
      {
        var good := CheckBucket(cache[order[k]], order[k]);
        if !good {
          assert order[k] in cache && !ValidBucket(cache[order[k]], order[k]);
          return false;
        }
        k := k + 1;
      }
      forall symbol | symbol in cache ensures ValidBucket(cache[symbol], symbol) {
        var j :| 0 <= j < |order| && order[j] == symbol;
      }
      return true;
    }

    /** Cut and tail of an append, everything before its manifest. */
    method WriteTail(files: Files) returns (alive: bool, rows: seq<Row>)
      requires ValidMemory(Mem()) && Fits(Mem(), counts)
      modifies files
      ensures Ran(old(files.disk), files.disk, TailOps(old(files.disk), Mem()), old(files.fuel), files.fuel, alive)
      ensures alive ==> rows == Delta(Mem())
    {
      ghost var head := if |Live(files.disk)| != committed then [Open, Truncate(committed)] else [Open];
      ghost var writes := Writes(EncodeAll(Delta(Mem())));
      assert TailOps(files.disk, Mem()) == head + writes;
      alive := OpenAt(files, |Live(files.disk)|);
      if !alive {
        RanDied(old(files.disk), files.disk, head, writes, old(files.fuel), files.fuel);
        return false, [];
      }
      label Opened:
      alive, rows := AppendPending(files);
      RanThen(old(files.disk), old@Opened(files.disk), files.disk, head, writes, old(files.fuel), old@Opened(files.fuel), files.fuel, alive);
    }

    /** The manifest of an append of these rows. */
    method Prepared(rows: seq<Row>) returns (next: Manifest)
      requires ValidMemory(Mem()) && Fits(Mem(), counts) && rows == Delta(Mem())
      ensures next == NextManifest(Mem())
    {
      next := Manifest(stream, if rows != [] then revision + 1 else revision, committed + |EncodeAll(rows)|,
                       counts + Lengths(Mem()), Extend(digest, rows), maxTs);
    }

    /** `_remember_account_commit_locked`. */
    method Remember(m: Manifest)
      modifies this
      ensures R.Committed(old(Mem()), Mem(), m)
    {
      counts, stream, revision, committed, digest := m.counts, m.stream, m.revision, m.committed, m.digest;
      needsRewrite := false;
    }

    /** The append itself.  A process that dies leaves exactly the operations it
        got done. */
    method Append(files: Files) returns (alive: bool)
      requires ValidMemory(Mem()) && Fits(Mem(), counts) && |Live(files.disk)| >= committed
      modifies this, files
      ensures Ran(old(files.disk), files.disk, AppendOps(old(files.disk), old(Mem())), old(files.fuel), files.fuel, alive)
      ensures !alive ==> Mem() == old(Mem())
      ensures alive ==> R.Committed(old(Mem()), Mem(), NextManifest(old(Mem())))
    {
      ghost var d0, mem := files.disk, Mem();
      ghost var tail, commit := TailOps(d0, mem), [PutMeta(NextManifest(mem))];
      assert AppendOps(d0, mem) == tail + commit by {
        CommitDone(d0, mem);
      }
      var rows;
      alive, rows := WriteTail(files);
      if !alive {
        RanDied(d0, files.disk, tail, commit, old(files.fuel), files.fuel);
        return;
      }
      label Written:
      var next := Prepared(rows);
      alive := files.Perform(PutMeta(next));
      RanThen(d0, old@Written(files.disk), files.disk, tail, commit, old(files.fuel), old@Written(files.fuel), files.fuel, alive);
      if alive {
        Remember(next);
      }
    }

    /** `_save_account_trade_append`: the identity check under the generation lock,
        the row check, then the append. */
    method SaveAppend(files: Files) returns (saved: Saved)
      requires ValidMemory(Mem()) && files.disk.meta.Some? && Fits(Mem(), counts)
      modifies this, files
      ensures if !Current(old(files.disk), old(Mem())) then
                saved.Stale? && files.disk == old(files.disk) && Mem() == old(Mem())
              else if !ValidRows(old(Mem())) then
                saved.Invalid? && files.disk == old(files.disk) && Mem() == old(Mem())
              else
                AppendEnds(old(files.disk), old(Mem()), old(files.fuel), saved, files.disk, Mem(), files.fuel)
    {
      var m := files.disk.meta.value;
      if !(m.stream == stream && m.revision == revision && m.committed == committed && m.digest == digest && m.maxTs <= maxTs) {
        return Stale;
      }
      var ok := Validate();
      if !ok {
        return Invalid;
      }
      var alive;
      if |Live(files.disk)| < committed {
        alive := files.Perform(Open);
        return if alive then Invalid else Died;
      }
      alive := Append(files);
      return if alive then Stored else Died;
    }

    /** Opens the data file and cuts it at the committed boundary. */
    method OpenAt(files: Files, size: nat) returns (alive: bool)
      modifies files
      ensures Ran(old(files.disk), files.disk, if size != committed then [Open, Truncate(committed)] else [Open],
                  old(files.fuel), files.fuel, alive)
    {
      alive := files.Perform(Open);
      if size != committed {
        assert [Open] + [Truncate(committed)] == [Open, Truncate(committed)];
        if alive {
          label Opened:
          alive := files.Perform(Truncate(committed));
          RanThen(old(files.disk), old@Opened(files.disk), files.disk, [Open], [Truncate(committed)],
                  old(files.fuel), old@Opened(files.fuel), files.fuel, alive);
        } else {
          RanDied(old(files.disk), files.disk, [Open], [Truncate(committed)], old(files.fuel), files.fuel);
        }
      }
    }

    /** Writes what each bucket holds beyond its persisted count. */
    method AppendPending(files: Files) returns (alive: bool, rows: seq<Row>)
      requires ValidMemory(Mem()) && Fits(Mem(), counts)
      modifies files
      ensures Ran(old(files.disk), files.disk, Writes(EncodeAll(Delta(Mem()))), old(files.fuel), files.fuel, alive)
      ensures alive ==> rows == Delta(Mem())
    {
      var mem := Mem();
      ghost var d0, f0 := files.disk, files.fuel;
      alive, rows := true, [];
      RanNothing(d0, f0);
      assert Writes(EncodeAll([])) == [];
      var k := 0;
      while k < |mem.order|
        invariant 0 <= k <= |mem.order| && alive && rows == Pending(mem, mem.counts, k)
        invariant Ran(d0, files.disk, Writes(EncodeAll(rows)), f0, files.fuel, true)
      {
        ghost var d1, f1 := files.disk, files.fuel;
        var added := mem.cache[mem.order[k]][Count(mem.counts, mem.order[k])..];
        alive := files.WriteRows(added);
        RowsThen(d0, d1, files.disk, rows, added, f0, f1, files.fuel, alive);
        rows := rows + added;
        if !alive {
          DiedAmong(mem, k + 1, rows, d0, files.disk, f0, files.fuel);
          return;
        }
        k := k + 1;
      }
    }

    /** A compaction after the certified file was kept. */
    method Rewrite(files: Files, unused: nat) returns (alive: bool)
      requires ValidMemory(Mem())
      modifies this, files
      ensures Ran(old(files.disk), files.disk,
                  [Publish(EncodeAll(AllRows(old(Mem())))), PutMeta(FirstManifest(old(Mem()), unused)), Discard],
                  old(files.fuel), files.fuel, alive)
      ensures if alive then R.Committed(old(Mem()), Mem(), FirstManifest(old(Mem()), unused)) else Mem() == old(Mem())
    {
      var all := Everything();
      var first := Manifest(unused, 1, |EncodeAll(all)|, Lengths(Mem()), Extend(Seed, all), maxTs);
      alive := PerformThree(files, Publish(EncodeAll(all)), PutMeta(first), Discard);
      if alive {
        Remember(first);
      }
    }

    /** `_compact_account_trade_jsonl`: every row of memory in a stream not used
        before, but only over a live file that satisfies its manifest. */
    method Compact(files: Files, linked: bool, unused: nat) returns (saved: Saved)
      requires ValidMemory(Mem()) && files.disk.meta.Some?
      modifies this, files
      ensures CompactEnds(old(files.disk), old(Mem()), linked, unused, old(files.fuel), saved, files.disk, Mem(), files.fuel)
    {
      var rows := ReadStrict(Content(files.disk, files.disk.data), files.disk.meta.value);
      if rows.None? {
        needsRewrite := true;
        return Stale;
      }
      ghost var d0, mem := files.disk, Mem();
      ghost var rest := [Publish(EncodeAll(AllRows(mem))), PutMeta(FirstManifest(mem, unused)), Discard];
      assert CompactOps(d0, mem, linked, unused) == [Stage(linked)] + rest;
      var alive := files.Perform(Stage(linked));
      if !alive {
        RanDied(d0, files.disk, [Stage(linked)], rest, old(files.fuel), files.fuel);
        return Died;
      }
      assert files.disk == Do(d0, Stage(linked)) by {
        assert [Stage(linked)][..1] == [Stage(linked)] && [Stage(linked)][..0] == [] && DoAll(d0, []) == d0;
      }
      label Staged:
      var ok := Validate();
      if !ok {
        needsRewrite := true;
        return Invalid;
      }
      alive := Rewrite(files, unused);
      RanThen(d0, old@Staged(files.disk), files.disk, [Stage(linked)], rest, old(files.fuel), old@Staged(files.fuel), files.fuel, alive);
      return if alive then Stored else Died;
    }

    /** Has any bucket become shorter than its persisted part? */
    method FitsNow() returns (ok: bool)
      requires ValidMemory(Mem())
      ensures ok <==> Fits(Mem(), counts)
    {
      var k := 0;
      while k < |order|
        invariant 0 <= k <= |order|
        invariant forall j :: 0 <= j < k ==> Count(counts, order[j]) <= |cache[order[j]]|
      {
        if Count(counts, order[k]) > |cache[order[k]]| {
          assert order[k] in cache && Count(counts, order[k]) > |cache[order[k]]|;
          return false;
        }
        k := k + 1;
      }
      return true;
    }

    /** `_save_account_trade_append`: a stale manager commits nothing; a shrunk one
        rewrites the file; any other one appends. */
    method Save(files: Files, linked: bool, unused: nat) returns (saved: Saved)
      requires ValidMemory(Mem()) && files.disk.meta.Some?
      modifies this, files
      ensures SaveEnds(old(files.disk), old(Mem()), linked, unused, old(files.fuel), saved, files.disk, Mem(), files.fuel)
    {
      var m := files.disk.meta.value;
      if !(m.stream == stream && m.revision == revision && m.committed == committed && m.digest == digest && m.maxTs <= maxTs) {
        return Stale;
      }
      var fits := FitsNow();
      if needsRewrite || !fits {
        var ok := Validate();
        if !ok {
          return Invalid;
        }
        saved := Compact(files, linked, unused);
      } else {
        saved := SaveAppend(files);
      }
    }

    method PerformThree(files: Files, a: FileOp, b: FileOp, c: FileOp) returns (alive: bool)
      modifies files
      ensures Ran(old(files.disk), files.disk, [a, b, c], old(files.fuel), files.fuel, alive)
    {
      var ops := [a, b, c];
      alive := true;
      RanNothing(files.disk, files.fuel);
      var k := 0;
      while k < 3
        invariant 0 <= k <= 3 && alive && Ran(old(files.disk), files.disk, ops[..k], old(files.fuel), files.fuel, true)
      {
        label Before:
        alive := files.Perform(ops[k]);
        assert ops[..k + 1] == ops[..k] + [ops[k]];
        RanThen(old(files.disk), old@Before(files.disk), files.disk, ops[..k], [ops[k]],
                old(files.fuel), old@Before(files.fuel), files.fuel, alive);
        if !alive {
          assert ops == ops[..k + 1] + ops[k + 1..];
          RanDied(old(files.disk), files.disk, ops[..k + 1], ops[k + 1..], old(files.fuel), files.fuel);
          return;
        }
        k := k + 1;
      }
      assert ops[..3] == ops;
    }

    method Everything() returns (rows: seq<Row>)
      requires ValidMemory(Mem())
      ensures rows == AllRows(Mem())
    {
      rows := [];
      var k := 0;
      while k < |order|
        invariant 0 <= k <= |order| && rows == Pending(Mem(), map[], k)
      {
        rows := rows + cache[order[k]][0..];
        k := k + 1;
      }
    }

    /** `_load_jsonl_generation_locked`: the live file, or the kept generation put
        back, or a failed load that changes nothing. */
    method Load(files: Files) returns (loaded: bool, died: bool)
      requires files.disk.meta.Some?
      modifies this, files
      ensures !Recoverable(old(files.disk)) ==> !loaded && !died && files.disk == old(files.disk) && Mem() == old(Mem())
      ensures Recoverable(old(files.disk)) ==>
                loaded == !died &&
                Ran(old(files.disk), files.disk, LoadOps(old(files.disk)).value, old(files.fuel), files.fuel, loaded)
      ensures died ==> Mem() == old(Mem())
      ensures loaded && Certifiable(old(files.disk).meta.value) ==> R.Loaded(Mem(), old(files.disk).meta.value)
    {
      var m := files.disk.meta.value;
      var rows := ReadStrict(Content(files.disk, files.disk.data), m);
      var alive;
      if rows.Some? {
        alive := files.Perform(Discard);
      } else {
        rows := ReadStrict(Content(files.disk, files.disk.prev), m);
        if rows.None? {
          return false, false;
        }
        alive := files.Perform(Restore);
      }
      if !alive {
        return false, true;
      }
      if Certifiable(m) {
        StrictReadExactly(Content(old(files.disk), old(files.disk.data)), m);
        StrictReadExactly(Content(old(files.disk), old(files.disk.prev)), m);
      }
      Adopt(rows.value, m);
      return true, false;
    }

    /** Memory becomes the loaded rows under their manifest. */
    method Adopt(rows: seq<Row>, m: Manifest)
      modifies this
      ensures Certifiable(m) && rows == RowsOf(m.digest) ==> R.Loaded(Mem(), m)
      ensures counts == m.counts && digest == m.digest && stream == m.stream && revision == m.revision
    {
      order, cache := Grouped(rows);
      Remember(m);
      maxTs := m.maxTs;
    }
  }

  ghost predicate ValidBucket(items: seq<Row>, symbol: string) {
    DistinctIds(items) && forall i :: 0 <= i < |items| ==> items[i].symbol == symbol
  }

  method CheckBucket(items: seq<Row>, symbol: string) returns (ok: bool)
    ensures ok <==> ValidBucket(items, symbol)
  {
    var seen: set<nat> := {};
    var i := 0;
    while i < |items|
      invariant 0 <= i <= |items|
      invariant forall id :: id in seen <==> exists j :: 0 <= j < i && items[j].id == id
      invariant forall j :: 0 <= j < i ==> items[j].symbol == symbol
      invariant forall j, k :: 0 <= j < k < i ==> items[j].id != items[k].id
    {
      if items[i].symbol != symbol || items[i].id in seen {
        return false;
      }
      seen := seen + {items[i].id};
      i := i + 1;
    }
    return true;
  }

  /** Rows by symbol, symbols in the order of their first row. */
  method Grouped(rows: seq<Row>) returns (order: seq<string>, cache: map<string, seq<Row>>)
    ensures forall i, j :: 0 <= i < j < |order| ==> order[i] != order[j]
    ensures forall symbol :: symbol in order <==> symbol in cache
    ensures forall symbol :: symbol in cache ==> cache[symbol] == Bucket(rows, symbol)
    ensures forall symbol :: symbol in cache <==> Bucket(rows, symbol) != []
  {
    order, cache := [], map[];
    var i := 0;
    while i < |rows|
      invariant 0 <= i <= |rows|
      invariant forall a, b :: 0 <= a < b < |order| ==> order[a] != order[b]
      invariant forall symbol :: symbol in order <==> symbol in cache
      invariant forall symbol :: symbol in cache ==> cache[symbol] == Bucket(rows[..i], symbol)
      invariant forall symbol :: symbol in cache <==> Bucket(rows[..i], symbol) != []
    {
      assert rows[..i + 1][..i] == rows[..i];
      var symbol := rows[i].symbol;
      if symbol in cache {
        cache := cache[symbol := cache[symbol] + [rows[i]]];
      } else {
        order, cache := order + [symbol], cache[symbol := [rows[i]]];
      }
      i := i + 1;
    }
    assert rows[..i] == rows;
  }

  predicate CountsMatch(counts: map<string, nat>, cache: map<string, seq<Row>>) {
    && (forall symbol :: symbol in cache.Keys ==> Count(counts, symbol) == |cache[symbol]|)
    && (forall symbol :: symbol in counts.Keys && symbol !in cache ==> counts[symbol] == 0)
  }

  /** `_read_trade_snapshot_strict`. */
  method ReadStrict(bytes: Option<seq<Cell>>, m: Manifest) returns (rows: Option<seq<Row>>)
    ensures rows == StrictRead(bytes, m)
  {
    if bytes.None? || |bytes.value| < m.committed {
      return None;
    }
    rows := Parse(bytes.value[..m.committed]);
    if rows.None? || Extend(Seed, rows.value) != m.digest {
      return None;
    }
    var unique := AllUnique(rows.value);
    var order, cache := Grouped(rows.value);
    assert CountsMatch(m.counts, cache) <==> CountsAgree(m.counts, rows.value) by {
      if CountsMatch(m.counts, cache) {
        forall symbol ensures |Bucket(rows.value, symbol)| == Count(m.counts, symbol) {
        }
      }
      if CountsAgree(m.counts, rows.value) {
        forall symbol | symbol in cache.Keys + m.counts.Keys ensures |Bucket(rows.value, symbol)| == Count(m.counts, symbol) {
        }
      }
    }
    if !unique || !CountsMatch(m.counts, cache) {
      return None;
    }
  }

  method AllUnique(rows: seq<Row>) returns (ok: bool)
    ensures ok <==> UniqueIds(rows)
  {
    var seen: set<(string, nat)> := {};
    var i := 0;
    while i < |rows|
      invariant 0 <= i <= |rows|
      invariant forall key :: key in seen <==> exists j :: 0 <= j < i && (rows[j].symbol, rows[j].id) == key
      invariant forall j, k :: 0 <= j < k < i && rows[j].symbol == rows[k].symbol ==> rows[j].id != rows[k].id
    {
      if (rows[i].symbol, rows[i].id) in seen {
        return false;
      }
      seen := seen + {(rows[i].symbol, rows[i].id)};
      i := i + 1;
    }
    return true;
  }

  /** A process that died among the buckets died within the whole tail. */
  lemma DiedAmong(mem: Memory, k: nat, rows: seq<Row>, before: Disk, after: Disk, fuel: nat, left: nat)
    requires ValidMemory(mem) && Fits(mem, mem.counts) && k <= |mem.order| && rows == Pending(mem, mem.counts, k)
    requires Ran(before, after, Writes(EncodeAll(rows)), fuel, left, false)
    ensures Ran(before, after, Writes(EncodeAll(Delta(mem))), fuel, left, false)
  {
    var later := PendingSplits(mem, mem.counts, k);
    RowsDied(before, after, rows, later, fuel, left);
  }

  /** What is still to be written after the first k buckets. */
  lemma {:induction false} PendingSplits(mem: Memory, counts: map<string, nat>, k: nat) returns (later: seq<Row>)
    requires ValidMemory(mem) && Fits(mem, counts) && k <= |mem.order|
    ensures Pending(mem, counts, |mem.order|) == Pending(mem, counts, k) + later
    decreases |mem.order| - k
  {
    if k == |mem.order| {
      later := [];
    } else {
      var rest := PendingSplits(mem, counts, k + 1);
      later := mem.cache[mem.order[k]][Count(counts, mem.order[k])..] + rest;
    }
  }
}
