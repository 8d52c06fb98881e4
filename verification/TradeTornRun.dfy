/** A run that loses the log, from the start.  Two managers load the same version;
    one compacts a pruned memory and dies between the data and its manifest; the
    other one, which still remembers the durable version, appends. */
module TradeTornRun {
  import opened Options
  import opened TradeRows
  import opened TradeDisk
  import opened TradeLog
  import opened TradeCommits
  import opened TradeTorn
  import opened TradeRuns

  const OLD := Row("A", 1, 0, 0)
  const OTHER := Row("A", 2, 0, 0)
  const NEW := Row("A", 3, 0, 0)
  const MANIFEST := Manifest(0, 1, 1, map["A" := 1], Link(Seed, OLD), 0)
  const WHOLE := Disk(map[0 := [Cell(OLD, 0)]], Some(0), None, Some(MANIFEST), 1)
  const TORN := Disk(map[0 := [Cell(OLD, 0)], 1 := [Cell(OTHER, 0)]], Some(1), Some(0), Some(MANIFEST), 2)
  const LOADED := Memory(["A"], map["A" := [OLD]], map["A" := 1], 0, 1, 1, Link(Seed, OLD), 0, false)
  const PRUNED := LOADED.(cache := map["A" := [OTHER]])
  const HOLDER := LOADED.(cache := map["A" := [OLD, NEW]])

  // ------------------------------------------------------------------
  // One row, for rows, manifests and memories of this shape.
  // ------------------------------------------------------------------

  lemma OneRowManifest(row: Row, m: Manifest)
    requires row.width == 0 && m.committed == 1 && m.revision == 1 && m.digest == Link(Seed, row) && m.counts == map[row.symbol := 1]
    ensures Certifiable(m) && RowsOf(m.digest) == [row] && EncodeAll([row]) == [Cell(row, 0)]
  {
    assert RowsOf(m.digest) == [] + [row] == [row];
    EncodeOne(row);
    assert Encode(row) == [Cell(row, 0)];
    forall symbol ensures |Bucket([row], symbol)| == Count(m.counts, symbol) {
      BucketOfOne([row], row.symbol, symbol);
    }
  }

  lemma OneRowDelta(mem: Memory, row: Row, next: Row)
    requires mem.order == [row.symbol] && mem.cache == map[row.symbol := [row, next]] && mem.counts == map[row.symbol := 1]
    requires ValidMemory(mem) && Fits(mem, mem.counts)
    ensures Delta(mem) == [next]
  {
    assert [row, next][1..] == [next];
    assert Pending(mem, mem.counts, 1) == Pending(mem, mem.counts, 0) + [next];
  }

  lemma OneRowAligned(mem: Memory, row: Row, next: Row)
    requires mem.order == [row.symbol] && mem.cache == map[row.symbol := [row, next]] && mem.counts == map[row.symbol := 1]
    requires mem.digest == Link(Seed, row)
    ensures Aligned(mem)
  {
    assert RowsOf(mem.digest) == [] + [row] == [row];
    forall symbol ensures Bucket([row], symbol) == if symbol == row.symbol then [row] else [] {
      BucketOfOne([row], row.symbol, symbol);
    }
    assert [row, next][..1] == [row];
  }

  lemma OneRowHolder(d: Disk, mem: Memory, row: Row, next: Row)
    requires row.width == 0 && next.symbol == row.symbol && next.id != row.id
    requires mem.order == [row.symbol] && mem.cache == map[row.symbol := [row, next]] && mem.counts == map[row.symbol := 1]
    requires mem.digest == Link(Seed, row) && Current(d, mem)
    ensures Ready(d, mem) && Delta(mem) == [next]
  {
    OneRowAligned(mem, row, next);
    OneRowDelta(mem, row, next);
  }

  lemma OneRowAll(mem: Memory, row: Row)
    requires mem.order == [row.symbol] && mem.cache == map[row.symbol := [row]]
    ensures ValidMemory(mem) && ValidRows(mem) && AllRows(mem) == [row]
  {
    assert Pending(mem, map[], 1) == Pending(mem, map[], 0) + [row];
  }

  /** The live file of one certified row. */
  lemma OneRowDisk(d: Disk, m: Manifest, row: Row)
    requires d.inodes == map[0 := [Cell(row, 0)]] && d.data == Some(0) && d.meta == Some(m) && m.committed == 1
    requires Certifiable(m) && RowsOf(m.digest) == [row] && EncodeAll([row]) == [Cell(row, 0)]
    ensures LiveCertified(d) && LoadOps(d) == Some([Discard])
  {
    StrictReadExactly(Content(d, d.data), m);
    assert [Cell(row, 0)][..1] == [Cell(row, 0)];
  }

  lemma TornDisk(d: Disk, mem: Memory, m: Manifest, row: Row, other: Row, next: Row)
    requires d.inodes == map[0 := [Cell(row, 0)], 1 := [Cell(other, 0)]] && d.data == Some(1) && d.prev == Some(0)
    requires d.meta == Some(m) && d.next == 2 && m.committed == 1 && row != other && next.width == 0
    requires Certifiable(m) && RowsOf(m.digest) == [row] && EncodeAll([row]) == [Cell(row, 0)]
    requires Ready(d, mem) && Delta(mem) == [next]
    ensures Recoverable(d) && !LiveCertified(d) && !KeptHolds(d, mem)
  {
    StrictReadExactly(Content(d, d.data), m);
    StrictReadExactly(Content(d, d.prev), m);
    assert [Cell(row, 0)][..1] == [Cell(row, 0)] && [Cell(other, 0)][..1] == [Cell(other, 0)];
    EncodeOne(next);
  }

  // ------------------------------------------------------------------
  // The run.
  // ------------------------------------------------------------------

  const STARTED := System(WHOLE, map[], [MANIFEST])
  const ONE := System(WHOLE, map[1 := LOADED], [MANIFEST])
  const BOTH := System(WHOLE, map[1 := LOADED, 2 := LOADED], [MANIFEST])
  const GROWN := System(WHOLE, map[1 := LOADED, 2 := HOLDER], [MANIFEST])
  const LEFT := System(TORN, map[2 := HOLDER], [MANIFEST])

  lemma Loading(s: System, s': System, who: nat, m: Manifest, row: Row)
    requires s.disk.prev.None? && s.disk.meta == Some(m) && LiveCertified(s.disk) && LoadOps(s.disk) == Some([Discard])
    requires m == Manifest(0, 1, 1, map[row.symbol := 1], Link(Seed, row), 0) && RowsOf(m.digest) == [row]
    requires s' == s.(mems := s.mems[who := Memory([row.symbol], map[row.symbol := [row]], map[row.symbol := 1], 0, 1, 1, Link(Seed, row), 0, false)])
    ensures Happens(s, s', LoadEvent(who, 1, s'.mems[who]))
  {
    var mem := s'.mems[who];
    var ops := [Discard];
    assert ops[..1] == ops && ops[..0] == [];
    assert DoAll(s.disk, ops) == Do(DoAll(s.disk, []), Discard) == s.disk;
    forall symbol ensures Bucket([row], symbol) == if symbol == row.symbol then [row] else [] {
      BucketOfOne([row], row.symbol, symbol);
    }
    assert Loads(s, s', who, 1, mem);
  }

  lemma Growing(s: System, s': System, who: nat, mem: Memory)
    requires who in s.mems && ValidMemory(mem) && mem == s.mems[who].(cache := mem.cache)
    requires forall symbol :: symbol in s.mems[who].cache ==> symbol in mem.cache && s.mems[who].cache[symbol] <= mem.cache[symbol]
    requires s' == s.(mems := s.mems[who := mem])
    ensures Happens(s, s', CollectEvent(who, mem))
  {
  }

  /** Staging the live file by a hard link and publishing new data, and then death. */
  lemma Tearing(s: System, s': System, who: nat, mem: Memory, row: Row, other: Row, after: Memory)
    requires who in s.mems && ValidMemory(mem) && ValidRows(mem) && AllRows(mem) == [other] && LiveCertified(s.disk)
    requires EncodeAll([other]) == [Cell(other, 0)] && s.disk.inodes == map[0 := [Cell(row, 0)]] && s.disk.data == Some(0) && s.disk.next == 1
    requires s'.disk == Disk(map[0 := [Cell(row, 0)], 1 := [Cell(other, 0)]], Some(1), Some(0), s.disk.meta, 2)
    requires s'.mems == s.mems - {who} && s'.history == s.history
    requires forall i :: 0 <= i < |s.history| ==> s.history[i].stream != 5
    ensures Happens(s, s', CompactEvent(who, mem, true, 5, 2, after))
  {
    CompactStates(s.disk, mem, true, 5, 2);
    var d1 := Do(s.disk, Stage(true));
    assert d1 == s.disk.(prev := Some(0));
    assert Do(d1, Publish([Cell(other, 0)])).inodes == map[0 := [Cell(row, 0)], 1 := [Cell(other, 0)]];
  }

  lemma Loaded1()
    ensures Start(STARTED) && Happens(STARTED, ONE, LoadEvent(1, 1, LOADED))
  {
    OneRowManifest(OLD, MANIFEST);
    OneRowDisk(WHOLE, MANIFEST, OLD);
    Loading(STARTED, ONE, 1, MANIFEST, OLD);
  }

  lemma Loaded2()
    ensures Happens(ONE, BOTH, LoadEvent(2, 1, LOADED))
  {
    OneRowManifest(OLD, MANIFEST);
    OneRowDisk(WHOLE, MANIFEST, OLD);
    Loading(ONE, BOTH, 2, MANIFEST, OLD);
  }

  lemma Grown()
    ensures Happens(BOTH, GROWN, CollectEvent(2, HOLDER))
  {
    assert [OLD] <= [OLD, NEW];
    Growing(BOTH, GROWN, 2, HOLDER);
  }

  lemma Torn()
    ensures Happens(GROWN, LEFT, CompactEvent(1, PRUNED, true, 5, 2, PRUNED))
  {
    OneRowManifest(OLD, MANIFEST);
    OneRowDisk(WHOLE, MANIFEST, OLD);
    OneRowAll(PRUNED, OTHER);
    OneCell(OTHER);
    Alone();
    Tearing(GROWN, LEFT, 1, PRUNED, OLD, OTHER, PRUNED);
  }

  lemma OneCell(row: Row)
    requires row.width == 0
    ensures EncodeAll([row]) == [Cell(row, 0)]
  {
    EncodeOne(row);
    assert Encode(row) == [Cell(row, 0)];
  }

  lemma Alone()
    ensures GROWN.mems - {1} == LEFT.mems
  {
  }

  lemma TornState()
    ensures Ready(TORN, HOLDER) && Recoverable(TORN) && !LiveCertified(TORN) && !KeptHolds(TORN, HOLDER)
  {
    OneRowManifest(OLD, MANIFEST);
    OneRowHolder(TORN, HOLDER, OLD, NEW);
    TornDisk(TORN, HOLDER, MANIFEST, OLD, OTHER, NEW);
  }

  // ------------------------------------------------------------------
  // Putting the run together.
  // ------------------------------------------------------------------

  lemma OneMore(run: seq<System>, events: seq<Event>, s': System, e: Event)
    requires IsRun(run, events) && Happens(run[|run| - 1], s', e)
    ensures IsRun(run + [s'], events + [e])
  {
    var longer, more := run + [s'], events + [e];
    forall i, j | 0 <= i < |more| && j == i + 1 ensures Happens(longer[i], longer[j], more[i]) {
      if i < |events| {
        assert longer[i] == run[i] && longer[j] == run[j] && more[i] == events[i];
        assert Happens(run[i], run[j], events[i]);
      }
    }
  }

  predicate NoAppends(events: seq<Event>) {
    forall i :: 0 <= i < |events| ==> !events[i].AppendEvent?
  }

  /** The run up to the torn compaction. */
  lemma ToOne() returns (run: seq<System>, events: seq<Event>)
    ensures IsRun(run, events) && |run| == 2 && run[1] == ONE && NoAppends(events)
  {
    Loaded1();
    assert IsRun([STARTED], []);
    run, events := Then([STARTED], [], ONE, LoadEvent(1, 1, LOADED));
  }

  lemma ToBoth() returns (run: seq<System>, events: seq<Event>)
    ensures IsRun(run, events) && |run| == 3 && run[2] == BOTH && NoAppends(events)
  {
    run, events := ToOne();
    Loaded2();
    run, events := Then(run, events, BOTH, LoadEvent(2, 1, LOADED));
  }

  lemma ToGrown() returns (run: seq<System>, events: seq<Event>)
    ensures IsRun(run, events) && |run| == 4 && run[3] == GROWN && NoAppends(events)
  {
    run, events := ToBoth();
    Grown();
    run, events := Then(run, events, GROWN, CollectEvent(2, HOLDER));
  }

  lemma ToTorn() returns (run: seq<System>, events: seq<Event>)
    ensures IsRun(run, events) && |run| == 5 && run[4] == LEFT && NoAppends(events)
  {
    run, events := ToGrown();
    Torn();
    run, events := Then(run, events, LEFT, CompactEvent(1, PRUNED, true, 5, 2, PRUNED));
  }

  lemma Then(run0: seq<System>, events0: seq<Event>, s': System, e: Event) returns (run: seq<System>, events: seq<Event>)
    requires IsRun(run0, events0) && Happens(run0[|run0| - 1], s', e)
    ensures IsRun(run, events) && |run| == |run0| + 1 && run[|run| - 1] == s'
    ensures events == events0 + [e] && run[..|run0|] == run0
  {
    OneMore(run0, events0, s', e);
    run, events := run0 + [s'], events0 + [e];
  }

  /** The append of a manager over a torn disk. */
  lemma Appending(s: System, who: nat, mem: Memory) returns (s': System, e: Event)
    requires who in s.mems && s.mems[who] == mem && Ready(s.disk, mem) && !mem.needsRewrite
    requires Content(s.disk, s.disk.data).Some? && |Live(s.disk)| >= mem.committed
    requires !LiveCertified(s.disk) && !KeptHolds(s.disk, mem)
    ensures Happens(s, s', e) && Loses(s, e)
  {
    var m, ops := NextManifest(mem), AppendOps(s.disk, mem);
    var after := mem.(counts := m.counts, stream := m.stream, revision := m.revision, committed := m.committed, digest := m.digest);
    s' := System(DoAll(s.disk, ops), s.mems[who := after], s.history + [m]);
    e := AppendEvent(who, |ops|, after);
    Whole(s.disk, ops);
    WholeAppend(s, s', who, mem, after);
  }

  lemma Whole(d: Disk, ops: seq<FileOp>)
    ensures DoAll(d, ops[..|ops|]) == DoAll(d, ops)
  {
    assert ops[..|ops|] == ops;
  }

  lemma WholeAppend(s: System, s': System, who: nat, mem: Memory, after: Memory)
    requires who in s.mems && s.mems[who] == mem && MayAppend(s, who) && Reaches(s.disk, mem)
    requires s'.disk == DoAll(s.disk, AppendOps(s.disk, mem)) && s'.mems == s.mems[who := after]
    requires s'.history == s.history + [NextManifest(mem)] && Committed(mem, after, NextManifest(mem))
    ensures Appends(s, s', who, |AppendOps(s.disk, mem)|, after)
  {
    Whole(s.disk, AppendOps(s.disk, mem));
  }

  /** The failing case: recovery would have loaded the old row from the kept
      generation, but a live manager appends first and nothing can be loaded. */
  lemma TornAppendLosesTheLog() returns (run: seq<System>, events: seq<Event>)
    ensures IsRun(run, events) && |run| == 6
    ensures (forall i :: 0 <= i < 5 ==> Recoverable(run[i].disk)) && !Recoverable(run[5].disk)
    ensures Loses(run[4], events[4])
  {
    TornState();
    var before, first := ToTorn();
    var lost, e := Appending(LEFT, 2, HOLDER);
    run, events := LostRun(before, first, LEFT, lost, e);
  }

  lemma LostRun(before: seq<System>, first: seq<Event>, s: System, lost: System, e: Event) returns (run: seq<System>, events: seq<Event>)
    requires IsRun(before, first) && |before| == 5 && NoAppends(first) && before[4] == s && Happens(s, lost, e) && Loses(s, e)
    ensures IsRun(run, events) && |run| == 6
    ensures (forall i :: 0 <= i < 5 ==> Recoverable(run[i].disk)) && !Recoverable(run[5].disk)
    ensures Loses(run[4], events[4])
  {
    run, events := Then(before, first, lost, e);
    Joined(before, first, s, lost, e, run, events);
    SafeUntil(run, events, 4);
    LostNow(run, events, 4);
  }

  lemma Joined(before: seq<System>, first: seq<Event>, s: System, lost: System, e: Event, run: seq<System>, events: seq<Event>)
    requires |before| == 5 && |first| == 4 && NoAppends(first) && before[4] == s
    requires |run| == 6 && run[..5] == before && run[5] == lost && events == first + [e]
    ensures run[4] == s && events[4] == e && forall i :: 0 <= i < 4 ==> !events[i].AppendEvent?
  {
    assert run[4] == run[..5][4];
  }

  lemma SafeUntil(run: seq<System>, events: seq<Event>, n: nat)
    requires IsRun(run, events) && n < |run| && forall i :: 0 <= i < n ==> !events[i].AppendEvent?
    ensures forall i :: 0 <= i <= n ==> Recoverable(run[i].disk)
  {
    forall i | 0 <= i <= n ensures Recoverable(run[i].disk) {
      SafeSoFar(run, events, i);
    }
  }

  /** Without a loss before it, a state is recoverable. */
  lemma SafeSoFar(run: seq<System>, events: seq<Event>, n: nat)
    requires IsRun(run, events) && n < |run| && forall i :: 0 <= i < n ==> !events[i].AppendEvent?
    ensures Recoverable(run[n].disk)
  {
    RunInv(run, events, n);
  }

  lemma LostNow(run: seq<System>, events: seq<Event>, n: nat)
    requires IsRun(run, events) && n < |events| && Loses(run[n], events[n]) && forall i :: 0 <= i < n ==> !events[i].AppendEvent?
    ensures !Recoverable(run[n + 1].disk)
  {
    RunInv(run, events, n);
    assert Happens(run[n], run[n + 1], events[n]);
    LosingLoses(run[n], run[n + 1], events[n]);
  }
}
