/** Crash points.  A commit that dies after n of its file operations leaves the
    disk in the state these lemmas describe; recovery then does the rest. */
module TradeCommits {
  import opened Options
  import opened TradeRows
  import opened TradeDisk
  import opened TradeLog

  function Writes(bytes: seq<Cell>): (ops: seq<FileOp>)
    ensures |ops| == |bytes|
  {
    seq(|bytes|, (i: nat) requires i < |bytes| => Write(bytes[i]))
  }

  /** The append: cut what lies beyond the boundary, write the new rows, commit. */
  ghost function AppendOps(d: Disk, mem: Memory): seq<FileOp>
    requires ValidMemory(mem) && Fits(mem, mem.counts)
  {
    if |Live(d)| < mem.committed then [Open]
    else
      [Open] + (if |Live(d)| != mem.committed then [Truncate(mem.committed)] else [])
      + Writes(EncodeAll(Delta(mem))) + [PutMeta(NextManifest(mem))]
  }

  /** The compaction: keep the certified file, publish the new one, commit. */
  ghost function CompactOps(d: Disk, mem: Memory, linked: bool, stream: nat): seq<FileOp>
    requires ValidMemory(mem)
  {
    if !LiveCertified(d) then []
    else [Stage(linked), Publish(EncodeAll(AllRows(mem))), PutMeta(FirstManifest(mem, stream)), Discard]
  }

  // ------------------------------------------------------------------
  // Append.
  // ------------------------------------------------------------------

  /** The data file exists with the given bytes; names and manifest are as before. */
  predicate Rewritten(d: Disk, after: Disk, bytes: seq<Cell>) {
    && d.data.Some? && after.data == d.data && after.prev == d.prev && after.meta == d.meta
    && after.next == d.next && after.inodes == d.inodes[d.data.value := bytes]
  }

  lemma {:induction false} WritesAppend(d: Disk, bytes: seq<Cell>)
    requires Content(d, d.data).Some?
    ensures Rewritten(d, DoAll(d, Writes(bytes)), Live(d) + bytes)
  {
    if bytes == [] {
      assert Writes(bytes) == [] && Live(d) + bytes == Live(d);
    } else {
      var n := |bytes| - 1;
      WritesAppend(d, bytes[..n]);
      assert Writes(bytes)[..n] == Writes(bytes[..n]) && Writes(bytes)[n] == Write(bytes[n]);
      assert Live(d) + bytes == (Live(d) + bytes[..n]) + [bytes[n]];
    }
  }

  lemma WritesPrefix(bytes: seq<Cell>, n: nat)
    requires n <= |bytes|
    ensures Writes(bytes)[..n] == Writes(bytes[..n])
  {
  }

  /** The part of an append before its manifest. */
  ghost function TailOps(d: Disk, mem: Memory): seq<FileOp>
    requires ValidMemory(mem) && Fits(mem, mem.counts)
  {
    [Open] + (if |Live(d)| != mem.committed then [Truncate(mem.committed)] else []) + Writes(EncodeAll(Delta(mem)))
  }

  lemma OpenDone(d: Disk)
    requires Content(d, d.data).Some?
    ensures DoAll(d, [Open]) == d
  {
    assert [Open][..0] == [] && DoAll(d, []) == d;
  }

  /** Cutting and then writing, interrupted anywhere. */
  lemma TailState(d: Disk, size: nat, bytes: seq<Cell>, head: seq<FileOp>, n: nat) returns (k: nat)
    requires Content(d, d.data).Some? && |Live(d)| >= size && n <= |head| + |bytes|
    requires head == if |Live(d)| != size then [Open, Truncate(size)] else [Open]
    ensures k <= |bytes| && (n == |head| + |bytes| ==> k == |bytes|)
    ensures var after := DoAll(d, (head + Writes(bytes))[..n]);
            (n < |head| && after == d) || Rewritten(d, after, Live(d)[..size] + bytes[..k])
  {
    var ops := head + Writes(bytes);
    OpenDone(d);
    if n < |head| {
      assert ops[..n] == [] || ops[..n] == [Open];
      k := 0;
    } else {
      k := n - |head|;
      CutDone(d, size, head);
      assert ops[..n] == head + Writes(bytes)[..k];
      WritesPrefix(bytes, k);
      DoAllConcat(d, head, Writes(bytes[..k]));
      WritesAppend(DoAll(d, head), bytes[..k]);
    }
  }

  /** Until the manifest is replaced, the committed bytes stay where they are. */
  lemma TailPoint(d: Disk, mem: Memory, n: nat) returns (k: nat)
    requires ValidMemory(mem) && Fits(mem, mem.counts) && Content(d, d.data).Some?
    requires |Live(d)| >= mem.committed && n <= |TailOps(d, mem)|
    ensures k <= |EncodeAll(Delta(mem))|
    ensures var after := DoAll(d, TailOps(d, mem)[..n]);
            after == d || Rewritten(d, after, Live(d)[..mem.committed] + EncodeAll(Delta(mem))[..k])
    ensures n == |TailOps(d, mem)| ==>
              Rewritten(d, DoAll(d, TailOps(d, mem)[..n]), Live(d)[..mem.committed] + EncodeAll(Delta(mem)))
  {
    var bytes := EncodeAll(Delta(mem));
    var head := if |Live(d)| != mem.committed then [Open, Truncate(mem.committed)] else [Open];
    assert TailOps(d, mem) == head + Writes(bytes);
    k := TailState(d, mem.committed, bytes, head, n);
    assert k == |bytes| ==> bytes[..k] == bytes;
  }

  lemma CutDone(d: Disk, size: nat, head: seq<FileOp>)
    requires Content(d, d.data).Some? && |Live(d)| >= size
    requires head == if |Live(d)| != size then [Open, Truncate(size)] else [Open]
    ensures Rewritten(d, DoAll(d, head), Live(d)[..size])
    ensures Live(DoAll(d, head)) == Live(d)[..size]
  {
    OpenDone(d);
    if |Live(d)| != size {
      assert head[..1] == [Open];
      assert DoAll(d, head) == Do(d, Truncate(size));
    } else {
      assert Live(d)[..size] == Live(d);
      assert d.inodes == d.inodes[d.data.value := Live(d)];
    }
  }

  lemma CommitDone(d: Disk, mem: Memory)
    requires ValidMemory(mem) && Fits(mem, mem.counts) && |Live(d)| >= mem.committed
    ensures AppendOps(d, mem) == TailOps(d, mem) + [PutMeta(NextManifest(mem))]
    ensures DoAll(d, AppendOps(d, mem)) == DoAll(d, TailOps(d, mem)).(meta := Some(NextManifest(mem)))
  {
    assert AppendOps(d, mem) == TailOps(d, mem) + [PutMeta(NextManifest(mem))];
    assert AppendOps(d, mem)[..|TailOps(d, mem)|] == TailOps(d, mem);
  }

  /** A manager that may append: it is current and agrees with the log. */
  ghost predicate Ready(d: Disk, mem: Memory) {
    ValidMemory(mem) && ValidRows(mem) && Aligned(mem) && Fits(mem, mem.counts) && Current(d, mem)
  }

  lemma KeepsCommitted(d: Disk, after: Disk, mem: Memory, extra: seq<Cell>)
    requires LiveCertified(d) && Certifiable(d.meta.value) && mem.committed == d.meta.value.committed
    requires Rewritten(d, after, Live(d)[..mem.committed] + extra)
    ensures LiveCertified(after) && after.meta == d.meta
  {
    StrictReadExactly(Content(d, d.data), d.meta.value);
    StrictReadExactly(Content(after, after.data), d.meta.value);
    assert (Live(d)[..mem.committed] + extra)[..mem.committed] == Live(d)[..mem.committed];
  }

  lemma AppendInterrupted(d: Disk, mem: Memory, n: nat, after: Disk)
    requires LiveCertified(d) && Certifiable(d.meta.value) && Ready(d, mem) && |Live(d)| >= mem.committed
    requires n <= |TailOps(d, mem)| && after == DoAll(d, TailOps(d, mem)[..n])
    ensures LiveCertified(after) && after.meta == d.meta && after.prev == d.prev
  {
    var k := TailPoint(d, mem, n);
    if after != d {
      KeepsCommitted(d, after, mem, EncodeAll(Delta(mem))[..k]);
    }
  }

  lemma AppendCompleted(d: Disk, mem: Memory, after: Disk)
    requires LiveCertified(d) && Certifiable(d.meta.value) && Ready(d, mem) && |Live(d)| >= mem.committed
    requires after == DoAll(d, AppendOps(d, mem))
    ensures LiveCertified(after) && after.meta == Some(NextManifest(mem)) && after.prev == d.prev
    ensures Certifiable(NextManifest(mem))
  {
    var tail := TailOps(d, mem);
    CommitDone(d, mem);
    var k := TailPoint(d, mem, |tail|);
    assert tail[..|tail|] == tail;
    AppendCommits(d, mem, DoAll(d, tail));
  }

  /** An append that dies anywhere leaves a live file that satisfies the manifest
      then on disk: the old one before the last operation, the new one after it. */
  lemma AppendAnyPoint(d: Disk, mem: Memory, n: nat)
    requires LiveCertified(d) && Certifiable(d.meta.value) && Ready(d, mem) && n <= |AppendOps(d, mem)|
    ensures var after := DoAll(d, AppendOps(d, mem)[..n]);
            && LiveCertified(after) && Certifiable(after.meta.value) && after.prev == d.prev
            && after.meta == if n < |AppendOps(d, mem)| then d.meta else Some(NextManifest(mem))
  {
    LiveReaches(d, mem.committed);
    CommitDone(d, mem);
    if n < |AppendOps(d, mem)| {
      assert AppendOps(d, mem)[..n] == TailOps(d, mem)[..n];
      AppendInterrupted(d, mem, n, DoAll(d, TailOps(d, mem)[..n]));
    } else {
      assert AppendOps(d, mem)[..n] == AppendOps(d, mem);
      AppendCompleted(d, mem, DoAll(d, AppendOps(d, mem)));
    }
  }

  lemma LiveReaches(d: Disk, committed: nat)
    requires LiveCertified(d) && d.meta.value.committed == committed
    ensures Content(d, d.data).Some? && |Live(d)| >= committed
  {
  }

  lemma AppendCommits(d: Disk, mem: Memory, written: Disk)
    requires LiveCertified(d) && Certifiable(d.meta.value) && Ready(d, mem)
    requires Rewritten(d, written, Live(d)[..mem.committed] + EncodeAll(Delta(mem)))
    ensures LiveCertified(written.(meta := Some(NextManifest(mem)))) && Certifiable(NextManifest(mem))
  {
    var after := written.(meta := Some(NextManifest(mem)));
    CommittedRows(mem);
    StrictReadExactly(Content(d, d.data), d.meta.value);
    StrictReadExactly(Content(after, after.data), NextManifest(mem));
    EncodeConcat(RowsOf(mem.digest), Delta(mem));
  }

  // ------------------------------------------------------------------
  // Compaction.
  // ------------------------------------------------------------------

  /** The four states of a compaction. */
  lemma CompactStates(d: Disk, mem: Memory, linked: bool, stream: nat, n: nat)
    requires ValidMemory(mem) && LiveCertified(d) && n <= 4
    ensures var ops := CompactOps(d, mem, linked, stream);
            var d1 := Do(d, Stage(linked));
            var d2 := Do(d1, Publish(EncodeAll(AllRows(mem))));
            var d3 := Do(d2, PutMeta(FirstManifest(mem, stream)));
            DoAll(d, ops[..n]) == if n == 0 then d else if n == 1 then d1 else if n == 2 then d2 else if n == 3 then d3
                                  else Do(d3, Discard)
  {
    var ops := CompactOps(d, mem, linked, stream);
    assert ops[..0] == [] && ops[..1][..0] == [] && ops[..2][..1] == ops[..1] && ops[..3][..2] == ops[..2] && ops[..4][..3] == ops[..3];
    assert DoAll(d, []) == d;
    assert DoAll(d, ops[..1]) == Do(DoAll(d, []), ops[0]);
    assert DoAll(d, ops[..2]) == Do(DoAll(d, ops[..1]), ops[1]);
    assert DoAll(d, ops[..3]) == Do(DoAll(d, ops[..2]), ops[2]);
    assert DoAll(d, ops[..4]) == Do(DoAll(d, ops[..3]), ops[3]);
  }

  /** Staging copies or links the live file ... */
  lemma Staged(d: Disk, linked: bool, d1: Disk)
    requires ValidDisk(d) && Content(d, d.data).Some? && d1 == Do(d, Stage(linked))
    ensures ValidDisk(d1) && d1.meta == d.meta
    ensures Content(d1, d1.data) == Content(d, d.data) && Content(d1, d1.prev) == Content(d, d.data)
  {
  }

  /** ... and publishing touches neither copy. */
  lemma Published(d: Disk, bytes: seq<Cell>, d2: Disk)
    requires ValidDisk(d) && d2 == Do(d, Publish(bytes))
    ensures ValidDisk(d2) && d2.meta == d.meta
    ensures Content(d2, d2.data) == Some(bytes) && Content(d2, d2.prev) == Content(d, d.prev)
  {
  }

  lemma ExactFile(d: Disk, m: Manifest)
    requires Certifiable(m) && d.meta == Some(m) && Content(d, d.data) == Some(EncodeAll(RowsOf(m.digest)))
    ensures LiveCertified(d)
  {
    var bytes := EncodeAll(RowsOf(m.digest));
    assert bytes[..|bytes|] == bytes;
    StrictReadExactly(Some(bytes), m);
  }

  /** Names and manifest after n operations of a compaction. */
  lemma CompactShape(d: Disk, mem: Memory, linked: bool, stream: nat, n: nat, after: Disk)
    requires ValidDisk(d) && LiveCertified(d) && ValidMemory(mem) && n <= 4
    requires after == DoAll(d, CompactOps(d, mem, linked, stream)[..n])
    ensures after.meta == (if n < 3 then d.meta else Some(FirstManifest(mem, stream)))
    ensures Content(after, after.data) == (if n < 2 then Content(d, d.data) else Some(EncodeAll(AllRows(mem))))
    ensures n == 1 || n == 2 ==> Content(after, after.prev) == Content(d, d.data)
  {
    CompactStates(d, mem, linked, stream, n);
    var bytes := EncodeAll(AllRows(mem));
    var d1 := Do(d, Stage(linked));
    var d2 := Do(d1, Publish(bytes));
    Staged(d, linked, d1);
    Published(d1, bytes, d2);
    LastShape(d2, FirstManifest(mem, stream), n, after);
  }

  lemma LastShape(d2: Disk, m: Manifest, n: nat, after: Disk)
    requires n >= 3 ==> after == (if n == 3 then Do(d2, PutMeta(m)) else Do(Do(d2, PutMeta(m)), Discard))
    ensures n >= 3 ==> after.meta == Some(m) && Content(after, after.data) == Content(d2, d2.data)
  {
  }

  /** A compaction that dies anywhere can be recovered from, to the manifest then
      on disk.  Only between publishing the data and replacing the manifest does
      that take the kept generation, whether it is a hard link or a copy. */
  lemma CompactAnyPoint(d: Disk, mem: Memory, linked: bool, stream: nat, n: nat, after: Disk)
    requires ValidDisk(d) && LiveCertified(d) && Certifiable(d.meta.value) && ValidMemory(mem) && ValidRows(mem) && n <= 4
    requires after == DoAll(d, CompactOps(d, mem, linked, stream)[..n])
    ensures Recoverable(after) && Certifiable(after.meta.value)
    ensures after.meta == (if n < 3 then d.meta else Some(FirstManifest(mem, stream)))
    ensures n != 2 ==> LiveCertified(after)
    ensures n == 1 || n == 2 ==> PrevCertified(after)
  {
    CompactShape(d, mem, linked, stream, n, after);
    if n < 3 {
      SameContents(d, after);
    } else {
      CompactedRows(mem, stream);
      ExactFile(after, FirstManifest(mem, stream));
    }
  }

  lemma SameContents(d: Disk, after: Disk)
    requires LiveCertified(d) && after.meta == d.meta
    ensures Content(after, after.data) == Content(d, d.data) ==> LiveCertified(after)
    ensures Content(after, after.prev) == Content(d, d.data) ==> PrevCertified(after)
  {
  }

  /** A failed compaction puts the kept generation back, or has not touched the
      live file yet. */
  lemma CompactRollback(d: Disk, mem: Memory, linked: bool, stream: nat, n: nat)
    requires ValidDisk(d) && LiveCertified(d) && ValidMemory(mem) && n <= 2
    ensures var reached := DoAll(d, CompactOps(d, mem, linked, stream)[..n]);
            var after := if n == 2 then Do(reached, Restore) else reached;
            after.meta == d.meta && LiveCertified(after)
  {
    var reached := DoAll(d, CompactOps(d, mem, linked, stream)[..n]);
    CompactShape(d, mem, linked, stream, n, reached);
    SameContents(d, if n == 2 then Do(reached, Restore) else reached);
  }
}
