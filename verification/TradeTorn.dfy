/** Appending over a torn compaction.  The append checks version and size, not the
    committed bytes, so between the publication of new data and of its manifest it
    may write onto the wrong generation. */
module TradeTorn {
  import opened Options
  import opened TradeRows
  import opened TradeDisk
  import opened TradeLog
  import opened TradeCommits

  /** The kept generation happens to hold what the append is about to name. */
  ghost predicate KeptHolds(d: Disk, mem: Memory)
    requires ValidMemory(mem) && Fits(mem, mem.counts)
  {
    Content(d, d.prev).Some? && d.prev != d.data && Holds(Content(d, d.prev).value, NextManifest(mem))
  }

  /** The live file satisfies the manifest, as an empty one where it is missing. */
  ghost predicate OpensCertified(d: Disk) {
    LiveCertified(Do(d, Open))
  }

  /** Opening creates a missing data file and does nothing else. */
  lemma Opened(d: Disk)
    requires ValidDisk(d)
    ensures var o := Do(d, Open);
            && ValidDisk(o) && Content(o, o.data).Some? && Live(o) == Live(d) && o.meta == d.meta && Do(o, Open) == o
            && Content(o, o.prev) == Content(d, d.prev) && (o.prev != o.data <==> d.prev != d.data || d.data.None?)
            && (Content(d, d.data).Some? ==> o == d) && (Recoverable(d) ==> Recoverable(o))
  {
  }

  /** What starts with opening may as well find the file open. */
  lemma OpenFirst(d: Disk, ops: seq<FileOp>, n: nat)
    requires ValidDisk(d) && 0 < n <= |ops| && ops[0] == Open
    ensures DoAll(d, ops[..n]) == DoAll(Do(d, Open), ops[..n])
  {
    Opened(d);
    assert ops[..n] == [Open] + ops[1..n] && [Open][..0] == [];
    DoAllConcat(d, [Open], ops[1..n]);
    DoAllConcat(Do(d, Open), [Open], ops[1..n]);
    assert DoAll(d, [Open]) == Do(DoAll(d, []), Open) && DoAll(Do(d, Open), [Open]) == Do(DoAll(Do(d, Open), []), Open);
  }

  lemma OpenedAppend(d: Disk, mem: Memory)
    requires ValidDisk(d) && Ready(d, mem)
    ensures var o := Do(d, Open);
            && Ready(o, mem) && AppendOps(o, mem) == AppendOps(d, mem) && AppendOps(d, mem)[0] == Open
            && (KeptHolds(o, mem) <==> KeptHolds(d, mem))
  {
    Opened(d);
  }

  /** The append itself does not look at the committed bytes.  Run by a live
      manager over a torn compaction, it leaves a recoverable disk exactly when
      the live file still satisfies the old manifest, or the kept generation
      happens to hold the new rows too. */
  lemma TornAppendExactly(d: Disk, mem: Memory)
    requires ValidDisk(d) && d.meta.Some? && Certifiable(d.meta.value) && Ready(d, mem) && |Live(d)| >= mem.committed
    ensures Recoverable(DoAll(d, AppendOps(d, mem))) <==> OpensCertified(d) || KeptHolds(d, mem)
  {
    var ops := AppendOps(d, mem);
    Opened(d);
    OpenedAppend(d, mem);
    OpenFirst(d, ops, |ops|);
    assert ops[..|ops|] == ops;
    AppendOverFile(Do(d, Open), mem);
  }

  lemma AppendOverFile(d: Disk, mem: Memory)
    requires ValidDisk(d) && d.meta.Some? && Certifiable(d.meta.value) && Ready(d, mem)
    requires Content(d, d.data).Some? && |Live(d)| >= mem.committed
    ensures Recoverable(DoAll(d, AppendOps(d, mem))) <==> LiveCertified(d) || KeptHolds(d, mem)
  {
    var after, m := DoAll(d, AppendOps(d, mem)), NextManifest(mem);
    AppendedShape(d, mem, after);
    CommittedRows(mem);
    StrictReadExactly(Content(d, d.data), d.meta.value);
    StrictReadExactly(Content(after, after.data), m);
    StrictReadExactly(Content(after, after.prev), m);
    TornLive(d, mem, after);
  }

  lemma AppendedShape(d: Disk, mem: Memory, after: Disk)
    requires ValidDisk(d) && Ready(d, mem) && Content(d, d.data).Some? && |Live(d)| >= mem.committed
    requires after == DoAll(d, AppendOps(d, mem))
    ensures after.meta == Some(NextManifest(mem)) && Content(after, after.data) == Some(Live(d)[..mem.committed] + EncodeAll(Delta(mem)))
    ensures Content(after, after.prev) == if d.prev == d.data then Content(after, after.data) else Content(d, d.prev)
  {
    var tail := TailOps(d, mem);
    CommitDone(d, mem);
    var k := TailPoint(d, mem, |tail|);
    assert tail[..|tail|] == tail;
  }

  lemma TornLive(d: Disk, mem: Memory, after: Disk)
    requires d.meta.Some? && Certifiable(d.meta.value) && Ready(d, mem) && |Live(d)| >= mem.committed
    requires Live(after) == Live(d)[..mem.committed] + EncodeAll(Delta(mem))
    ensures Holds(Live(after), NextManifest(mem)) <==> Holds(Live(d), d.meta.value)
  {
    var cut, former, added := Live(d)[..mem.committed], EncodeAll(RowsOf(mem.digest)), EncodeAll(Delta(mem));
    ExtendRows(mem.digest, Delta(mem));
    EncodeConcat(RowsOf(mem.digest), Delta(mem));
    SamePrefix(cut, former, added);
    Whole(Live(after));
    assert NextManifest(mem).committed == |Live(after)| && EncodeAll(RowsOf(NextManifest(mem).digest)) == former + added;
  }

  lemma Whole(s: seq<Cell>)
    ensures s[..|s|] == s
  {
  }

  lemma SamePrefix(a: seq<Cell>, b: seq<Cell>, rest: seq<Cell>)
    requires |a| == |b|
    ensures a + rest == b + rest <==> a == b
  {
    assert (a + rest)[..|a|] == a && (b + rest)[..|b|] == b;
  }

  /** An append that dies before its manifest touches the live file only. */
  lemma KeepsOther(d: Disk, after: Disk, bytes: seq<Cell>)
    requires ValidDisk(d) && Recoverable(d) && !LiveCertified(d) && (after == d || Rewritten(d, after, bytes))
    ensures Recoverable(after) && after.meta == d.meta
  {
  }

  /** Exactly when an append that got n operations done leaves a recoverable disk:
      it did not reach its manifest, or the live file satisfied the manifest that
      it replaced, or the kept generation holds the new rows. */
  lemma AppendAnyExactly(d: Disk, mem: Memory, n: nat)
    requires ValidDisk(d) && Recoverable(d) && Certifiable(d.meta.value) && Ready(d, mem) && n <= |AppendOps(d, mem)|
    requires |Live(d)| >= mem.committed
    ensures var after := DoAll(d, AppendOps(d, mem)[..n]);
            && (Recoverable(after) <==> n < |AppendOps(d, mem)| || OpensCertified(d) || KeptHolds(d, mem))
            && after.meta == (if n < |AppendOps(d, mem)| then d.meta else Some(NextManifest(mem)))
            && Certifiable(after.meta.value)
  {
    var ops := AppendOps(d, mem);
    CommitDone(d, mem);
    CommittedRows(mem);
    if n == 0 {
      assert ops[..0] == [];
    } else {
      Opened(d);
      OpenedAppend(d, mem);
      OpenFirst(d, ops, n);
      AppendOverAny(Do(d, Open), mem, n);
    }
  }

  lemma AppendOverAny(d: Disk, mem: Memory, n: nat)
    requires ValidDisk(d) && Recoverable(d) && Certifiable(d.meta.value) && Ready(d, mem) && n <= |AppendOps(d, mem)|
    requires Content(d, d.data).Some? && |Live(d)| >= mem.committed
    ensures var after := DoAll(d, AppendOps(d, mem)[..n]);
            && (Recoverable(after) <==> n < |AppendOps(d, mem)| || LiveCertified(d) || KeptHolds(d, mem))
            && after.meta == (if n < |AppendOps(d, mem)| then d.meta else Some(NextManifest(mem)))
            && Certifiable(after.meta.value)
  {
    var ops := AppendOps(d, mem);
    CommitDone(d, mem);
    CommittedRows(mem);
    if n < |ops| {
      assert ops[..n] == TailOps(d, mem)[..n];
      if LiveCertified(d) {
        AppendAnyPoint(d, mem, n);
      } else {
        var k := TailPoint(d, mem, n);
        KeepsOther(d, DoAll(d, ops[..n]), Live(d)[..mem.committed] + EncodeAll(Delta(mem))[..k]);
      }
    } else {
      assert ops[..n] == ops;
      AppendOverFile(d, mem);
    }
  }

  /** A failed append that cut its bytes off again loses nothing either. */
  lemma FailedAppendRecovers(d: Disk, mem: Memory, n: nat)
    requires ValidDisk(d) && Recoverable(d) && Certifiable(d.meta.value) && Ready(d, mem) && n < |AppendOps(d, mem)|
    requires |Live(d)| >= mem.committed
    ensures var after := Do(DoAll(d, AppendOps(d, mem)[..n]), Truncate(mem.committed));
            Recoverable(after) && after.meta == d.meta
  {
    var ops := AppendOps(d, mem);
    Opened(d);
    if n == 0 && Content(d, d.data).None? {
      assert ops[..0] == [];
    } else {
      OpenedAppend(d, mem);
      if n > 0 {
        OpenFirst(d, ops, n);
      }
      FailedOverFile(Do(d, Open), mem, n);
    }
  }

  lemma FailedOverFile(d: Disk, mem: Memory, n: nat)
    requires ValidDisk(d) && Recoverable(d) && Certifiable(d.meta.value) && Ready(d, mem) && n < |AppendOps(d, mem)|
    requires Content(d, d.data).Some? && |Live(d)| >= mem.committed
    ensures var after := Do(DoAll(d, AppendOps(d, mem)[..n]), Truncate(mem.committed));
            Recoverable(after) && after.meta == d.meta
  {
    var reached := DoAll(d, AppendOps(d, mem)[..n]);
    CommitDone(d, mem);
    assert AppendOps(d, mem)[..n] == TailOps(d, mem)[..n];
    var after := Do(reached, Truncate(mem.committed));
    var k := TailPoint(d, mem, n);
    if LiveCertified(d) {
      AppendAnyPoint(d, mem, n);
      CutKeeps(reached);
    } else {
      CutTouchesLive(d, reached, Live(d)[..mem.committed] + EncodeAll(Delta(mem))[..k], mem.committed);
      KeepsOther(d, after, Live(after));
    }
  }

  lemma CutTouchesLive(d: Disk, reached: Disk, bytes: seq<Cell>, size: nat)
    requires Content(d, d.data).Some? && (reached == d || Rewritten(d, reached, bytes))
    ensures var after := Do(reached, Truncate(size)); Rewritten(d, after, Live(after))
  {
  }

  /** Cutting the live file at the committed boundary loses nothing committed. */
  lemma CutKeeps(d: Disk)
    requires LiveCertified(d) && Certifiable(d.meta.value)
    ensures var after := Do(d, Truncate(d.meta.value.committed));
            LiveCertified(after) && after.meta == d.meta
  {
    var after := Do(d, Truncate(d.meta.value.committed));
    StrictReadExactly(Content(d, d.data), d.meta.value);
    StrictReadExactly(Content(after, after.data), d.meta.value);
  }
}
