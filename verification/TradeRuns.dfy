/** The Trade log under any interleaving of managers: loads, in-memory growth,
    appends and compactions, each of which may die at any file operation or fail
    and roll back. */
module TradeRuns {
  import opened Options
  import opened TradeRows
  import opened TradeDisk
  import opened TradeLog
  import opened TradeCommits
  import opened TradeTorn

  datatype System = System(disk: Disk, mems: map<nat, Memory>, history: seq<Manifest>)

  predicate SameIdentity(mem: Memory, m: Manifest) {
    mem.stream == m.stream && mem.revision == m.revision && mem.committed == m.committed && mem.digest == m.digest
  }

  /** Memory as a load leaves it: the rows grouped by symbol. */
  ghost predicate Loaded(mem: Memory, m: Manifest) {
    && ValidMemory(mem) && SameIdentity(mem, m) && mem.counts == m.counts && !mem.needsRewrite
    && (forall symbol :: symbol in mem.cache ==> mem.cache[symbol] == Bucket(RowsOf(m.digest), symbol))
    && (forall symbol :: Bucket(RowsOf(m.digest), symbol) != [] ==> symbol in mem.cache)
  }

  /** Memory as a commit of the manifest leaves it. */
  predicate Committed(mem: Memory, after: Memory, m: Manifest) {
    && after.order == mem.order && after.cache == mem.cache && after.counts == m.counts && SameIdentity(after, m)
    && after.maxTs == mem.maxTs && !after.needsRewrite
  }

  ghost predicate Loads(s: System, s': System, who: nat, n: nat, mem: Memory) {
    && Recoverable(s.disk) && n <= 1
    && s'.disk == DoAll(s.disk, LoadOps(s.disk).value[..n]) && s'.history == s.history
    && s'.mems == (if n == 1 then s.mems[who := mem] else s.mems - {who})
    && (n == 1 ==> Loaded(mem, s.disk.meta.value))
  }

  /** New fills are appended to their buckets. */
  ghost predicate Collects(s: System, s': System, who: nat, mem: Memory) {
    && who in s.mems && ValidMemory(mem)
    && mem == s.mems[who].(order := mem.order, cache := mem.cache, maxTs := mem.maxTs)
    && (forall symbol :: symbol in s.mems[who].cache ==> symbol in mem.cache && s.mems[who].cache[symbol] <= mem.cache[symbol])
    && s' == s.(mems := s.mems[who := mem])
  }

  /** The guards of a save by append. */
  ghost predicate MayAppend(s: System, who: nat) {
    && who in s.mems && Current(s.disk, s.mems[who]) && ValidRows(s.mems[who]) && !Shrunk(s.mems[who])
    && ValidMemory(s.mems[who])
  }

  /** The live file, empty if it is missing, is not shorter than its boundary. */
  predicate Reaches(d: Disk, mem: Memory) {
    |Live(d)| >= mem.committed
  }

  ghost predicate Appends(s: System, s': System, who: nat, n: nat, after: Memory) {
    && MayAppend(s, who) && Reaches(s.disk, s.mems[who])
    && var mem := s.mems[who];
       var ops := AppendOps(s.disk, mem);
    && n <= |ops| && s'.disk == DoAll(s.disk, ops[..n])
    && if n == |ops| then
         Committed(mem, after, NextManifest(mem)) && s'.mems == s.mems[who := after] && s'.history == s.history + [NextManifest(mem)]
       else s'.mems == s.mems - {who} && s'.history == s.history
  }

  /** A failed append cuts its bytes off again and keeps its memory.  Where the
      live file is too short, it fails once the file is open. */
  ghost predicate AppendFails(s: System, s': System, who: nat, n: nat) {
    && MayAppend(s, who)
    && if Reaches(s.disk, s.mems[who]) then
         && n < |AppendOps(s.disk, s.mems[who])|
         && s' == s.(disk := Do(DoAll(s.disk, AppendOps(s.disk, s.mems[who])[..n]), Truncate(s.mems[who].committed)))
       else s' == s.(disk := Do(s.disk, Open))
  }

  /** Compaction of any valid memory, pruned or not, under a stream never used. */
  ghost predicate Compacts(s: System, s': System, who: nat, mem: Memory, linked: bool, stream: nat, n: nat, after: Memory) {
    && who in s.mems && ValidMemory(mem) && ValidRows(mem) && LiveCertified(s.disk) && n <= 4
    && (forall i :: 0 <= i < |s.history| ==> s.history[i].stream != stream)
    && s'.disk == DoAll(s.disk, CompactOps(s.disk, mem, linked, stream)[..n])
    && s'.history == (if n >= 3 then s.history + [FirstManifest(mem, stream)] else s.history)
    && if n == 4 then Committed(mem, after, FirstManifest(mem, stream)) && s'.mems == s.mems[who := after]
       else s'.mems == s.mems - {who}
  }

  /** A failed compaction restores the kept generation and asks for a rewrite; it
      fails before its first operation over a live file that is not certified. */
  ghost predicate CompactFails(s: System, s': System, who: nat, mem: Memory, linked: bool, stream: nat, n: nat) {
    && who in s.mems && ValidMemory(mem) && n <= 2 && (n > 0 ==> LiveCertified(s.disk))
    && mem == s.mems[who].(order := mem.order, cache := mem.cache, needsRewrite := true)
    && var reached := DoAll(s.disk, CompactOps(s.disk, mem, linked, stream)[..n]);
       s' == s.(disk := if n == 2 then Do(reached, Restore) else reached, mems := s.mems[who := mem])
  }

  predicate Dies(s: System, s': System, who: nat) {
    s' == s.(mems := s.mems - {who})
  }

  datatype Event =
    | LoadEvent(who: nat, n: nat, mem: Memory)
    | CollectEvent(who: nat, mem: Memory)
    | AppendEvent(who: nat, n: nat, after: Memory)
    | AppendFailure(who: nat, n: nat)
    | CompactEvent(who: nat, mem: Memory, linked: bool, stream: nat, n: nat, after: Memory)
    | CompactFailure(who: nat, mem: Memory, linked: bool, stream: nat, n: nat)
    | Death(who: nat)

  ghost predicate Happens(s: System, s': System, e: Event) {
    match e
    case LoadEvent(who, n, mem) => Loads(s, s', who, n, mem)
    case CollectEvent(who, mem) => Collects(s, s', who, mem)
    case AppendEvent(who, n, after) => Appends(s, s', who, n, after)
    case AppendFailure(who, n) => AppendFails(s, s', who, n)
    case CompactEvent(who, mem, linked, stream, n, after) => Compacts(s, s', who, mem, linked, stream, n, after)
    case CompactFailure(who, mem, linked, stream, n) => CompactFails(s, s', who, mem, linked, stream, n)
    case Death(who) => Dies(s, s', who)
  }

  /** The append that loses the log: it commits over a live file that does not
      satisfy the manifest, and the kept generation does not hold its rows.  The
      manager could find out by a strict read of the live file. */
  ghost predicate Loses(s: System, e: Event) {
    && e.AppendEvent? && MayAppend(s, e.who) && e.n == |AppendOps(s.disk, s.mems[e.who])|
    && !OpensCertified(s.disk) && !KeptHolds(s.disk, s.mems[e.who])
  }

  ghost predicate Start(s: System) {
    && ValidDisk(s.disk) && s.disk.meta.Some? && Certifiable(s.disk.meta.value) && LiveCertified(s.disk)
    && s.mems == map[] && s.history == [s.disk.meta.value]
  }

  /** Any interleaving of the events. */
  ghost predicate IsRun(run: seq<System>, events: seq<Event>) {
    && |run| == |events| + 1 && Start(run[0])
    && forall i, j {:trigger Happens(run[i], run[j], events[i])} ::
         0 <= i < |events| && j == i + 1 ==> Happens(run[i], run[j], events[i])
  }

  // ------------------------------------------------------------------
  // What every reachable system keeps.
  // ------------------------------------------------------------------

  ghost predicate DiskOk(s: System) {
    ValidDisk(s.disk) && Recoverable(s.disk) && Certifiable(s.disk.meta.value)
  }

  /** Every persisted bucket is in memory, in full. */
  ghost predicate Tracks(mem: Memory) {
    && Aligned(mem) && Fits(mem, mem.counts)
    && (forall symbol :: Bucket(RowsOf(mem.digest), symbol) != [] ==> symbol in mem.cache)
  }

  /** A manager remembers a version of the history and agrees with its rows,
      unless it has lost track and will rewrite the file. */
  ghost predicate MemoryOk(s: System, who: nat)
    requires who in s.mems
  {
    var mem := s.mems[who];
    && ValidMemory(mem) && (!mem.needsRewrite ==> Tracks(mem))
    && UniqueIds(RowsOf(mem.digest))
    && exists i :: 0 <= i < |s.history| && SameIdentity(mem, s.history[i])
  }

  /** Versions of one stream: a lower revision is a prefix, equal ones are equal. */
  predicate VersionsAgree(a: Manifest, b: Manifest) {
    a.stream == b.stream ==>
      && a.revision <= b.revision && RowsOf(a.digest) <= RowsOf(b.digest)
      && (a.revision == b.revision ==> a.digest == b.digest && a.committed == b.committed)
  }

  ghost predicate HistoryOk(s: System) {
    && |s.history| > 0 && s.disk.meta == Some(s.history[|s.history| - 1])
    && (forall i, j :: 0 <= i < j < |s.history| ==> VersionsAgree(s.history[i], s.history[j]))
  }

  ghost predicate Inv(s: System) {
    DiskOk(s) && HistoryOk(s) && forall who {:trigger MemoryOk(s, who)} :: who in s.mems ==> MemoryOk(s, who)
  }

  lemma OthersKeep(s: System, s': System, who: nat)
    requires Inv(s) && s.history <= s'.history
    requires forall w :: w in s'.mems && w != who ==> w in s.mems && s'.mems[w] == s.mems[w]
    requires who in s'.mems ==> MemoryOk(s', who)
    ensures forall w {:trigger MemoryOk(s', w)} :: w in s'.mems ==> MemoryOk(s', w)
  {
    forall w | w in s'.mems ensures MemoryOk(s', w) {
      if w != who {
        assert MemoryOk(s, w);
        var i :| 0 <= i < |s.history| && SameIdentity(s.mems[w], s.history[i]);
        assert s'.history[i] == s.history[i];
      }
    }
  }

  lemma LoadedOk(mem: Memory, m: Manifest)
    requires Loaded(mem, m) && Certifiable(m)
    ensures Tracks(mem) && UniqueIds(RowsOf(mem.digest))
  {
    forall symbol | symbol in mem.cache ensures |mem.cache[symbol]| == Count(mem.counts, symbol) {
      assert |Bucket(RowsOf(m.digest), symbol)| == Count(m.counts, symbol);
    }
    forall symbol | symbol in mem.cache && Count(mem.counts, symbol) <= |mem.cache[symbol]|
      ensures mem.cache[symbol][..Count(mem.counts, symbol)] == Bucket(RowsOf(mem.digest), symbol)
    {
      assert |Bucket(RowsOf(m.digest), symbol)| == Count(m.counts, symbol);
    }
  }

  lemma LoadsInv(s: System, s': System, who: nat, n: nat, mem: Memory)
    requires Inv(s) && Loads(s, s', who, n, mem)
    ensures Inv(s')
  {
    RecoveryRecovers(s.disk, n, s'.disk);
    DoAllKeepsValid(s.disk, LoadOps(s.disk).value[..n]);
    if n == 1 {
      LoadedOk(mem, s.disk.meta.value);
      assert SameIdentity(mem, s'.history[|s'.history| - 1]);
      assert MemoryOk(s', who);
    }
    OthersKeep(s, s', who);
  }

  /** New fills come after the persisted ones. */
  lemma GrownTracks(was: Memory, mem: Memory)
    requires Tracks(was) && mem.counts == was.counts && mem.digest == was.digest
    requires forall symbol :: symbol in was.cache ==> symbol in mem.cache && was.cache[symbol] <= mem.cache[symbol]
    ensures Tracks(mem)
  {
    forall symbol | symbol in mem.cache
      ensures Count(mem.counts, symbol) <= |mem.cache[symbol]|
      ensures mem.cache[symbol][..Count(mem.counts, symbol)] == Bucket(RowsOf(mem.digest), symbol)
    {
      assert |Bucket(RowsOf(mem.digest), symbol)| == Count(mem.counts, symbol);
      if symbol in was.cache {
        assert was.cache[symbol] == mem.cache[symbol][..|was.cache[symbol]|];
      }
    }
  }

  lemma CollectsInv(s: System, s': System, who: nat, mem: Memory)
    requires Inv(s) && Collects(s, s', who, mem)
    ensures Inv(s')
  {
    assert MemoryOk(s, who);
    if !mem.needsRewrite {
      GrownTracks(s.mems[who], mem);
    }
    assert MemoryOk(s', who);
    OthersKeep(s, s', who);
  }

  // ------------------------------------------------------------------
  // Commits.
  // ------------------------------------------------------------------

  /** A commit extends the newest version or starts a stream of its own. */
  lemma HistoryGrows(s: System, s': System, m: Manifest)
    requires HistoryOk(s) && s'.history == s.history + [m] && s'.disk.meta == Some(m)
    requires VersionsAgree(s.history[|s.history| - 1], m)
    requires m.stream == s.history[|s.history| - 1].stream || forall i :: 0 <= i < |s.history| ==> s.history[i].stream != m.stream
    ensures HistoryOk(s')
  {
    var last := s.history[|s.history| - 1];
    forall i, j | 0 <= i < j < |s'.history| ensures VersionsAgree(s'.history[i], s'.history[j]) {
      if j < |s.history| {
        assert VersionsAgree(s.history[i], s.history[j]);
      } else if i < |s.history| - 1 {
        assert VersionsAgree(s.history[i], last) && VersionsAgree(last, m);
      }
    }
  }

  lemma CommittedOk(mem: Memory, after: Memory)
    requires ValidMemory(mem) && ValidRows(mem) && Tracks(mem) && UniqueIds(RowsOf(mem.digest))
    requires mem.revision > 0 && mem.committed == |EncodeAll(RowsOf(mem.digest))| && Committed(mem, after, NextManifest(mem))
    ensures Tracks(after) && UniqueIds(RowsOf(after.digest)) && ValidMemory(after)
  {
    CommittedRows(mem);
    forall symbol
      ensures Bucket(RowsOf(after.digest), symbol) == if symbol in mem.cache then mem.cache[symbol] else []
    {
      CommittedBucket(mem, symbol);
    }
    forall symbol | symbol in after.cache ensures Count(after.counts, symbol) == |after.cache[symbol]| {
    }
  }

  lemma AppendVersions(d: Disk, mem: Memory)
    requires Ready(d, mem)
    ensures VersionsAgree(d.meta.value, NextManifest(mem)) && NextManifest(mem).stream == d.meta.value.stream
  {
    ExtendRows(mem.digest, Delta(mem));
    assert EncodeAll([]) == [];
  }

  /** What an append that got n operations done leaves on disk, unless it loses the log. */
  lemma AppendDisk(s: System, s': System, who: nat, n: nat, after: Memory)
    requires DiskOk(s) && MayAppend(s, who) && Tracks(s.mems[who]) && Appends(s, s', who, n, after)
    ensures DiskOk(s') <==> !Loses(s, AppendEvent(who, n, after))
    ensures !Recoverable(s'.disk) <==> Loses(s, AppendEvent(who, n, after))
    ensures s'.disk.meta == if n < |AppendOps(s.disk, s.mems[who])| then s.disk.meta else Some(NextManifest(s.mems[who]))
  {
    AppendAnyExactly(s.disk, s.mems[who], n);
    DoAllKeepsValid(s.disk, AppendOps(s.disk, s.mems[who])[..n]);
  }

  /** A commit by a manager that now tracks the new manifest. */
  lemma CommitInv(s: System, s': System, who: nat, m: Manifest, after: Memory)
    requires Inv(s) && DiskOk(s') && s'.disk.meta == Some(m) && s'.history == s.history + [m] && s'.mems == s.mems[who := after]
    requires VersionsAgree(s.history[|s.history| - 1], m)
    requires m.stream == s.history[|s.history| - 1].stream || forall i :: 0 <= i < |s.history| ==> s.history[i].stream != m.stream
    requires ValidMemory(after) && Tracks(after) && UniqueIds(RowsOf(after.digest)) && SameIdentity(after, m)
    ensures Inv(s')
  {
    HistoryGrows(s, s', m);
    assert SameIdentity(after, s'.history[|s'.history| - 1]);
    assert MemoryOk(s', who);
    OthersKeep(s, s', who);
  }

  /** What the memory of a committed append is worth. */
  lemma AppendMemory(d: Disk, mem: Memory, after: Memory)
    requires d.meta.Some? && Certifiable(d.meta.value) && Ready(d, mem) && Tracks(mem) && Committed(mem, after, NextManifest(mem))
    ensures Tracks(after) && UniqueIds(RowsOf(after.digest)) && ValidMemory(after) && SameIdentity(after, NextManifest(mem))
    ensures VersionsAgree(d.meta.value, NextManifest(mem)) && NextManifest(mem).stream == d.meta.value.stream
  {
    CommittedOk(mem, after);
    AppendVersions(d, mem);
  }

  lemma AppendReady(s: System, who: nat)
    requires Inv(s) && MayAppend(s, who)
    ensures DiskOk(s) && Tracks(s.mems[who]) && Ready(s.disk, s.mems[who])
    ensures |s.history| > 0 && s.disk.meta == Some(s.history[|s.history| - 1])
  {
    assert MemoryOk(s, who);
  }

  /** A manager dies and leaves the newest version recoverable. */
  lemma GoneInv(s: System, s': System, who: nat)
    requires Inv(s) && DiskOk(s') && s'.disk.meta == s.disk.meta && s'.history == s.history && s'.mems == s.mems - {who}
    ensures Inv(s')
  {
    OthersKeep(s, s', who);
  }

  lemma AppendsInv(s: System, s': System, who: nat, n: nat, after: Memory)
    requires Inv(s) && Appends(s, s', who, n, after) && !Loses(s, AppendEvent(who, n, after))
    ensures Inv(s')
  {
    var mem := s.mems[who];
    AppendReady(s, who);
    AppendDisk(s, s', who, n, after);
    if n == |AppendOps(s.disk, mem)| {
      AppendMemory(s.disk, mem, after);
      CommitInv(s, s', who, NextManifest(mem), after);
    } else {
      GoneInv(s, s', who);
    }
  }

  lemma AppendFailsInv(s: System, s': System, who: nat, n: nat)
    requires Inv(s) && AppendFails(s, s', who, n)
    ensures Inv(s')
  {
    assert MemoryOk(s, who);
    var mem := s.mems[who];
    if Reaches(s.disk, mem) {
      var ops := AppendOps(s.disk, mem)[..n];
      FailedAppendRecovers(s.disk, mem, n);
      DoAllKeepsValid(s.disk, ops);
      DoKeepsValid(DoAll(s.disk, ops), Truncate(mem.committed));
    } else {
      Opened(s.disk);
    }
    OthersKeep(s, s', who);
  }

  lemma CompactedOk(mem: Memory, after: Memory, stream: nat)
    requires ValidMemory(mem) && ValidRows(mem) && Committed(mem, after, FirstManifest(mem, stream))
    ensures Tracks(after) && UniqueIds(RowsOf(after.digest)) && ValidMemory(after)
  {
    CompactedRows(mem, stream);
    forall symbol
      ensures Bucket(RowsOf(after.digest), symbol) == if symbol in mem.cache then mem.cache[symbol] else []
    {
      CompactedBucket(mem, symbol);
    }
    forall symbol | symbol in after.cache ensures Count(after.counts, symbol) == |after.cache[symbol]| {
    }
  }

  lemma CompactDisk(s: System, s': System, who: nat, mem: Memory, linked: bool, stream: nat, n: nat, after: Memory)
    requires DiskOk(s) && Compacts(s, s', who, mem, linked, stream, n, after)
    ensures DiskOk(s')
    ensures s'.disk.meta == (if n < 3 then s.disk.meta else Some(FirstManifest(mem, stream)))
  {
    CompactAnyPoint(s.disk, mem, linked, stream, n, s'.disk);
    DoAllKeepsValid(s.disk, CompactOps(s.disk, mem, linked, stream)[..n]);
  }

  lemma CompactsInv(s: System, s': System, who: nat, mem: Memory, linked: bool, stream: nat, n: nat, after: Memory)
    requires Inv(s) && Compacts(s, s', who, mem, linked, stream, n, after)
    ensures Inv(s')
  {
    CompactDisk(s, s', who, mem, linked, stream, n, after);
    if n == 4 {
      CompactedOk(mem, after, stream);
      CommitInv(s, s', who, FirstManifest(mem, stream), after);
    } else {
      if n == 3 {
        HistoryGrows(s, s', FirstManifest(mem, stream));
      }
      OthersKeep(s, s', who);
    }
  }

  lemma CompactFailsDisk(s: System, s': System, who: nat, mem: Memory, linked: bool, stream: nat, n: nat)
    requires DiskOk(s) && CompactFails(s, s', who, mem, linked, stream, n)
    ensures DiskOk(s') && s'.disk.meta == s.disk.meta
  {
    var ops := CompactOps(s.disk, mem, linked, stream);
    if n == 0 {
      assert ops[..0] == [];
    } else {
      CompactRollback(s.disk, mem, linked, stream, n);
      DoAllKeepsValid(s.disk, ops[..n]);
      DoKeepsValid(DoAll(s.disk, ops[..n]), Restore);
    }
  }

  lemma CompactFailsInv(s: System, s': System, who: nat, mem: Memory, linked: bool, stream: nat, n: nat)
    requires Inv(s) && CompactFails(s, s', who, mem, linked, stream, n)
    ensures Inv(s')
  {
    CompactFailsDisk(s, s', who, mem, linked, stream, n);
    assert MemoryOk(s, who);
    assert MemoryOk(s', who);
    OthersKeep(s, s', who);
  }

  lemma HappensInv(s: System, s': System, e: Event)
    requires Inv(s) && Happens(s, s', e) && !Loses(s, e)
    ensures Inv(s')
  {
    match e
    case LoadEvent(who, n, mem) => LoadsInv(s, s', who, n, mem);
    case CollectEvent(who, mem) => CollectsInv(s, s', who, mem);
    case AppendEvent(who, n, after) => AppendsInv(s, s', who, n, after);
    case AppendFailure(who, n) => AppendFailsInv(s, s', who, n);
    case CompactEvent(who, mem, linked, stream, n, after) => CompactsInv(s, s', who, mem, linked, stream, n, after);
    case CompactFailure(who, mem, linked, stream, n) => CompactFailsInv(s, s', who, mem, linked, stream, n);
    case Death(who) => OthersKeep(s, s', who);
  }

  /** As long as no append loses the log, the invariant holds ... */
  lemma {:induction false} RunInv(run: seq<System>, events: seq<Event>, n: nat)
    requires IsRun(run, events) && n < |run| && forall i :: 0 <= i < n ==> !Loses(run[i], events[i])
    ensures Inv(run[n])
  {
    if n > 0 {
      RunInv(run, events, n - 1);
      assert Happens(run[n - 1], run[n], events[n - 1]);
      HappensInv(run[n - 1], run[n], events[n - 1]);
    }
  }

  /** ... and the first one that does leaves nothing to recover. */
  lemma LosingLoses(s: System, s': System, e: Event)
    requires Inv(s) && Happens(s, s', e) && Loses(s, e)
    ensures !Recoverable(s'.disk)
  {
    assert MemoryOk(s, e.who);
    AppendDisk(s, s', e.who, e.n, e.after);
  }

  lemma {:induction false} FirstLoss(run: seq<System>, events: seq<Event>, n: nat) returns (i: nat)
    requires IsRun(run, events) && n < |events| && Loses(run[n], events[n])
    ensures i <= n && Loses(run[i], events[i]) && forall k :: 0 <= k < i ==> !Loses(run[k], events[k])
  {
    if k :| 0 <= k < n && Loses(run[k], events[k]) {
      i := FirstLoss(run, events, k);
    } else {
      i := n;
    }
  }

  /** Exactly when a run stays recoverable throughout: none of its appends commits
      over a live file that does not satisfy the manifest (and whose rows the kept
      generation does not hold by chance). */
  lemma RunRecoverableExactly(run: seq<System>, events: seq<Event>)
    requires IsRun(run, events)
    ensures (forall i :: 0 <= i < |run| ==> Recoverable(run[i].disk)) <==> (forall i :: 0 <= i < |events| ==> !Loses(run[i], events[i]))
  {
    if forall i :: 0 <= i < |events| ==> !Loses(run[i], events[i]) {
      forall i | 0 <= i < |run| ensures Recoverable(run[i].disk) {
        RunInv(run, events, i);
      }
    } else {
      var n :| 0 <= n < |events| && Loses(run[n], events[n]);
      var i := FirstLoss(run, events, n);
      RunInv(run, events, i);
      assert Happens(run[i], run[i + 1], events[i]);
      LosingLoses(run[i], run[i + 1], events[i]);
    }
  }
}
