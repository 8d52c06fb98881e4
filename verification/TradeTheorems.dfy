/** What the Trade log promises over every run. */
module TradeTheorems {
  import opened Options
  import opened TradeRows
  import opened TradeDisk
  import opened TradeLog
  import opened TradeCommits
  import opened TradeRuns

  /** Some run without a losing append ends here. */
  ghost predicate Reachable(s: System) {
    exists run, events: seq<Event> :: IsRun(run, events) && run[|run| - 1] == s && NoLoss(run, events)
  }

  ghost predicate NoLoss(run: seq<System>, events: seq<Event>) {
    forall i :: 0 <= i < |events| && i < |run| ==> !Loses(run[i], events[i])
  }

  lemma ReachableInv(s: System)
    requires Reachable(s)
    ensures Inv(s)
  {
    var run, events: seq<Event> :| IsRun(run, events) && run[|run| - 1] == s && NoLoss(run, events);
    RunInv(run, events, |run| - 1);
  }

  /** Crash atomicity: whatever was interrupted, recovery does not fail, it
      survives its own interruption, and it loads exactly the rows of the manifest
      then on disk, which is the newest committed one. */
  lemma CrashAtomic(s: System)
    requires Reachable(s)
    ensures Recoverable(s.disk) && |s.history| > 0
    ensures var d, m := s.disk, s.disk.meta.value;
            var after := DoAll(d, LoadOps(d).value);
            && m == s.history[|s.history| - 1] && after.meta == Some(m)
            && StrictRead(Content(after, after.data), m) == Some(RowsOf(m.digest))
            && Recoverable(DoAll(d, LoadOps(d).value[..0]))
  {
    ReachableInv(s);
    var ops := LoadOps(s.disk).value;
    assert ops[..1] == ops;
    RecoveryRecovers(s.disk, 1, DoAll(s.disk, ops[..1]));
    RecoveryRecovers(s.disk, 0, DoAll(s.disk, ops[..0]));
  }

  /** Version names determine content: within a stream a lower revision's rows are
      a prefix of a higher one's, and equal versions have equal rows. */
  lemma VersionLaw(s: System, i: nat, j: nat)
    requires Reachable(s) && i <= j < |s.history| && s.history[i].stream == s.history[j].stream
    ensures s.history[i].revision <= s.history[j].revision
    ensures RowsOf(s.history[i].digest) <= RowsOf(s.history[j].digest)
    ensures s.history[i].revision == s.history[j].revision ==> RowsOf(s.history[i].digest) == RowsOf(s.history[j].digest)
  {
    ReachableInv(s);
    if i < j {
      assert VersionsAgree(s.history[i], s.history[j]);
    }
  }

  /** The version of the history that a manager remembers. */
  lemma RememberedVersion(s: System, who: nat) returns (h: Manifest)
    requires Inv(s) && who in s.mems
    ensures SameIdentity(s.mems[who], h) && s.disk.meta.Some?
    ensures h == s.disk.meta.value || VersionsAgree(h, s.disk.meta.value)
  {
    assert MemoryOk(s, who);
    var i :| 0 <= i < |s.history| && SameIdentity(s.mems[who], s.history[i]);
    h := s.history[i];
    var n := |s.history| - 1;
    assert i < n ==> VersionsAgree(s.history[i], s.history[n]);
  }

  /** Fencing: a manager can append only while the version it remembers is the
      durable one, and then it remembers the durable rows; a manager that has
      fallen behind commits nothing. */
  lemma StaleIsFenced(s: System, who: nat, m: Manifest)
    requires Reachable(s) && who in s.mems && s.disk.meta == Some(m)
    ensures MayAppend(s, who) ==> SameIdentity(s.mems[who], m)
    ensures s.mems[who].stream == m.stream && s.mems[who].revision == m.revision ==> SameIdentity(s.mems[who], m)
    ensures s.mems[who].stream == m.stream ==> RowsOf(s.mems[who].digest) <= RowsOf(m.digest)
  {
    ReachableInv(s);
    var h := RememberedVersion(s, who);
    Remembered(s.mems[who], h, m);
  }

  lemma Remembered(mem: Memory, h: Manifest, m: Manifest)
    requires SameIdentity(mem, h) && (h == m || VersionsAgree(h, m))
    ensures mem.stream == m.stream && mem.revision == m.revision ==> SameIdentity(mem, m)
    ensures mem.stream == m.stream ==> RowsOf(mem.digest) <= RowsOf(m.digest)
  {
  }

  /** A committed append makes the log equal to the manager's memory, symbol by
      symbol, and keeps everything that was committed before. */
  lemma AppendStoresMemory(d: Disk, mem: Memory, symbol: string)
    requires LiveCertified(d) && Certifiable(d.meta.value) && Ready(d, mem) && symbol in mem.cache
    ensures var after := DoAll(d, AppendOps(d, mem));
            && LiveCertified(after) && RowsOf(mem.digest) <= RowsOf(after.meta.value.digest)
            && Bucket(RowsOf(after.meta.value.digest), symbol) == mem.cache[symbol]
  {
    var ops := AppendOps(d, mem);
    assert ops[..|ops|] == ops;
    AppendAnyPoint(d, mem, |ops|);
    CommittedRows(mem);
  }
}
