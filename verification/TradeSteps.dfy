/** What a manager's methods do to the files and to its memory are events of the
    system of managers, whatever file operation the process dies before. */
module TradeSteps {
  import opened Options
  import opened TradeRows
  import opened TradeDisk
  import opened TradeLog
  import opened TradeCommits
  import opened TradeFiles
  import opened TradeManagerFile
  import opened R = TradeRuns

  /** The manager stays with this memory, or it died and lost it. */
  predicate Leaves(s: System, s': System, who: nat, died: bool, disk: Disk, kept: Memory) {
    s'.disk == disk && s'.mems == if died then s.mems - {who} else s.mems[who := kept]
  }

  ghost predicate HappensOrStays(s: System, s': System) {
    s' == s || exists e :: Happens(s, s', e)
  }

  ghost predicate Unused(s: System, stream: nat) {
    forall i :: 0 <= i < |s.history| ==> s.history[i].stream != stream
  }

  lemma AppendIsEvent(s: System, who: nat, fuel: nat, saved: Saved, after: Disk, kept: Memory, left: nat) returns (s': System)
    requires MayAppend(s, who) && AppendEnds(s.disk, s.mems[who], fuel, saved, after, kept, left)
    ensures (exists n :: Happens(s, s', AppendEvent(who, n, kept))) || Happens(s, s', AppendFailure(who, 0)) || Happens(s, s', Death(who))
    ensures Leaves(s, s', who, saved.Died?, after, kept)
  {
    var mem := s.mems[who];
    if Reaches(s.disk, mem) {
      var ops := AppendOps(s.disk, mem);
      var n := if saved.Stored? then |ops| else fuel;
      s' := if saved.Stored? then System(after, s.mems[who := kept], s.history + [NextManifest(mem)])
            else System(after, s.mems - {who}, s.history);
      assert Happens(s, s', AppendEvent(who, n, kept));
    } else {
      assert [Open][..0] == [] && [Open][..1] == [Open] && DoAll(s.disk, []) == s.disk;
      s' := s.(disk := after, mems := if saved.Died? then s.mems - {who} else s.mems[who := kept]);
      assert s.mems[who := mem] == s.mems;
      if saved.Died? {
        assert Happens(s, s', Death(who));
      } else {
        assert DoAll(s.disk, [Open]) == Do(s.disk, Open);
        assert Happens(s, s', AppendFailure(who, 0));
      }
    }
  }

  /** A compaction that finds invalid rows fails; without a certified file it fails
      before it does anything. */
  lemma RefusedIsEvent(s: System, who: nat, linked: bool, unused: nat, kept: Memory) returns (s': System)
    requires who in s.mems && ValidMemory(s.mems[who]) && kept == s.mems[who].(needsRewrite := true)
    ensures exists n :: Happens(s, s', CompactFailure(who, kept, linked, unused, n))
    ensures Leaves(s, s', who, false, if LiveCertified(s.disk) then Do(s.disk, Stage(linked)) else s.disk, kept)
  {
    var ops := CompactOps(s.disk, kept, linked, unused);
    var n := if LiveCertified(s.disk) then 1 else 0;
    assert DoAll(s.disk, ops[..n]) == if LiveCertified(s.disk) then Do(s.disk, Stage(linked)) else s.disk by {
      assert ops[..0] == [];
      if LiveCertified(s.disk) {
        assert ops[..1] == [Stage(linked)] && [Stage(linked)][..0] == [];
      }
    }
    s' := s.(disk := DoAll(s.disk, ops[..n]), mems := s.mems[who := kept]);
    assert Happens(s, s', CompactFailure(who, kept, linked, unused, n));
  }

  lemma CompactIsEvent(s: System, who: nat, linked: bool, unused: nat, fuel: nat, saved: Saved, after: Disk, kept: Memory, left: nat)
    returns (s': System)
    requires who in s.mems && ValidMemory(s.mems[who]) && Unused(s, unused)
    requires CompactEnds(s.disk, s.mems[who], linked, unused, fuel, saved, after, kept, left)
    ensures (exists n :: Happens(s, s', CompactEvent(who, s.mems[who], linked, unused, n, kept)))
            || (exists n :: Happens(s, s', CompactFailure(who, kept, linked, unused, n)))
            || Happens(s, s', Death(who))
    ensures Leaves(s, s', who, saved.Died?, after, kept)
  {
    var mem := s.mems[who];
    var ops := CompactOps(s.disk, mem, linked, unused);
    if saved.Stale? || saved.Invalid? {
      s' := RefusedIsEvent(s, who, linked, unused, kept);
    } else if !ValidRows(mem) {
      assert ops[..0] == [] && DoAll(s.disk, []) == s.disk;
      s' := s.(mems := s.mems - {who});
      assert Happens(s, s', Death(who));
    } else {
      var n := if saved.Stored? then 4 else fuel;
      s' := System(after, if saved.Stored? then s.mems[who := kept] else s.mems - {who},
                   if n >= 3 then s.history + [FirstManifest(mem, unused)] else s.history);
      assert Happens(s, s', CompactEvent(who, mem, linked, unused, n, kept));
    }
  }

  /** A save is an event, or it changes nothing. */
  lemma SaveIsEvent(s: System, who: nat, linked: bool, unused: nat, fuel: nat, saved: Saved, after: Disk, kept: Memory, left: nat)
    returns (s': System)
    requires who in s.mems && ValidMemory(s.mems[who]) && Unused(s, unused)
    requires SaveEnds(s.disk, s.mems[who], linked, unused, fuel, saved, after, kept, left)
    ensures HappensOrStays(s, s')
    ensures Leaves(s, s', who, saved.Died?, after, kept)
  {
    var mem := s.mems[who];
    if !Current(s.disk, mem) || !ValidRows(mem) {
      s' := s;
      assert s.mems[who := kept] == s.mems;
    } else if Shrunk(mem) {
      s' := CompactIsEvent(s, who, linked, unused, fuel, saved, after, kept, left);
    } else {
      s' := AppendIsEvent(s, who, fuel, saved, after, kept, left);
    }
  }

  /** A load is an event: it repairs the disk and then has the manifest's rows in
      memory, or dies with the disk recoverable as it was. */
  lemma LoadIsEvent(s: System, who: nat, fuel: nat, loaded: bool, after: Disk, mem: Memory, left: nat) returns (s': System)
    requires Recoverable(s.disk) && Ran(s.disk, after, LoadOps(s.disk).value, fuel, left, loaded)
    requires loaded ==> Loaded(mem, s.disk.meta.value)
    ensures exists n :: Happens(s, s', LoadEvent(who, n, mem))
    ensures Leaves(s, s', who, !loaded, after, mem)
  {
    var n := if loaded then 1 else 0;
    s' := System(after, if loaded then s.mems[who := mem] else s.mems - {who}, s.history);
    assert Happens(s, s', LoadEvent(who, n, mem));
  }
}
