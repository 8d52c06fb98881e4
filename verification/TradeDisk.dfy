/** The files of the Trade log: a live data file, the kept previous generation and
    the manifest.  Names point to inodes, because the previous generation may be a
    hard link to the live file.  Every function here is one file operation, the
    unit between two of which a process may die. */
module TradeDisk {
  import opened Options
  import opened TradeRows

  datatype Manifest = Manifest(
    stream: nat, revision: nat, committed: nat, counts: map<string, nat>, digest: Chain, maxTs: int)

  datatype Disk = Disk(
    inodes: map<nat, seq<Cell>>, data: Option<nat>, prev: Option<nat>, meta: Option<Manifest>, next: nat)

  datatype FileOp =
    | Open                          // creates the data file when it is missing
    | Truncate(size: nat)
    | Write(cell: Cell)             // a torn append is a prefix of its writes
    | PutMeta(manifest: Manifest)   // atomic replacement
    | Stage(linked: bool)           // keeps the live file as the previous generation
    | Publish(bytes: seq<Cell>)     // atomic replacement of the data file
    | Restore                       // the previous generation becomes the live file
    | Discard

  predicate ValidDisk(d: Disk) {
    && (d.data.Some? ==> d.data.value in d.inodes)
    && (d.prev.Some? ==> d.prev.value in d.inodes)
    && (forall n :: n in d.inodes ==> n < d.next)
  }

  function Content(d: Disk, name: Option<nat>): Option<seq<Cell>> {
    if name.Some? && name.value in d.inodes then Some(d.inodes[name.value]) else None
  }

  function Live(d: Disk): seq<Cell> {
    if Content(d, d.data).Some? then Content(d, d.data).value else []
  }

  function Fresh(d: Disk, bytes: seq<Cell>): Disk {
    d.(inodes := d.inodes[d.next := bytes], next := d.next + 1)
  }

  function Do(d: Disk, op: FileOp): Disk {
    match op
    case Open => if Content(d, d.data).Some? then d else Fresh(d, []).(data := Some(d.next))
    case Truncate(size) =>
      if Content(d, d.data).Some? && size <= |Live(d)| then d.(inodes := d.inodes[d.data.value := Live(d)[..size]]) else d
    case Write(cell) =>
      if Content(d, d.data).Some? then d.(inodes := d.inodes[d.data.value := Live(d) + [cell]]) else d
    case PutMeta(manifest) => d.(meta := Some(manifest))
    case Stage(linked) =>
      if Content(d, d.data).None? then d
      else if linked then d.(prev := d.data)
      else Fresh(d, Live(d)).(prev := Some(d.next))
    case Publish(bytes) => Fresh(d, bytes).(data := Some(d.next))
    case Restore => if d.prev.Some? then d.(data := d.prev, prev := None) else d
    case Discard => d.(prev := None)
  }

  function DoAll(d: Disk, ops: seq<FileOp>): Disk {
    if ops == [] then d else Do(DoAll(d, ops[..|ops| - 1]), ops[|ops| - 1])
  }

  lemma {:induction false} DoAllConcat(d: Disk, a: seq<FileOp>, b: seq<FileOp>)
    ensures DoAll(d, a + b) == DoAll(DoAll(d, a), b)
  {
    if b == [] {
      assert a + b == a;
    } else {
      var n := |b| - 1;
      assert (a + b)[..|a + b| - 1] == a + b[..n];
      DoAllConcat(d, a, b[..n]);
    }
  }

  lemma DoKeepsValid(d: Disk, op: FileOp)
    requires ValidDisk(d)
    ensures ValidDisk(Do(d, op))
  {
  }

  lemma {:induction false} DoAllKeepsValid(d: Disk, ops: seq<FileOp>)
    requires ValidDisk(d)
    ensures ValidDisk(DoAll(d, ops))
  {
    if ops != [] {
      DoAllKeepsValid(d, ops[..|ops| - 1]);
      DoKeepsValid(DoAll(d, ops[..|ops| - 1]), ops[|ops| - 1]);
    }
  }

  // ------------------------------------------------------------------
  // Strict reads and recovery.
  // ------------------------------------------------------------------

  function Count(counts: map<string, nat>, symbol: string): nat {
    if symbol in counts then counts[symbol] else 0
  }

  /** The counts of the manifest, zero counts aside, are those of the rows. */
  ghost predicate CountsAgree(counts: map<string, nat>, rows: seq<Row>) {
    forall symbol {:trigger Bucket(rows, symbol)} {:trigger Count(counts, symbol)} ::
      |Bucket(rows, symbol)| == Count(counts, symbol)
  }

  /** `_read_trade_snapshot_strict`: the committed bytes parse, chain to the
      manifest's digest, hold no duplicate and match the counts. */
  ghost function StrictRead(bytes: Option<seq<Cell>>, m: Manifest): Option<seq<Row>> {
    if bytes.None? || |bytes.value| < m.committed then None
    else
      var rows := Parse(bytes.value[..m.committed]);
      if rows.Some? && Extend(Seed, rows.value) == m.digest && UniqueIds(rows.value) && CountsAgree(m.counts, rows.value)
      then rows else None
  }

  /** The bytes hold the manifest's rows up to its boundary. */
  predicate Holds(bytes: seq<Cell>, m: Manifest) {
    |bytes| >= m.committed && bytes[..m.committed] == EncodeAll(RowsOf(m.digest))
  }

  /** A manifest that some generation of bytes can satisfy. */
  ghost predicate Certifiable(m: Manifest) {
    && m.revision > 0 && m.committed == |EncodeAll(RowsOf(m.digest))|
    && UniqueIds(RowsOf(m.digest)) && CountsAgree(m.counts, RowsOf(m.digest))
  }

  /** Bytes parse to rows exactly when they encode them. */
  lemma ParsesAs(bytes: seq<Cell>, rows: seq<Row>)
    ensures Parse(bytes) == Some(rows) <==> bytes == EncodeAll(rows)
  {
    ParseEncoded(rows);
    ParsedEncodes(bytes);
  }

  /** Rows chain to a digest exactly when they are the digest's rows. */
  lemma ChainsTo(rows: seq<Row>, digest: Chain)
    ensures Extend(Seed, rows) == digest <==> rows == RowsOf(digest)
  {
    DigestDetermines(digest);
    ExtendRows(Seed, rows);
    assert [] + rows == rows;
  }

  /** A strict read succeeds exactly on bytes that hold the manifest's rows, and
      returns them. */
  lemma StrictReadExactly(bytes: Option<seq<Cell>>, m: Manifest)
    requires Certifiable(m)
    ensures StrictRead(bytes, m).Some? <==> bytes.Some? && Holds(bytes.value, m)
    ensures StrictRead(bytes, m).Some? ==> StrictRead(bytes, m).value == RowsOf(m.digest)
  {
    if bytes.Some? && |bytes.value| >= m.committed {
      CommittedReadExactly(bytes.value[..m.committed], RowsOf(m.digest), m);
    }
  }

  lemma CommittedReadExactly(committed: seq<Cell>, named: seq<Row>, m: Manifest)
    requires named == RowsOf(m.digest) && UniqueIds(named) && CountsAgree(m.counts, named)
    ensures var rows := Parse(committed);
            (rows.Some? && Extend(Seed, rows.value) == m.digest && UniqueIds(rows.value) && CountsAgree(m.counts, rows.value)) <==>
            committed == EncodeAll(named)
    ensures Parse(committed).Some? && Extend(Seed, Parse(committed).value) == m.digest ==> Parse(committed).value == named
  {
    ParsesAs(committed, named);
    if Parse(committed).Some? {
      ChainsTo(Parse(committed).value, m.digest);
    }
  }

  ghost predicate LiveCertified(d: Disk) {
    d.meta.Some? && StrictRead(Content(d, d.data), d.meta.value).Some?
  }

  ghost predicate PrevCertified(d: Disk) {
    d.meta.Some? && StrictRead(Content(d, d.prev), d.meta.value).Some?
  }

  /** Recovery: the live file if it satisfies the manifest, else the previous
      generation, which is put back.  `None` is a failed load. */
  ghost function LoadOps(d: Disk): Option<seq<FileOp>> {
    if d.meta.None? then None
    else if LiveCertified(d) then Some([Discard])
    else if PrevCertified(d) then Some([Restore])
    else None
  }

  ghost predicate Recoverable(d: Disk) {
    LoadOps(d).Some?
  }

  lemma RecoveryStep(d: Disk, op: FileOp)
    requires ValidDisk(d) && LoadOps(d) == Some([op])
    ensures Do(d, op).meta == d.meta && Content(Do(d, op), Do(d, op).data) ==
              (if LiveCertified(d) then Content(d, d.data) else Content(d, d.prev))
    ensures LiveCertified(Do(d, op))
  {
  }

  /** Whatever point a recovery dies at, the disk stays recoverable; when it
      completes, the live file holds exactly the manifest's rows. */
  lemma RecoveryRecovers(d: Disk, n: nat, after: Disk)
    requires ValidDisk(d) && Recoverable(d) && Certifiable(d.meta.value) && n <= 1
    requires after == DoAll(d, LoadOps(d).value[..n])
    ensures Recoverable(after) && after.meta == d.meta
    ensures n == 1 || LiveCertified(d) ==>
              StrictRead(Content(after, after.data), d.meta.value) == Some(RowsOf(d.meta.value.digest))
  {
    var ops := LoadOps(d).value;
    assert ops[..1] == ops && ops[..0] == [] && DoAll(d, ops[..0]) == d;
    if n == 1 {
      assert after == Do(d, ops[0]);
      RecoveryStep(d, ops[0]);
    }
    StrictReadExactly(Content(after, after.data), d.meta.value);
  }
}
