/** Rows of the Trade log, their bytes, and the digest chain over them.  A byte is
    symbolic: it knows the row it was written for and its place in it, so that
    torn and overwritten files are ordinary byte lists.  The hash step is taken to
    be injective, which makes a digest the list of rows it was built from. */
module TradeRows {
  import opened Options

  /** `body` stands for the immutable financial fields other than symbol and ID. */
  datatype Row = Row(symbol: string, id: nat, body: nat, width: nat)

  datatype Cell = Cell(row: Row, at: nat)

  /** The JSON text of a row and its newline. */
  function Encode(row: Row): (bytes: seq<Cell>)
    ensures |bytes| == row.width + 1
  {
    seq(row.width + 1, (k: nat) => Cell(row, k))
  }

  function EncodeAll(rows: seq<Row>): seq<Cell> {
    if rows == [] then [] else EncodeAll(rows[..|rows| - 1]) + Encode(rows[|rows| - 1])
  }

  /** Parses complete rows from the front; anything else makes the read fail. */
  function Parse(bytes: seq<Cell>): Option<seq<Row>>
    decreases |bytes|
  {
    if bytes == [] then Some([])
    else
      var row := bytes[0].row;
      var n := row.width + 1;
      if n <= |bytes| && bytes[..n] == Encode(row) then
        var rest := Parse(bytes[n..]);
        if rest.Some? then Some([row] + rest.value) else None
      else None
  }

  lemma {:induction false} EncodeConcat(a: seq<Row>, b: seq<Row>)
    ensures EncodeAll(a + b) == EncodeAll(a) + EncodeAll(b)
  {
    if b == [] {
      assert a + b == a;
    } else {
      var n := |b| - 1;
      assert (a + b)[..|a + b| - 1] == a + b[..n];
      EncodeConcat(a, b[..n]);
    }
  }

  lemma EncodeOne(row: Row)
    ensures EncodeAll([row]) == Encode(row)
  {
    assert [row][..0] == [];
  }

  /** Parsing inverts encoding ... */
  lemma {:induction false} ParseEncoded(rows: seq<Row>)
    ensures Parse(EncodeAll(rows)) == Some(rows)
  {
    if rows != [] {
      var row := rows[0];
      var bytes := EncodeAll(rows);
      assert rows == [row] + rows[1..];
      EncodeConcat([row], rows[1..]);
      EncodeOne(row);
      var n := row.width + 1;
      assert bytes == Encode(row) + EncodeAll(rows[1..]);
      assert bytes[0] == Encode(row)[0];
      assert bytes[..n] == Encode(row) && bytes[n..] == EncodeAll(rows[1..]);
      ParseEncoded(rows[1..]);
    }
  }

  /** ... and only encodings parse. */
  lemma {:induction false} ParsedEncodes(bytes: seq<Cell>)
    ensures Parse(bytes).Some? ==> EncodeAll(Parse(bytes).value) == bytes
    decreases |bytes|
  {
    if bytes != [] && Parse(bytes).Some? {
      var row := bytes[0].row;
      var n := row.width + 1;
      ParsedEncodes(bytes[n..]);
      EncodeConcat([row], Parse(bytes[n..]).value);
      EncodeOne(row);
      assert bytes == bytes[..n] + bytes[n..];
    }
  }

  // ------------------------------------------------------------------
  // The digest chain.
  // ------------------------------------------------------------------

  datatype Chain = Seed | Link(front: Chain, last: Row)

  /** `_trade_records_digest`: continues a chain with more rows. */
  function Extend(chain: Chain, rows: seq<Row>): Chain {
    if rows == [] then chain else Link(Extend(chain, rows[..|rows| - 1]), rows[|rows| - 1])
  }

  function RowsOf(chain: Chain): seq<Row> {
    match chain
    case Seed => []
    case Link(front, last) => RowsOf(front) + [last]
  }

  /** digest(a + b) = digest(b, starting from digest(a)). */
  lemma {:induction false} ChainLaw(chain: Chain, a: seq<Row>, b: seq<Row>)
    ensures Extend(chain, a + b) == Extend(Extend(chain, a), b)
  {
    if b == [] {
      assert a + b == a;
    } else {
      var n := |b| - 1;
      assert (a + b)[..|a + b| - 1] == a + b[..n];
      ChainLaw(chain, a, b[..n]);
    }
  }

  lemma {:induction false} ExtendRows(chain: Chain, rows: seq<Row>)
    ensures RowsOf(Extend(chain, rows)) == RowsOf(chain) + rows
  {
    if rows != [] {
      ExtendRows(chain, rows[..|rows| - 1]);
      assert rows == rows[..|rows| - 1] + [rows[|rows| - 1]];
    }
  }

  /** Equal digests mean equal rows. */
  lemma {:induction false} DigestDetermines(chain: Chain)
    ensures Extend(Seed, RowsOf(chain)) == chain
  {
    match chain
    case Seed =>
    case Link(front, last) =>
      DigestDetermines(front);
      assert (RowsOf(front) + [last])[..|RowsOf(front)|] == RowsOf(front);
  }

  // ------------------------------------------------------------------
  // Rows by symbol.
  // ------------------------------------------------------------------

  function Bucket(rows: seq<Row>, symbol: string): seq<Row> {
    if rows == [] then []
    else
      var front := Bucket(rows[..|rows| - 1], symbol);
      if rows[|rows| - 1].symbol == symbol then front + [rows[|rows| - 1]] else front
  }

  lemma {:induction false} BucketConcat(a: seq<Row>, b: seq<Row>, symbol: string)
    ensures Bucket(a + b, symbol) == Bucket(a, symbol) + Bucket(b, symbol)
  {
    if b == [] {
      assert a + b == a;
    } else {
      var n := |b| - 1;
      assert (a + b)[..|a + b| - 1] == a + b[..n];
      BucketConcat(a, b[..n], symbol);
    }
  }

  lemma {:induction false} BucketOfOne(rows: seq<Row>, owner: string, symbol: string)
    requires forall i :: 0 <= i < |rows| ==> rows[i].symbol == owner
    ensures Bucket(rows, symbol) == if symbol == owner then rows else []
  {
    if rows != [] {
      BucketOfOne(rows[..|rows| - 1], owner, symbol);
      assert rows == rows[..|rows| - 1] + [rows[|rows| - 1]];
    }
  }

  /** No symbol holds the same Trade ID twice. */
  ghost predicate UniqueIds(rows: seq<Row>) {
    forall i, j :: 0 <= i < j < |rows| && rows[i].symbol == rows[j].symbol ==> rows[i].id != rows[j].id
  }

  ghost predicate DistinctIds(rows: seq<Row>) {
    forall i, j :: 0 <= i < j < |rows| ==> rows[i].id != rows[j].id
  }

  lemma {:induction false} BucketMembers(rows: seq<Row>, symbol: string)
    ensures forall row :: row in Bucket(rows, symbol) <==> row in rows && row.symbol == symbol
  {
    if rows != [] {
      BucketMembers(rows[..|rows| - 1], symbol);
      assert rows == rows[..|rows| - 1] + [rows[|rows| - 1]];
    }
  }

  ghost predicate UniqueInBuckets(rows: seq<Row>) {
    forall symbol :: DistinctIds(Bucket(rows, symbol))
  }

  lemma {:induction false} UniqueBuckets(rows: seq<Row>, symbol: string)
    requires UniqueIds(rows)
    ensures DistinctIds(Bucket(rows, symbol))
  {
    if rows != [] {
      var n := |rows| - 1;
      var front := rows[..n];
      UniqueBuckets(front, symbol);
      BucketMembers(front, symbol);
      forall i | 0 <= i < |Bucket(front, symbol)| && rows[n].symbol == symbol
        ensures Bucket(front, symbol)[i].id != rows[n].id
      {
        assert Bucket(front, symbol)[i] in front;
        var k :| 0 <= k < n && rows[k] == Bucket(front, symbol)[i];
      }
    }
  }

  lemma {:induction false} BucketsUnique(rows: seq<Row>)
    requires UniqueInBuckets(rows)
    ensures UniqueIds(rows)
  {
    if rows != [] {
      var n := |rows| - 1;
      var front, last := rows[..n], rows[n];
      forall symbol ensures DistinctIds(Bucket(front, symbol)) {
        var all := Bucket(rows, symbol);
        assert DistinctIds(all);
        assert all == Bucket(front, symbol) || all == Bucket(front, symbol) + [last];
        assert forall i :: 0 <= i < |Bucket(front, symbol)| ==> Bucket(front, symbol)[i] == all[i];
      }
      BucketsUnique(front);
      var own := Bucket(front, last.symbol);
      assert DistinctIds(Bucket(rows, last.symbol)) && Bucket(rows, last.symbol) == own + [last];
      BucketMembers(front, last.symbol);
      forall i | 0 <= i < n && rows[i].symbol == last.symbol ensures rows[i].id != last.id {
        assert front[i] in front && front[i] in own;
        var k :| 0 <= k < |own| && own[k] == front[i];
        assert (own + [last])[k] == rows[i] && (own + [last])[|own|] == last;
      }
      forall i, j | 0 <= i < j < |rows| && rows[i].symbol == rows[j].symbol ensures rows[i].id != rows[j].id {
        if j < n {
          assert front[i] == rows[i] && front[j] == rows[j];
        }
      }
    }
  }

  /** IDs are unique in the log exactly when they are in every bucket. */
  lemma UniqueByBucket(rows: seq<Row>)
    ensures UniqueIds(rows) <==> UniqueInBuckets(rows)
  {
    if UniqueIds(rows) {
      forall symbol ensures DistinctIds(Bucket(rows, symbol)) {
        UniqueBuckets(rows, symbol);
      }
    }
    if UniqueInBuckets(rows) {
      BucketsUnique(rows);
    }
  }
}
