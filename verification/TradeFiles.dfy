/** The process view of the Trade files: operations are performed one at a time
    and the process may die before any of them.  `fuel` is the number of file
    operations it still lives for. */
module TradeFiles {
  import opened Options
  import opened TradeRows
  import opened TradeDisk
  import opened TradeCommits

  /** As many of the operations as the process lived for, in order. */
  predicate Ran(before: Disk, after: Disk, ops: seq<FileOp>, fuel: nat, left: nat, alive: bool) {
    && alive == (fuel >= |ops|)
    && after == DoAll(before, ops[..if alive then |ops| else fuel])
    && left == if alive then fuel - |ops| else 0
  }

  lemma RanNothing(d: Disk, fuel: nat)
    ensures Ran(d, d, [], fuel, fuel, true)
  {
  }

  lemma RanThen(a: Disk, b: Disk, c: Disk, first: seq<FileOp>, second: seq<FileOp>, f0: nat, f1: nat, f2: nat, alive: bool)
    requires Ran(a, b, first, f0, f1, true) && Ran(b, c, second, f1, f2, alive)
    ensures Ran(a, c, first + second, f0, f2, alive)
  {
    var n := if alive then |second| else f1;
    assert first[..|first|] == first;
    assert (first + second)[..|first| + n] == first + second[..n];
    DoAllConcat(a, first, second[..n]);
  }

  lemma RanDied(a: Disk, b: Disk, first: seq<FileOp>, second: seq<FileOp>, f0: nat, f1: nat)
    requires Ran(a, b, first, f0, f1, false)
    ensures Ran(a, b, first + second, f0, f1, false)
  {
    assert (first + second)[..f0] == first[..f0];
  }

  lemma WritesConcat(a: seq<Cell>, b: seq<Cell>)
    ensures Writes(a + b) == Writes(a) + Writes(b)
  {
  }

  /** Writing some rows and then some more. */
  lemma RowsThen(a: Disk, b: Disk, c: Disk, rows: seq<Row>, more: seq<Row>, f0: nat, f1: nat, f2: nat, alive: bool)
    requires Ran(a, b, Writes(EncodeAll(rows)), f0, f1, true) && Ran(b, c, Writes(EncodeAll(more)), f1, f2, alive)
    ensures Ran(a, c, Writes(EncodeAll(rows + more)), f0, f2, alive)
  {
    EncodeConcat(rows, more);
    WritesConcat(EncodeAll(rows), EncodeAll(more));
    RanThen(a, b, c, Writes(EncodeAll(rows)), Writes(EncodeAll(more)), f0, f1, f2, alive);
  }

  lemma RowsDied(a: Disk, b: Disk, rows: seq<Row>, later: seq<Row>, f0: nat, f1: nat)
    requires Ran(a, b, Writes(EncodeAll(rows)), f0, f1, false)
    ensures Ran(a, b, Writes(EncodeAll(rows + later)), f0, f1, false)
  {
    EncodeConcat(rows, later);
    WritesConcat(EncodeAll(rows), EncodeAll(later));
    RanDied(a, b, Writes(EncodeAll(rows)), Writes(EncodeAll(later)), f0, f1);
  }

  class Files {
    var disk: Disk
    var fuel: nat

    constructor (disk: Disk, fuel: nat)
      ensures this.disk == disk && this.fuel == fuel
    {
      this.disk := disk;
      this.fuel := fuel;
    }

    method Perform(op: FileOp) returns (alive: bool)
      modifies this
      ensures Ran(old(disk), disk, [op], old(fuel), fuel, alive)
    {
      assert [op][..0] == [] && DoAll(disk, []) == disk && [op][..1] == [op];
      alive := fuel > 0;
      if alive {
        assert DoAll(disk, [op]) == Do(disk, op);
        disk := Do(disk, op);
        fuel := fuel - 1;
      }
    }

    method WriteRow(row: Row) returns (alive: bool)
      modifies this
      ensures Ran(old(disk), disk, Writes(Encode(row)), old(fuel), fuel, alive)
    {
      alive := true;
      ghost var bytes := Encode(row);
      assert Writes(bytes[..0]) == [];
      RanNothing(disk, fuel);
      var k := 0;
      while k <= row.width
        invariant 0 <= k <= row.width + 1
        invariant alive && Ran(old(disk), disk, Writes(bytes[..k]), old(fuel), fuel, true)
      {
        label Before:
        alive := Perform(Write(Cell(row, k)));
        assert bytes[..k + 1] == bytes[..k] + [bytes[k]];
        WritesConcat(bytes[..k], [bytes[k]]);
        RanThen(old(disk), old@Before(disk), disk, Writes(bytes[..k]), [Write(Cell(row, k))], old(fuel), old@Before(fuel), fuel, alive);
        assert Writes([bytes[k]]) == [Write(Cell(row, k))];
        if !alive {
          assert bytes == bytes[..k + 1] + bytes[k + 1..];
          WritesConcat(bytes[..k + 1], bytes[k + 1..]);
          RanDied(old(disk), disk, Writes(bytes[..k + 1]), Writes(bytes[k + 1..]), old(fuel), fuel);
          return;
        }
        k := k + 1;
      }
      assert bytes[..k] == bytes;
    }

    method WriteRows(rows: seq<Row>) returns (alive: bool)
      modifies this
      ensures Ran(old(disk), disk, Writes(EncodeAll(rows)), old(fuel), fuel, alive)
    {
      alive := true;
      RanNothing(disk, fuel);
      assert rows[..0] == [] && Writes(EncodeAll([])) == [];
      var k := 0;
      while k < |rows|
        invariant 0 <= k <= |rows|
        invariant alive && Ran(old(disk), disk, Writes(EncodeAll(rows[..k])), old(fuel), fuel, true)
      {
        label Before:
        alive := WriteRow(rows[k]);
        assert rows[..k + 1][..k] == rows[..k];
        WritesConcat(EncodeAll(rows[..k]), Encode(rows[k]));
        RanThen(old(disk), old@Before(disk), disk, Writes(EncodeAll(rows[..k])), Writes(Encode(rows[k])),
                old(fuel), old@Before(fuel), fuel, alive);
        if !alive {
          assert rows == rows[..k + 1] + rows[k + 1..];
          EncodeConcat(rows[..k + 1], rows[k + 1..]);
          WritesConcat(EncodeAll(rows[..k + 1]), EncodeAll(rows[k + 1..]));
          RanDied(old(disk), disk, Writes(EncodeAll(rows[..k + 1])), Writes(EncodeAll(rows[k + 1..])), old(fuel), fuel);
          return;
        }
        k := k + 1;
      }
      assert rows[..k] == rows;
    }
  }
}
