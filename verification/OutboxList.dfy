/** The stored list of the outbox: lookup by record ID and the lifting of a
    per-record edit to the whole list. */
module OutboxList {
  import opened Options
  import opened OutboxRecord
  import opened OutboxEdits
  import Passes

  const ID: Record -> nat := (rec: Record) => rec.id

  function Pass(edit: Edit): Record -> seq<Record> {
    rec => Apply(edit, rec)
  }

  /** The rewritten form of the selected records only, in list order. */
  function Chosen(edit: Edit): Record -> seq<Record> {
    rec => if Selects(edit, rec) then Apply(edit, rec) else []
  }

  /** The selected records as they were. */
  function Dropped(edit: Edit): Record -> seq<Record> {
    rec => if Selects(edit, rec) then [rec] else []
  }

  /** What every operation keeps: one record per ID, each well formed. */
  ghost predicate ValidList(q: seq<Record>) {
    Passes.UniqueKeys(q, ID) && forall i :: 0 <= i < |q| ==> ValidRecord(q[i])
  }

  function Lookup(q: seq<Record>, id: nat): Option<Record> {
    Passes.Lookup(q, ID, id)
  }

  function Rewrite(q: seq<Record>, edit: Edit): seq<Record> {
    Passes.Rewrite(q, Pass(edit))
  }

  lemma PassKeepsKey(edit: Edit)
    ensures Passes.KeepsKey(Pass(edit), ID)
  {
    forall rec: Record
      ensures Pass(edit)(rec) == [] || (|Pass(edit)(rec)| == 1 && ID(Pass(edit)(rec)[0]) == ID(rec))
    {
      ApplyKeepsIdentity(edit, rec);
    }
  }

  lemma RewriteKeepsValid(q: seq<Record>, edit: Edit)
    requires ValidList(q) && Admissible(edit)
    ensures ValidList(Rewrite(q, edit))
  {
    PassKeepsKey(edit);
    Passes.RewriteLookup(q, Pass(edit), ID, 0);
    var after := Rewrite(q, edit);
    forall k | 0 <= k < |after| ensures ValidRecord(after[k]) {
      var i := Passes.RewriteOrigin(q, Pass(edit), after[k]);
      ApplyKeepsValid(edit, q[i]);
    }
  }

  lemma RewriteShorter(q: seq<Record>, edit: Edit)
    ensures |Rewrite(q, edit)| <= |q|
    ensures (exists i :: 0 <= i < |q| && Apply(edit, q[i]) == []) ==> |Rewrite(q, edit)| < |q|
  {
    Passes.RewriteLength(q, Pass(edit));
    if exists i :: 0 <= i < |q| && Apply(edit, q[i]) == [] {
      var i :| 0 <= i < |q| && Apply(edit, q[i]) == [];
      assert Pass(edit)(q[i]) == [];
    }
  }

  /** An edit addressed to one ID, as begin, complete and activate are. */
  predicate Addressed(edit: Edit, id: nat) {
    match edit
    case BeginEdit(snap, _, _, _) => snap.id == id
    case CompleteEdit(snap, _, _, _) => snap.id == id
    case ActivateEdit(snap, _, _) => snap.id == id
    case _ => false
  }

  lemma AddressedSelects(edit: Edit, id: nat, rec: Record)
    requires Addressed(edit, id) && rec.id != id
    ensures !Selects(edit, rec)
  {
  }

  /** Stopping at the first match, as the source's loops do, is the same as the
      full pass, because IDs are unique. */
  lemma RewriteAtTarget(q: seq<Record>, edit: Edit, i: nat)
    requires Passes.UniqueKeys(q, ID) && i < |q| && Addressed(edit, q[i].id)
    ensures Rewrite(q, edit) == q[..i] + Apply(edit, q[i]) + q[i + 1..]
  {
    forall j | 0 <= j < |q| && j != i ensures Pass(edit)(q[j]) == [q[j]] {
      assert ID(q[j]) != ID(q[i]);
      AddressedSelects(edit, q[i].id, q[j]);
    }
    Passes.RewriteAt(q, Pass(edit), i);
  }

  lemma RewriteNoTarget(q: seq<Record>, edit: Edit)
    requires forall i :: 0 <= i < |q| ==> !Selects(edit, q[i])
    ensures Rewrite(q, edit) == q
  {
    Passes.RewriteIdle(q, Pass(edit));
  }
}
