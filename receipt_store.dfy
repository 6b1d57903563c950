/** The stored receipts and the operations of the receipt service that change them:
    saving a new receipt, updating and deleting one by its receipt id, the
    pending-only settlement (cancel, win, loss), and the bulk update and bulk delete
    loops with their counters. The database is a map from receipt id to receipt. */
module ReceiptStore {
  import opened Domain
  import ReceiptRules

  datatype StoreError =
    | NotFound(receiptId: string)
    | DuplicateId
    | Invalid
    | NotPending(status: string)
    | Rejected(reason: ReceiptRules.CreateError)

  /** The status the schema accepts on an update run with validators: the field is a
      required string, so only the empty string is refused. */
  predicate AcceptedStatus(s: string) {
    s != ""
  }

  /** The state after one store operation and what the operation returned. */
  datatype Step = Step(after: map<string, Receipt>, result: Result<Receipt, StoreError>)

  /** A status update by receipt id: validation first, then the lookup. */
  function UpdateStatus(m: map<string, Receipt>, id: string, status: string): Step {
    if !AcceptedStatus(status) then Step(m, Failure(Invalid))
    else if id !in m then Step(m, Failure(NotFound(id)))
    else
      var r := m[id].(status := status);
      Step(m[id := r], Success(r))
  }

  /** An update succeeds exactly for an accepted status and a stored id; it then
      changes only that receipt's status, and a failed update changes nothing. */
  lemma UpdateStatusSpec(m: map<string, Receipt>, id: string, status: string)
    ensures var s := UpdateStatus(m, id, status);
      && (s.result.Success? <==> AcceptedStatus(status) && id in m)
      && (s.result.Success? ==> s.after == m[id := m[id].(status := status)] && s.result.value == s.after[id])
      && (s.result.Failure? ==> s.after == m)
      && (!AcceptedStatus(status) ==> s.result == Failure(Invalid))
      && (AcceptedStatus(status) && id !in m ==> s.result == Failure(NotFound(id)))
      && s.after.Keys == m.Keys
  {
  }

  /** Cancel, win and loss: the receipt must exist and be pending, then its status is
      updated to the target. */
  function Settle(m: map<string, Receipt>, id: string, target: string): Step {
    if id !in m then Step(m, Failure(NotFound(id)))
    else if m[id].status != Pending then Step(m, Failure(NotPending(m[id].status)))
    else UpdateStatus(m, id, target)
  }

  predicate Terminal(s: string) {
    s == Won || s == Lost || s == Cancelled
  }

  /** Settlement succeeds exactly for a stored pending receipt; it then changes only
      that receipt's status, and a failed settlement changes nothing. */
  lemma SettleSpec(m: map<string, Receipt>, id: string, target: string)
    requires Terminal(target)
    ensures var s := Settle(m, id, target);
      && (s.result.Success? <==> id in m && m[id].status == Pending)
      && (s.result.Success? ==> s.after == m[id := m[id].(status := target)] && s.result.value.status == target)
      && (s.result.Failure? ==> s.after == m)
      && (id !in m ==> s.result == Failure(NotFound(id)))
      && (id in m && m[id].status != Pending ==> s.result == Failure(NotPending(m[id].status)))
      && s.after.Keys == m.Keys
  {
  }

  /** A settled receipt (won, lost or cancelled) is never changed again by any
      settlement, whatever receipt it targets. */
  lemma {:induction false} TerminalIsAbsorbing(m: map<string, Receipt>, id: string, steps: seq<(string, string)>)
    requires id in m && Terminal(m[id].status)
    ensures var after := SettleAll(m, steps); id in after && after[id] == m[id]
  {
    if steps != [] {
      var init := steps[..|steps| - 1];
      TerminalIsAbsorbing(m, id, init);
      var before := SettleAll(m, init);
      var (x, t) := steps[|steps| - 1];
      if x == id {
        assert Settle(before, x, t).after == before;
      }
    }
  }

  /** A run of settlements, each a receipt id and a target status. */
  function SettleAll(m: map<string, Receipt>, steps: seq<(string, string)>): map<string, Receipt> {
    if steps == [] then m
    else
      var (x, t) := steps[|steps| - 1];
      Settle(SettleAll(m, steps[..|steps| - 1]), x, t).after
  }

  /** The plain status update is not bound to the pending-only rule: it moves a won
      receipt back to pending. */
  lemma UpdateReopensSettled(m: map<string, Receipt>, id: string)
    requires id in m && m[id].status == Won
    ensures UpdateStatus(m, id, Pending).result.Success?
    ensures UpdateStatus(m, id, Pending).after[id].status == Pending
    ensures Settle(m, id, Pending).result == Failure(NotPending(Won))
  {
  }

  // ---------------------------------------------------------------------------
  // The bulk operations, each one update or removal per id in order.

  function AfterUpdates(m: map<string, Receipt>, ids: seq<string>, status: string): map<string, Receipt> {
    if ids == [] then m
    else UpdateStatus(AfterUpdates(m, ids[..|ids| - 1], status), ids[|ids| - 1], status).after
  }

  function UpdatedCount(m: map<string, Receipt>, ids: seq<string>, status: string): nat {
    if ids == [] then 0
    else
      var before := AfterUpdates(m, ids[..|ids| - 1], status);
      UpdatedCount(m, ids[..|ids| - 1], status)
        + (if UpdateStatus(before, ids[|ids| - 1], status).result.Success? then 1 else 0)
  }

  /** The number of positions whose id is among the keys (a repeated id counts each time). */
  function CountIn(ids: seq<string>, keys: set<string>): nat {
    if ids == [] then 0 else CountIn(ids[..|ids| - 1], keys) + (if ids[|ids| - 1] in keys then 1 else 0)
  }

  /** A bulk update keeps the set of receipts, sets the status of every listed stored
      receipt when the status is accepted and of none otherwise, and counts one update
      per listed position whose receipt exists. */
  lemma {:induction false} BulkUpdateSpec(m: map<string, Receipt>, ids: seq<string>, status: string)
    ensures var after := AfterUpdates(m, ids, status);
      && after.Keys == m.Keys
      && (forall k :: k in m ==> after[k] == if AcceptedStatus(status) && k in ids then m[k].(status := status) else m[k])
      && UpdatedCount(m, ids, status) == if AcceptedStatus(status) then CountIn(ids, m.Keys) else 0
  {
    if ids != [] {
      var init, x := ids[..|ids| - 1], ids[|ids| - 1];
      BulkUpdateSpec(m, init, status);
      assert forall k :: k in ids <==> k in init || k == x by {
        assert ids == init + [x];
      }
    }
  }

  function AfterDeletes(m: map<string, Receipt>, ids: seq<string>): map<string, Receipt> {
    if ids == [] then m else AfterDeletes(m, ids[..|ids| - 1]) - {ids[|ids| - 1]}
  }

  function DeletedCount(m: map<string, Receipt>, ids: seq<string>): nat {
    if ids == [] then 0
    else DeletedCount(m, ids[..|ids| - 1]) + (if ids[|ids| - 1] in AfterDeletes(m, ids[..|ids| - 1]) then 1 else 0)
  }

  function SetOf(ids: seq<string>): set<string> {
    set x | x in ids
  }

  lemma SetOfSnoc(ids: seq<string>)
    requires ids != []
    ensures SetOf(ids) == SetOf(ids[..|ids| - 1]) + {ids[|ids| - 1]}
  {
    assert ids == ids[..|ids| - 1] + [ids[|ids| - 1]];
  }

  /** A bulk delete removes exactly the listed receipts. */
  lemma {:induction false} AfterDeletesSpec(m: map<string, Receipt>, ids: seq<string>)
    ensures AfterDeletes(m, ids) == m - SetOf(ids)
  {
    if ids != [] {
      AfterDeletesSpec(m, ids[..|ids| - 1]);
      SetOfSnoc(ids);
    }
  }

  /** A bulk delete counts each stored receipt once, however often its id is listed. */
  lemma {:induction false} DeletedCountSpec(m: map<string, Receipt>, ids: seq<string>)
    ensures DeletedCount(m, ids) == |m.Keys * SetOf(ids)|
  {
    if ids != [] {
      var init, x := ids[..|ids| - 1], ids[|ids| - 1];
      DeletedCountSpec(m, init);
      AfterDeletesSpec(m, init);
      SetOfSnoc(ids);
      var before := m.Keys * SetOf(init);
      if x in m.Keys && x !in SetOf(init) {
        assert m.Keys * SetOf(ids) == before + {x};
        assert x !in before;
      } else {
        assert m.Keys * SetOf(ids) == before;
      }
    }
  }

  // ---------------------------------------------------------------------------

  class Store {
    var receipts: map<string, Receipt>

    /** Every receipt is stored under its own receipt id. */
    predicate Valid()
      reads this
    {
      forall k :: k in receipts ==> receipts[k].receiptId == k
    }

    constructor()
      ensures Valid()
      ensures receipts == map[]
    {
      receipts := map[];
    }

    /** Lookup by receipt id. */
    method Find(id: string) returns (r: Result<Receipt, StoreError>)
      requires Valid()
      ensures r.Success? <==> id in receipts
      ensures r.Success? ==> r.value == receipts[id] && r.value.receiptId == id
      ensures r.Failure? ==> r.error == NotFound(id)
    {
      if id in receipts {
        r := Success(receipts[id]);
      } else {
        r := Failure(NotFound(id));
      }
    }

    /** Saving is refused for an id already present (the unique index on the id). */
    method Save(rec: Receipt) returns (r: Result<Receipt, StoreError>)
      requires Valid()
      modifies this
      ensures Valid()
      ensures rec.receiptId in old(receipts) ==> r == Failure(DuplicateId) && receipts == old(receipts)
      ensures rec.receiptId !in old(receipts) ==> r == Success(rec) && receipts == old(receipts)[rec.receiptId := rec]
    {
      if rec.receiptId in receipts {
        r := Failure(DuplicateId);
      } else {
        receipts := receipts[rec.receiptId := rec];
        r := Success(rec);
      }
    }

    /** Receipt creation: the gates and the items of the receipt rules, then the save
        under the generated id. */
    method Create(receiptId: string, userNo: string, bookmarks: seq<ReceiptRules.Bookmark>, betPrice: int,
                  games: seq<GameInfo>, bettingType: string, now: int) returns (r: Result<Receipt, StoreError>)
      requires Valid()
      modifies this
      ensures Valid()
      ensures var made := ReceiptRules.CreateReceipt(receiptId, userNo, bookmarks, betPrice, games, bettingType, now);
        && (made.Failure? ==> r == Failure(Rejected(made.error)) && receipts == old(receipts))
        && (made.Success? && receiptId in old(receipts) ==> r == Failure(DuplicateId) && receipts == old(receipts))
        && (made.Success? && receiptId !in old(receipts) ==>
              r == Success(made.value) && receipts == old(receipts)[receiptId := made.value])
    {
      var made := ReceiptRules.CreateReceipt(receiptId, userNo, bookmarks, betPrice, games, bettingType, now);
      if made.Failure? {
        r := Failure(Rejected(made.error));
      } else {
        r := Save(made.value);
      }
    }

    /** Update of the status by receipt id. */
    method Update(id: string, status: string) returns (r: Result<Receipt, StoreError>)
      requires Valid()
      modifies this
      ensures Valid()
      ensures receipts == UpdateStatus(old(receipts), id, status).after
      ensures r == UpdateStatus(old(receipts), id, status).result
    {
      if status == "" {
        r := Failure(Invalid);
      } else if id !in receipts {
        r := Failure(NotFound(id));
      } else {
        var rec := receipts[id].(status := status);
        receipts := receipts[id := rec];
        r := Success(rec);
      }
    }

    /** Deletion by receipt id, returning the deleted receipt. */
    method Remove(id: string) returns (r: Result<Receipt, StoreError>)
      requires Valid()
      modifies this
      ensures Valid()
      ensures id in old(receipts) ==> r == Success(old(receipts)[id]) && receipts == old(receipts) - {id}
      ensures id !in old(receipts) ==> r == Failure(NotFound(id)) && receipts == old(receipts)
    {
      if id in receipts {
        r := Success(receipts[id]);
        receipts := receipts - {id};
      } else {
        r := Failure(NotFound(id));
      }
    }

    /** The shared shape of cancel, win and loss: look the receipt up, require it to be
        pending, then update its status. */
    method SettleReceipt(id: string, target: string) returns (r: Result<Receipt, StoreError>)
      requires Valid()
      modifies this
      ensures Valid()
      ensures receipts == Settle(old(receipts), id, target).after
      ensures r == Settle(old(receipts), id, target).result
    {
      var found := Find(id);
      if found.Failure? {
        r := found;
      } else if found.value.status != Pending {
        r := Failure(NotPending(found.value.status));
      } else {
        r := Update(id, target);
      }
    }

    method Cancel(id: string) returns (r: Result<Receipt, StoreError>)
      requires Valid()
      modifies this
      ensures Valid()
      ensures receipts == Settle(old(receipts), id, Cancelled).after
      ensures r == Settle(old(receipts), id, Cancelled).result
    {
      r := SettleReceipt(id, Cancelled);
    }

    method ProcessWin(id: string) returns (r: Result<Receipt, StoreError>)
      requires Valid()
      modifies this
      ensures Valid()
      ensures receipts == Settle(old(receipts), id, Won).after
      ensures r == Settle(old(receipts), id, Won).result
    {
      r := SettleReceipt(id, Won);
    }

    method ProcessLoss(id: string) returns (r: Result<Receipt, StoreError>)
      requires Valid()
      modifies this
      ensures Valid()
      ensures receipts == Settle(old(receipts), id, Lost).after
      ensures r == Settle(old(receipts), id, Lost).result
    {
      r := SettleReceipt(id, Lost);
    }

    /** One update per id in order; each success counts as updated, each failure as
        failed. */
    method BulkUpdateStatus(ids: seq<string>, status: string) returns (updated: nat, failed: nat)
      requires Valid()
      modifies this
      ensures Valid()
      ensures updated + failed == |ids|
      ensures receipts == AfterUpdates(old(receipts), ids, status)
      ensures updated == if AcceptedStatus(status) then CountIn(ids, old(receipts).Keys) else 0
    {
      ghost var m0 := receipts;
      updated, failed := 0, 0;
      var i := 0;
      while i < |ids|
        invariant 0 <= i <= |ids|
        invariant Valid()
        invariant updated + failed == i
        invariant receipts == AfterUpdates(m0, ids[..i], status)
        invariant updated == UpdatedCount(m0, ids[..i], status)
      {
        assert ids[..i + 1][..i] == ids[..i];
        var r := Update(ids[i], status);
        if r.Success? {
          updated := updated + 1;
        } else {
          failed := failed + 1;
        }
        i := i + 1;
      }
      assert ids[..i] == ids;
      BulkUpdateSpec(m0, ids, status);
    }

    /** One removal per id in order; each success counts as deleted, each failure as
        failed. */
    method BulkDelete(ids: seq<string>) returns (deleted: nat, failed: nat)
      requires Valid()
      modifies this
      ensures Valid()
      ensures deleted + failed == |ids|
      ensures receipts == old(receipts) - SetOf(ids)
      ensures deleted == |old(receipts).Keys * SetOf(ids)|
    {
      ghost var m0 := receipts;
      deleted, failed := 0, 0;
      var i := 0;
      while i < |ids|
        invariant 0 <= i <= |ids|
        invariant Valid()
        invariant deleted + failed == i
        invariant receipts == AfterDeletes(m0, ids[..i])
        invariant deleted == DeletedCount(m0, ids[..i])
      {
        assert ids[..i + 1][..i] == ids[..i];
        var r := Remove(ids[i]);
        if r.Success? {
          deleted := deleted + 1;
        } else {
          failed := failed + 1;
        }
        i := i + 1;
      }
      assert ids[..i] == ids;
      AfterDeletesSpec(m0, ids);
      DeletedCountSpec(m0, ids);
    }
  }
}
