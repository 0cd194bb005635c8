/** Rejected and flagged transfers: they leave a transfer row and a history row, and no ledger row. */
module Refusals {
  import opened Model
  import opened Books
  import opened Invariants
  import opened Transactions
  import opened Locking
  import opened Reconcile
  import opened Outcomes
  import opened Schedules

  /** A history row that is not completed was written by its own refused transfer. */
  ghost predicate FromRefusal(t: Tables, txns: seq<Txn>, slot: Slot<HistoryRow>) {
    var w, row := slot.writer, slot.row;
    row.status != Completed && w < |txns| ==>
      && row.entity == w && txns[w].op.TransferOp?
      && (InFlight(txns[w]) ==>
            && txns[w].pc == RefusalLogged && row.status == txns[w].status
            && row.user == txns[w].pay.payer && row.amount == txns[w].pay.amount && row.key == Some(txns[w].pay.key))
      && (txns[w].pc == Done ==>
            && w in t.transfers && t.transfers[w].status == row.status && t.transfers[w].sender == row.user
            && t.transfers[w].amount == row.amount && Some(t.transfers[w].key) == row.key)
  }

  /** A ledger row carries its writer as transaction id, and only a registration writes a funding row. */
  ghost predicate Signed(txns: seq<Txn>, slot: Slot<LedgerRow>) {
    && slot.writer < |txns| && slot.row.txn == slot.writer
    && (slot.row.kind == Funding ==> txns[slot.writer].op.RegisterOp?)
  }

  ghost predicate RefusalsFiled(s: Sys) {
    && (forall k | 0 <= k < |s.history| :: s.history[k].writer < |s.txns| && FromRefusal(s.t, s.txns, s.history[k]))
    && (forall k | 0 <= k < |s.ledger| :: Signed(s.txns, s.ledger[k]))
  }

  lemma OperationStays(t: Tables, x: Txn, i: nat, now: Time)
    ensures Statement(t, x, i, now).next.op == x.op
  {
  }

  lemma InsertSigned(t: Tables, x: Txn, i: nat, now: Time)
    requires TxnOk(t, x, i) && Statement(t, x, i, now).InsertLedger?
    ensures var f := Statement(t, x, i, now); f.entry.txn == i && (f.entry.kind == Funding ==> x.op.RegisterOp?)
  {
  }

  lemma SignedKept(s: Sys, act: Act)
    requires LockInv(s) && Can(s, act) && forall k | 0 <= k < |s.ledger| :: Signed(s.txns, s.ledger[k])
    ensures forall k | 0 <= k < |Next(s, act).ledger| :: Signed(Next(s, act).txns, Next(s, act).ledger[k])
  {
    if act.Step? {
      OperationStays(s.t, s.txns[act.i], act.i, act.now);
      if Statement(s.t, s.txns[act.i], act.i, act.now).InsertLedger? {
        InsertSigned(s.t, s.txns[act.i], act.i, act.now);
      }
    }
    forall k | 0 <= k < |Next(s, act).ledger|
      ensures Signed(Next(s, act).txns, Next(s, act).ledger[k])
    {
      if k < |s.ledger| { assert Signed(s.txns, s.ledger[k]); }
    }
  }

  /** A statement of the writer keeps its refused row backed. */
  lemma WriterStep(t: Tables, x: Txn, i: nat, now: Time, txns: seq<Txn>, slot: Slot<HistoryRow>)
    requires i < |txns| && txns[i] == x && InFlight(x) && TxnOk(t, x, i) && slot.writer == i
    requires FromRefusal(t, txns, slot)
    ensures var f := Statement(t, x, i, now);
            && (!f.Emit? ==> FromRefusal(t, txns[i := f.next], slot))
            && (f.Emit? && TablesAllow(t, f.event) ==> FromRefusal(ApplyTables(t, f.event), txns[i := f.next], slot))
  {
  }

  /** A statement of another transaction does not touch it. */
  lemma OtherStep(t: Tables, x: Txn, i: nat, now: Time, txns: seq<Txn>, slot: Slot<HistoryRow>)
    requires i < |txns| && txns[i] == x && InFlight(x) && TxnOk(t, x, i) && slot.writer != i
    requires FromRefusal(t, txns, slot)
    ensures var f := Statement(t, x, i, now);
            && (!f.Emit? ==> FromRefusal(t, txns[i := f.next], slot))
            && (f.Emit? && TablesAllow(t, f.event) ==> FromRefusal(ApplyTables(t, f.event), txns[i := f.next], slot))
  {
    var f := Statement(t, x, i, now);
    if f.Emit? && TablesAllow(t, f.event) {
      OtherIds(t, x, i, now, slot.writer);
    }
  }

  lemma OtherIds(t: Tables, x: Txn, i: nat, now: Time, w: nat)
    requires InFlight(x) && TxnOk(t, x, i) && w != i
    requires Statement(t, x, i, now).Emit? && TablesAllow(t, Statement(t, x, i, now).event)
    ensures w in t.transfers ==>
              w in ApplyTables(t, Statement(t, x, i, now).event).transfers
              && ApplyTables(t, Statement(t, x, i, now).event).transfers[w] == t.transfers[w]
  {
  }

  lemma NewRow(t: Tables, x: Txn, i: nat, now: Time, txns: seq<Txn>)
    requires i < |txns| && txns[i] == x && InFlight(x) && TxnOk(t, x, i) && Statement(t, x, i, now).InsertHistory?
    ensures var f := Statement(t, x, i, now); FromRefusal(t, txns[i := f.next], Slot(i, f.account, f.item))
  {
  }

  lemma RefusalsKept(s: Sys, act: Act)
    requires LockInv(s) && RefusalsFiled(s) && Can(s, act)
    ensures RefusalsFiled(Next(s, act))
  {
    var s' := Next(s, act);
    SignedKept(s, act);
    forall k | 0 <= k < |s'.history|
      ensures s'.history[k].writer < |s'.txns| && FromRefusal(s'.t, s'.txns, s'.history[k])
    {
      if k < |s.history| {
        assert s'.history[k] == s.history[k] && FromRefusal(s.t, s.txns, s.history[k]);
      }
      if act.Step? {
        var i, x := act.i, s.txns[act.i];
        StepAllowed(s, i, act.now);
        if k == |s.history| {
          NewRow(s.t, x, i, act.now, s.txns);
        } else if s.history[k].writer == i {
          WriterStep(s.t, x, i, act.now, s.txns, s.history[k]);
        } else {
          OtherStep(s.t, x, i, act.now, s.txns, s.history[k]);
        }
      }
    }
  }

  lemma {:induction false} RefusalsAlways(s: Sys, acts: seq<Act>)
    requires LockInv(s) && RefusalsFiled(s) && CanRun(s, acts)
    ensures RefusalsFiled(Run(s, acts))
    decreases |acts|
  {
    if acts != [] {
      LockInvKept(s, acts[0]);
      RefusalsKept(s, acts[0]);
      RefusalsAlways(Next(s, acts[0]), acts[1..]);
    }
  }

  lemma {:induction false} VisibleFrom(slots: seq<Slot<LedgerRow>>, c: set<nat>, row: LedgerRow) returns (k: nat)
    requires row in Visible(slots, c)
    ensures k < |slots| && slots[k].row == row && slots[k].writer in c
  {
    var last := |slots| - 1;
    if slots[last].row == row && slots[last].writer in c {
      k := last;
    } else {
      k := VisibleFrom(slots[..last], c, row);
    }
  }

  /** A committed ledger row with the id of a transaction whose operation is a transfer is a payment row. */
  lemma NotFunding(s: Sys, u: UserId, j: nat, w: nat)
    requires RefusalsFiled(s) && j < |RowsOf(CommittedLedger(s), u)| && RowsOf(CommittedLedger(s), u)[j].txn == w
    requires w < |s.txns| && s.txns[w].op.TransferOp?
    ensures RowsOf(CommittedLedger(s), u)[j].kind != Funding
  {
    RowsOfIn(CommittedLedger(s), u, j);
    var k := VisibleFrom(s.ledger, Commits(s.txns), RowsOf(CommittedLedger(s), u)[j]);
    assert Signed(s.txns, s.ledger[k]);
  }

  lemma ReachableFiled(s: Sys)
    requires Reachable(s)
    ensures RefusalsFiled(s)
  {
    var acts :| CanRun(Boot, acts) && Run(Boot, acts) == s;
    BootLocked();
    RefusalsAlways(Boot, acts);
  }

  /** In every reachable state a committed history row that is rejected or flagged belongs to the transfer
      recorded with that status under the same sender, amount and key, and no row of the committed ledger
      carries that transfer. */
  lemma RefusedRowsHaveNoLedger(s: Sys, k: nat)
    requires Reachable(s)
    requires k < |s.history| && s.history[k].writer in Commits(s.txns) && s.history[k].row.status != Completed
    ensures var row := s.history[k].row;
            && row.entity in s.t.transfers && s.t.transfers[row.entity].status == row.status
            && s.t.transfers[row.entity].sender == row.user && s.t.transfers[row.entity].amount == row.amount
            && Some(s.t.transfers[row.entity].key) == row.key
            && forall u, j | 0 <= j < |RowsOf(CommittedLedger(s), u)| ::
                 RowsOf(CommittedLedger(s), u)[j].txn != row.entity
  {
    ReachableFiled(s);
    assert FromRefusal(s.t, s.txns, s.history[k]);
    forall u, j | 0 <= j < |RowsOf(CommittedLedger(s), u)|
      ensures RowsOf(CommittedLedger(s), u)[j].txn != s.history[k].row.entity
    {
      PaymentRowCompleted(s, u, j);
      if RowsOf(CommittedLedger(s), u)[j].txn == s.history[k].row.entity { NotFunding(s, u, j, s.history[k].writer); }
    }
  }

  lemma PaymentRowCompleted(s: Sys, u: UserId, j: nat)
    requires Reachable(s) && j < |RowsOf(CommittedLedger(s), u)|
    ensures var row := RowsOf(CommittedLedger(s), u)[j];
            row.kind != Funding ==> row.txn in s.t.transfers && s.t.transfers[row.txn].status == Completed
  {
    var b, log := BooksOf(s);
    CommittedRows(s, b);
    assert RowsOf(CommittedLedger(s), u) == At(b.rows, u);
    if RowsOf(CommittedLedger(s), u)[j].kind != Funding { BackedRow(b.t, b.rows, u, j); }
  }

  lemma BackedRow(t: Tables, rows: Accounts, u: UserId, j: nat)
    requires RowsBacked(t, rows) && u in rows && j < |rows[u]| && rows[u][j].kind != Funding
    ensures rows[u][j].txn in t.transfers && t.transfers[rows[u][j].txn].status == Completed
  {
  }
}
