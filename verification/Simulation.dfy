/**
  Every interleaving is a run of the books: replaying the committed events one at a time, in commit order,
  gives the same tables and the same ledger and completed-history rows for every user, although row ids
  are drawn at insertion and the ids of different users' transactions interleave.
*/
module Simulation {
  import opened Model
  import opened Books
  import opened Invariants
  import opened Transactions
  import opened Locking

  // ---------- rows by writer ----------

  /** The ledger rows transaction `i` has inserted for user `u` so far. */
  function OwnLedger(x: Txn, i: nat, u: UserId): seq<LedgerRow> {
    match x.pc
    case DebitIn => if u == x.pay.payer then [DebitRow(x.pay, PayerBalance(x) - x.pay.amount)] else []
    case CreditIn => BothLedger(x, u)
    case SentIn => BothLedger(x, u)
    case ReceivedIn => BothLedger(x, u)
    case FundingIn => if x.op.RegisterOp? && u == x.op.user then [FundingRow(u, i, x.op.reference)] else []
    case FundingLogged => if x.op.RegisterOp? && u == x.op.user then [FundingRow(u, i, x.op.reference)] else []
    case _ => []
  }

  function BothLedger(x: Txn, u: UserId): seq<LedgerRow> {
    if u == x.pay.payer then [DebitRow(x.pay, PayerBalance(x) - x.pay.amount)]
    else if u == x.pay.payee then [CreditRow(x.pay, PayeeBalance(x) + x.pay.amount)]
    else []
  }

  /** The completed history rows transaction `i` has inserted for user `u` so far. */
  function OwnHistory(x: Txn, i: nat, u: UserId): seq<HistoryRow> {
    match x.pc
    case SentIn => if u == x.pay.payer then [SentHistory(x.pay, PayerBalance(x) - x.pay.amount)] else []
    case ReceivedIn =>
      if u == x.pay.payer then [SentHistory(x.pay, PayerBalance(x) - x.pay.amount)]
      else if u == x.pay.payee then [ReceivedHistory(x.pay, PayeeBalance(x) + x.pay.amount)]
      else []
    case FundingLogged => if x.op.RegisterOp? && u == x.op.user then [FundingHistory(u, i, x.op.reference)] else []
    case _ => []
  }

  // ---------- one table, one writer, one user ----------

  /** Committing `i` now would put its rows `own` for `u` after everything `u` can see. */
  ghost predicate Placed<T(!new)>(slots: seq<Slot<T>>, c: set<nat>, i: nat, u: UserId, own: seq<T>) {
    && Seen(slots, c + {i}, u) == Seen(slots, c, u) + own
    && (own == [] ==> NoneFrom(slots, i, u))
  }

  ghost predicate NoneFrom<T>(slots: seq<Slot<T>>, i: nat, u: UserId) {
    forall k | 0 <= k < |slots| :: slots[k].writer == i ==> slots[k].account != Some(u)
  }

  lemma SeenAppend<T>(slots: seq<Slot<T>>, e: Slot<T>, c: set<nat>, u: UserId)
    ensures Seen(slots + [e], c, u)
            == Seen(slots, c, u) + (if e.writer in c && e.account == Some(u) then [e.row] else [])
  {
    assert (slots + [e])[..|slots|] == slots;
  }

  lemma {:induction false} SeenSame<T>(slots: seq<Slot<T>>, c: set<nat>, d: set<nat>, u: UserId)
    requires forall k | 0 <= k < |slots| && slots[k].account == Some(u) ::
               slots[k].writer in c <==> slots[k].writer in d
    ensures Seen(slots, c, u) == Seen(slots, d, u)
  {
    if slots != [] {
      var front := slots[..|slots| - 1];
      forall k | 0 <= k < |front| && front[k].account == Some(u)
        ensures front[k].writer in c <==> front[k].writer in d
      {
        assert slots[k] == front[k];
      }
      SeenSame(front, c, d, u);
    }
  }

  lemma PlacedAppendOther<T(!new)>(slots: seq<Slot<T>>, e: Slot<T>, c: set<nat>, j: nat, u: UserId, own: seq<T>)
    requires Placed(slots, c, j, u, own) && e.writer != j && e.writer !in c
    ensures Placed(slots + [e], c, j, u, own)
  {
    SeenAppend(slots, e, c, u);
    SeenAppend(slots, e, c + {j}, u);
  }

  lemma PlacedAppendOwn<T(!new)>(slots: seq<Slot<T>>, e: Slot<T>, c: set<nat>, u: UserId, own: seq<T>)
    requires Placed(slots, c, e.writer, u, own) && e.writer !in c
    ensures Placed(slots + [e], c, e.writer, u, own + (if e.account == Some(u) then [e.row] else []))
  {
    SeenAppend(slots, e, c, u);
    SeenAppend(slots, e, c + {e.writer}, u);
    var more := if e.account == Some(u) then [e.row] else [];
    assert Seen(slots, c, u) + own + more == Seen(slots, c, u) + (own + more);
    assert Seen(slots + [e], c, u) == Seen(slots, c, u);
  }

  /** A commit by `i` does not disturb where `j` is placed, when they do not both write for `u`. */
  lemma PlacedCommit<T(!new)>(slots: seq<Slot<T>>, c: set<nat>, i: nat, j: nat, u: UserId, ownI: seq<T>, ownJ: seq<T>)
    requires Placed(slots, c, i, u, ownI) && Placed(slots, c, j, u, ownJ) && (ownI == [] || ownJ == [])
    ensures Placed(slots, c + {i}, j, u, ownJ)
  {
    if ownJ == [] {
      SeenSame(slots, c + {i} + {j}, c + {i}, u);
    } else {
      SeenSame(slots, c + {i} + {j}, c + {j}, u);
      SeenSame(slots, c + {i}, c, u);
    }
  }

  lemma PlacedNew<T(!new)>(slots: seq<Slot<T>>, c: set<nat>, i: nat, u: UserId)
    requires forall k | 0 <= k < |slots| :: slots[k].writer != i
    ensures Placed(slots, c, i, u, [])
  {
    SeenSame(slots, c + {i}, c, u);
  }

  // ---------- the invariant ----------

  ghost predicate Writers<T>(slots: seq<Slot<T>>, n: nat) {
    forall k | 0 <= k < |slots| :: slots[k].writer < n
  }

  ghost predicate LedgerPlaced(s: Sys) {
    forall i: nat, u: UserId | i < |s.txns| && InFlight(s.txns[i]) ::
      Placed(s.ledger, Commits(s.txns), i, u, OwnLedger(s.txns[i], i, u))
  }

  ghost predicate HistoryPlaced(s: Sys) {
    forall i: nat, u: UserId | i < |s.txns| && InFlight(s.txns[i]) ::
      Placed(s.history, Commits(s.txns), i, u, OwnHistory(s.txns[i], i, u))
  }

  ghost predicate Labelled(ledger: seq<Slot<LedgerRow>>) {
    forall k | 0 <= k < |ledger| :: ledger[k].account == Some(ledger[k].row.user)
  }

  ghost predicate Filed(history: seq<Slot<HistoryRow>>) {
    forall k | 0 <= k < |history| ::
      history[k].account == if history[k].row.status == Completed then Some(history[k].row.user) else None
  }

  ghost predicate RowsPlaced(s: Sys) {
    && Labelled(s.ledger) && Filed(s.history)
    && Writers(s.ledger, |s.txns|) && Writers(s.history, |s.txns|) && LedgerPlaced(s) && HistoryPlaced(s)
  }

  /** `b` is what the machine shows: the same tables, and the same rows for every user. */
  ghost predicate Shows(s: Sys, b: Books) {
    && s.t == b.t
    && (forall u :: Seen(s.ledger, Commits(s.txns), u) == At(b.rows, u))
    && (forall u :: Seen(s.history, Commits(s.txns), u) == At(b.done, u))
  }

  /** The books contain only rows of committed transactions. */
  ghost predicate Committed(rows: Accounts, c: set<nat>) {
    forall u, k | u in rows && 0 <= k < |rows[u]| :: rows[u][k].txn >= 0 && rows[u][k].txn in c
  }

  ghost predicate Related(s: Sys, b: Books) {
    && LockInv(s) && RowsPlaced(s) && UsersOk(b) && Shows(s, b) && Committed(b.rows, Commits(s.txns))
  }

  // ---------- one statement ----------

  lemma CommitsAfter(txns: seq<Txn>, i: nat, y: Txn)
    requires i < |txns| && txns[i].pc != Done
    ensures y.pc == Done ==> Commits(txns[i := y]) == Commits(txns) + {i}
    ensures y.pc != Done ==> Commits(txns[i := y]) == Commits(txns)
    ensures i !in Commits(txns)
  {
    var txns' := txns[i := y];
    forall k: nat
      ensures k in Commits(txns') <==> k in Commits(txns) || (y.pc == Done && k == i)
    {
      if k < |txns| && k != i { assert txns'[k] == txns[k]; }
    }
  }

  /** A transaction writing for `u` holds `u`'s balance row, or is creating `u`. */
  lemma WriterLocks(t: Tables, x: Txn, i: nat, u: UserId)
    requires TxnOk(t, x, i) && (OwnLedger(x, i, u) != [] || OwnHistory(x, i, u) != [])
    ensures (BalanceRow(u) in Holds(x) && u in t.balances) || (UserRow(u) in Holds(x) && u !in t.balances)
  {
  }

  lemma OneWriter(s: Sys, i: nat, j: nat, u: UserId)
    requires LockInv(s) && i < |s.txns| && j < |s.txns| && i != j
    ensures OwnLedger(s.txns[i], i, u) == [] || OwnLedger(s.txns[j], j, u) == []
    ensures OwnHistory(s.txns[i], i, u) == [] || OwnHistory(s.txns[j], j, u) == []
  {
    assert if i < j then Holds(s.txns[i]) !! Holds(s.txns[j]) else Holds(s.txns[j]) !! Holds(s.txns[i]);
    if OwnLedger(s.txns[i], i, u) != [] || OwnHistory(s.txns[i], i, u) != [] {
      WriterLocks(s.t, s.txns[i], i, u);
      if OwnLedger(s.txns[j], j, u) != [] || OwnHistory(s.txns[j], j, u) != [] {
        WriterLocks(s.t, s.txns[j], j, u);
      }
    }
  }

  /** What the statement adds to the transaction's own rows is what it inserts. */
  lemma OwnLedgerAfter(t: Tables, x: Txn, i: nat, now: Time, u: UserId)
    requires InFlight(x) && (x.pc == DebitIn ==> x.pay.payer != x.pay.payee)
    ensures var f := Statement(t, x, i, now);
            && (f.InsertLedger? ==> InFlight(f.next))
            && (InFlight(f.next) ==>
                  OwnLedger(f.next, i, u)
                  == OwnLedger(x, i, u) + (if f.InsertLedger? && f.entry.user == u then [f.entry] else []))
  {
  }

  lemma OwnHistoryAfter(t: Tables, x: Txn, i: nat, now: Time, u: UserId)
    requires InFlight(x) && (x.pc == SentIn ==> x.pay.payer != x.pay.payee)
    ensures var f := Statement(t, x, i, now);
            && (f.InsertHistory? ==> InFlight(f.next))
            && (InFlight(f.next) ==>
                  OwnHistory(f.next, i, u)
                  == OwnHistory(x, i, u) + (if f.InsertHistory? && f.account == Some(u) then [f.item] else []))
  {
  }

  /** What a commit makes visible is what the event writes in the books. */
  lemma OwnIsWritten(t: Tables, x: Txn, i: nat, now: Time, u: UserId)
    requires TxnOk(t, x, i) && i !in t.transfers && InFlight(x)
    requires Statement(t, x, i, now).Emit? && TablesAllow(t, Statement(t, x, i, now).event)
    ensures x.pc != Drawing ==>
              && OwnLedger(x, i, u) == Written(t, Statement(t, x, i, now).event, u)
              && OwnHistory(x, i, u) == Logged(t, Statement(t, x, i, now).event, u)
    ensures x.pc == Drawing ==> Statement(t, x, i, now).event.Drew?
  {
  }

  lemma LedgerPlacedStep(s: Sys, i: nat, now: Time, j: nat, u: UserId)
    requires LockInv(s) && LedgerPlaced(s) && Can(s, Step(i, now)) && j < |s.txns|
    requires InFlight(Next(s, Step(i, now)).txns[j])
    ensures var s' := Next(s, Step(i, now));
            Placed(s'.ledger, Commits(s'.txns), j, u, OwnLedger(s'.txns[j], j, u))
  {
    var x, c := s.txns[i], Commits(s.txns);
    var f := Statement(s.t, x, i, now);
    StepAllowed(s, i, now);
    CommitsAfter(s.txns, i, f.next);
    OwnLedgerAfter(s.t, x, i, now, u);
    assert InFlight(s.txns[j]);
    assert Placed(s.ledger, c, j, u, OwnLedger(s.txns[j], j, u));
    if j == i {
      if f.InsertLedger? {
        PlacedAppendOwn(s.ledger, Slot(i, Some(f.entry.user), f.entry), c, u, OwnLedger(x, i, u));
      }
    } else if f.next.pc == Done {
      OneWriter(s, i, j, u);
      PlacedCommit(s.ledger, c, i, j, u, OwnLedger(x, i, u), OwnLedger(s.txns[j], j, u));
    } else if f.InsertLedger? {
      PlacedAppendOther(s.ledger, Slot(i, Some(f.entry.user), f.entry), c, j, u, OwnLedger(s.txns[j], j, u));
    }
  }

  lemma HistoryPlacedStep(s: Sys, i: nat, now: Time, j: nat, u: UserId)
    requires LockInv(s) && HistoryPlaced(s) && Can(s, Step(i, now)) && j < |s.txns|
    requires InFlight(Next(s, Step(i, now)).txns[j])
    ensures var s' := Next(s, Step(i, now));
            Placed(s'.history, Commits(s'.txns), j, u, OwnHistory(s'.txns[j], j, u))
  {
    var x, c := s.txns[i], Commits(s.txns);
    var f := Statement(s.t, x, i, now);
    StepAllowed(s, i, now);
    CommitsAfter(s.txns, i, f.next);
    OwnHistoryAfter(s.t, x, i, now, u);
    assert InFlight(s.txns[j]);
    assert Placed(s.history, c, j, u, OwnHistory(s.txns[j], j, u));
    if j == i {
      if f.InsertHistory? {
        PlacedAppendOwn(s.history, Slot(i, f.account, f.item), c, u, OwnHistory(x, i, u));
      }
    } else if f.next.pc == Done {
      OneWriter(s, i, j, u);
      PlacedCommit(s.history, c, i, j, u, OwnHistory(x, i, u), OwnHistory(s.txns[j], j, u));
    } else if f.InsertHistory? {
      PlacedAppendOther(s.history, Slot(i, f.account, f.item), c, j, u, OwnHistory(s.txns[j], j, u));
    }
  }

  /** Only completed rows belong to a statement. */
  lemma InsertFiled(t: Tables, x: Txn, i: nat, now: Time)
    requires TxnOk(t, x, i) && Statement(t, x, i, now).InsertHistory?
    ensures var f := Statement(t, x, i, now);
            f.account == if f.item.status == Completed then Some(f.item.user) else None
  {
  }

  lemma PlacedStep(s: Sys, i: nat, now: Time)
    requires LockInv(s) && RowsPlaced(s) && Can(s, Step(i, now))
    ensures RowsPlaced(Next(s, Step(i, now)))
  {
    var s' := Next(s, Step(i, now));
    if Statement(s.t, s.txns[i], i, now).InsertHistory? { InsertFiled(s.t, s.txns[i], i, now); }
    forall j: nat, u: UserId | j < |s'.txns| && InFlight(s'.txns[j])
      ensures Placed(s'.ledger, Commits(s'.txns), j, u, OwnLedger(s'.txns[j], j, u))
      ensures Placed(s'.history, Commits(s'.txns), j, u, OwnHistory(s'.txns[j], j, u))
    {
      LedgerPlacedStep(s, i, now, j, u);
      HistoryPlacedStep(s, i, now, j, u);
    }
  }

  lemma PlacedOther(s: Sys, act: Act)
    requires RowsPlaced(s) && Can(s, act) && !act.Step?
    ensures RowsPlaced(Next(s, act)) && Commits(Next(s, act).txns) == Commits(s.txns)
  {
    var s' := Next(s, act);
    assert Commits(s'.txns) == Commits(s.txns);
    forall j: nat, u: UserId | j < |s'.txns| && InFlight(s'.txns[j])
      ensures Placed(s'.ledger, Commits(s'.txns), j, u, OwnLedger(s'.txns[j], j, u))
      ensures Placed(s'.history, Commits(s'.txns), j, u, OwnHistory(s'.txns[j], j, u))
    {
      if j == |s.txns| {
        PlacedNew(s.ledger, Commits(s.txns), j, u);
        PlacedNew(s.history, Commits(s.txns), j, u);
      } else {
        assert s'.txns[j] == s.txns[j];
      }
    }
  }

  // ---------- the simulation ----------

  lemma StepShows(s: Sys, b: Books, i: nat, now: Time)
    requires Related(s, b) && Can(s, Step(i, now))
    requires Statement(s.t, s.txns[i], i, now).Emit? && s.txns[i].pc != Drawing
    ensures var e := Statement(s.t, s.txns[i], i, now).event;
            TablesAllow(b.t, e) && Shows(Next(s, Step(i, now)), Apply(b, e))
  {
    var x := s.txns[i];
    var f := Statement(s.t, x, i, now);
    StepAllowed(s, i, now);
    NextOk(s.t, x, i, now);
    CommitsAfter(s.txns, i, f.next);
    forall u
      ensures Seen(s.ledger, Commits(s.txns) + {i}, u) == At(Apply(b, f.event).rows, u)
      ensures Seen(s.history, Commits(s.txns) + {i}, u) == At(Apply(b, f.event).done, u)
    {
      CommitShows(s, b, i, now, u);
    }
  }

  lemma CommitShows(s: Sys, b: Books, i: nat, now: Time, u: UserId)
    requires s.t == b.t && AllKept(b)
    requires i < |s.txns| && TxnOk(s.t, s.txns[i], i) && i !in s.t.transfers
    requires InFlight(s.txns[i]) && s.txns[i].pc != Drawing
    requires Statement(s.t, s.txns[i], i, now).Emit? && TablesAllow(s.t, Statement(s.t, s.txns[i], i, now).event)
    requires Placed(s.ledger, Commits(s.txns), i, u, OwnLedger(s.txns[i], i, u))
    requires Placed(s.history, Commits(s.txns), i, u, OwnHistory(s.txns[i], i, u))
    requires Seen(s.ledger, Commits(s.txns), u) == At(b.rows, u) && Seen(s.history, Commits(s.txns), u) == At(b.done, u)
    ensures var e := Statement(s.t, s.txns[i], i, now).event;
            && Seen(s.ledger, Commits(s.txns) + {i}, u) == At(Apply(b, e).rows, u)
            && Seen(s.history, Commits(s.txns) + {i}, u) == At(Apply(b, e).done, u)
  {
    OwnIsWritten(s.t, s.txns[i], i, now, u);
    AtAfter(b, Statement(s.t, s.txns[i], i, now).event, u);
  }

  lemma DrawShows(s: Sys, b: Books, i: nat, now: Time)
    requires Related(s, b) && Can(s, Step(i, now)) && s.txns[i].pc == Drawing
    ensures Statement(s.t, s.txns[i], i, now).Emit?
    ensures var e := Statement(s.t, s.txns[i], i, now).event;
            TablesAllow(b.t, e) && e.Drew? && Shows(Next(s, Step(i, now)), Apply(b, e))
            && Commits(Next(s, Step(i, now)).txns) == Commits(s.txns)
  {
    var f := Statement(s.t, s.txns[i], i, now);
    DrawOk(s.t, s.txns[i], i, now);
    CommitsAfter(s.txns, i, f.next);
    forall u
      ensures At(Apply(b, f.event).rows, u) == At(b.rows, u) && At(Apply(b, f.event).done, u) == At(b.done, u)
    {
      AtAfter(b, f.event, u);
    }
  }

  lemma HiddenAppend<T>(slots: seq<Slot<T>>, e: Slot<T>, c: set<nat>)
    requires e.writer !in c
    ensures forall u :: Seen(slots + [e], c, u) == Seen(slots, c, u)
  {
    forall u
      ensures Seen(slots + [e], c, u) == Seen(slots, c, u)
    {
      SeenAppend(slots, e, c, u);
    }
  }

  lemma QuietShows(s: Sys, b: Books, i: nat, now: Time)
    requires Shows(s, b) && Can(s, Step(i, now)) && !Statement(s.t, s.txns[i], i, now).Emit?
    requires Statement(s.t, s.txns[i], i, now).next.pc != Done
    ensures Shows(Next(s, Step(i, now)), b) && Commits(Next(s, Step(i, now)).txns) == Commits(s.txns)
  {
    var f := Statement(s.t, s.txns[i], i, now);
    CommitsAfter(s.txns, i, f.next);
    if f.InsertLedger? {
      HiddenAppend(s.ledger, Slot(i, Some(f.entry.user), f.entry), Commits(s.txns));
    } else if f.InsertHistory? {
      HiddenAppend(s.history, Slot(i, f.account, f.item), Commits(s.txns));
    }
  }

  lemma QuietNotDone(t: Tables, x: Txn, i: nat, now: Time)
    requires InFlight(x) && !Statement(t, x, i, now).Emit?
    ensures Statement(t, x, i, now).next.pc != Done
  {
  }

  lemma FreshFromCommitted(rows: Accounts, c: set<nat>, i: nat)
    requires Committed(rows, c) && i !in c
    ensures FreshTxn(rows, i)
  {
  }

  lemma CommittedGrows(b: Books, e: Event, c: set<nat>, c': set<nat>)
    requires AllKept(b) && TablesAllow(b.t, e)
    requires Committed(b.rows, c) && c <= c'
    requires forall u, k | 0 <= k < |Written(b.t, e, u)| ::
               Written(b.t, e, u)[k].txn >= 0 && Written(b.t, e, u)[k].txn in c'
    ensures Committed(Apply(b, e).rows, c')
  {
    var rows': Accounts := Apply(b, e).rows;
    forall u, k | u in rows' && 0 <= k < |rows'[u]|
      ensures rows'[u][k].txn >= 0 && rows'[u][k].txn in c'
    {
      AtAfter(b, e, u);
      if k < |At(b.rows, u)| {
        assert rows'[u][k] == b.rows[u][k];
      } else {
        assert rows'[u][k] == Written(b.t, e, u)[k - |At(b.rows, u)|];
      }
    }
  }

  lemma CommittedStep(s: Sys, b: Books, i: nat, now: Time)
    requires Related(s, b) && Can(s, Step(i, now)) && Statement(s.t, s.txns[i], i, now).Emit?
    ensures var e := Statement(s.t, s.txns[i], i, now).event;
            TablesAllow(b.t, e) && Enabled(b, e) && Committed(Apply(b, e).rows, Commits(Next(s, Step(i, now)).txns))
  {
    var f := Statement(s.t, s.txns[i], i, now);
    StepAllowed(s, i, now);
    CommitsAfter(s.txns, i, f.next);
    EventId(s.t, s.txns[i], i, now);
    FreshFromCommitted(b.rows, Commits(s.txns), i);
    CommittedGrows(b, f.event, Commits(s.txns), Commits(Next(s, Step(i, now)).txns));
  }

  /** The rows of a commit carry the transaction's own number. */
  lemma EventId(t: Tables, x: Txn, i: nat, now: Time)
    requires TxnOk(t, x, i) && InFlight(x)
    requires Statement(t, x, i, now).Emit? && TablesAllow(t, Statement(t, x, i, now).event)
    ensures var e := Statement(t, x, i, now).event;
            && (e.Paid? ==> e.pay.id == i && Statement(t, x, i, now).next.pc == Done)
            && (e.Registered? ==> e.txn == i && Statement(t, x, i, now).next.pc == Done)
            && forall u :: |Written(t, e, u)| <= 1
                 && (|Written(t, e, u)| == 1 ==> (e.Paid? || e.Registered?) && Written(t, e, u)[0].txn == i)
  {
  }

  /** One action of the machine is one event of the books, or none. */
  lemma ActSimulates(s: Sys, b: Books, act: Act)
    requires Related(s, b) && Can(s, act)
    ensures Emitted(s, act) == [] ==> Related(Next(s, act), b)
    ensures Emitted(s, act) != [] ==>
              && |Emitted(s, act)| == 1 && Enabled(b, Emitted(s, act)[0])
              && Related(Next(s, act), Apply(b, Emitted(s, act)[0]))
  {
    LockInvKept(s, act);
    if act.Step? {
      var i, now := act.i, act.now;
      PlacedStep(s, i, now);
      StepAllowed(s, i, now);
      var f := Statement(s.t, s.txns[i], i, now);
      if f.Emit? {
        CommittedStep(s, b, i, now);
        if s.txns[i].pc == Drawing { DrawShows(s, b, i, now); } else { StepShows(s, b, i, now); }
        UsersKept(b, f.event);
      } else {
        QuietNotDone(s.t, s.txns[i], i, now);
        QuietShows(s, b, i, now);
      }
    } else {
      PlacedOther(s, act);
    }
  }

  /** Every interleaving commits a valid run of the books, in commit order, and shows what that run leaves. */
  lemma {:induction false} Refinement(s: Sys, b: Books, acts: seq<Act>)
    requires Related(s, b) && CanRun(s, acts)
    ensures ValidRun(b, LogOf(s, acts)) && Related(Run(s, acts), Replay(b, LogOf(s, acts)))
    decreases |acts|
  {
    if acts != [] {
      ActSimulates(s, b, acts[0]);
      var next, first, rest := Next(s, acts[0]), Emitted(s, acts[0]), LogOf(Next(s, acts[0]), acts[1..]);
      if first == [] {
        assert LogOf(s, acts) == rest;
        Refinement(next, b, acts[1..]);
      } else {
        Refinement(next, Apply(b, first[0]), acts[1..]);
        assert LogOf(s, acts) == first + rest;
        assert (first + rest)[1..] == rest;
      }
    }
  }

  lemma BootRelated()
    ensures Related(Boot, NoBooks)
  {
    BootLocked();
  }

  /** From the empty system: the books of the log satisfy every invariant, and the system shows them. */
  lemma Interleavings(acts: seq<Act>)
    requires CanRun(Boot, acts)
    ensures ValidRun(NoBooks, LogOf(Boot, acts))
    ensures Inv(Replay(NoBooks, LogOf(Boot, acts)))
    ensures Related(Run(Boot, acts), Replay(NoBooks, LogOf(Boot, acts)))
  {
    BootRelated();
    Refinement(Boot, NoBooks, acts);
    InvInitially();
    InvAlways(NoBooks, LogOf(Boot, acts));
  }
}
