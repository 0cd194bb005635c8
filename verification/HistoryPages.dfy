/**
  History pages beside running transactions. A row takes its id when it is inserted and becomes visible when
  its writer commits, so a page query may find a row among rows an earlier page has shown. Among the completed
  rows of a user the balance locks rule that out; rejected and flagged rows are written without a lock.
*/
module HistoryPages {
  import opened Model
  import opened Books
  import opened Transactions
  import opened Locking
  import opened Simulation
  import opened Progress
  import opened Schedules
  import P = Paging

  // ---------- a user's rows are inserted by one writer after another ----------

  /** When two transactions have rows in one statement, the one with the earlier row has finished. */
  ghost predicate InOrder<T(!new)>(slots: seq<Slot<T>>, txns: seq<Txn>) {
    forall k, m | 0 <= k < m < |slots| && slots[k].account.Some? && slots[k].account == slots[m].account ::
      slots[k].writer == slots[m].writer || Finished(txns, slots[k].writer)
  }

  predicate Finished(txns: seq<Txn>, i: nat) {
    i < |txns| && !InFlight(txns[i])
  }

  lemma OnlyWriter(s: Sys, i: nat, j: nat, u: UserId)
    requires LockInv(s) && RowsPlaced(s) && i < |s.txns| && j < |s.txns| && i != j && InFlight(s.txns[j])
    ensures OwnLedger(s.txns[i], i, u) != [] ==> NoneFrom(s.ledger, j, u)
    ensures OwnHistory(s.txns[i], i, u) != [] ==> NoneFrom(s.history, j, u)
  {
    OneWriter(s, i, j, u);
    assert Placed(s.ledger, Commits(s.txns), j, u, OwnLedger(s.txns[j], j, u));
    assert Placed(s.history, Commits(s.txns), j, u, OwnHistory(s.txns[j], j, u));
  }

  lemma FinishedStays(s: Sys, act: Act, i: nat)
    requires Can(s, act) && Finished(s.txns, i)
    ensures Finished(Next(s, act).txns, i) && Next(s, act).txns[i] == s.txns[i]
  {
  }

  lemma OldRowsInOrder<T(!new)>(slots: seq<Slot<T>>, s: Sys, act: Act)
    requires Can(s, act) && InOrder(slots, s.txns)
    ensures InOrder(slots, Next(s, act).txns)
  {
    forall k, m | 0 <= k < m < |slots| && slots[k].account.Some? && slots[k].account == slots[m].account
      ensures slots[k].writer == slots[m].writer || Finished(Next(s, act).txns, slots[k].writer)
    {
      if slots[k].writer != slots[m].writer { FinishedStays(s, act, slots[k].writer); }
    }
  }

  ghost predicate NoOther<T>(slots: seq<Slot<T>>, txns: seq<Txn>, i: nat, u: UserId) {
    forall j: nat | j < |txns| && j != i && InFlight(txns[j]) :: NoneFrom(slots, j, u)
  }

  lemma LastInOrder<T(!new)>(slots: seq<Slot<T>>, e: Slot<T>, txns: seq<Txn>)
    requires InOrder(slots, txns) && Writers(slots, |txns|)
    requires e.account.Some? ==> NoOther(slots + [e], txns, e.writer, e.account.value)
    ensures InOrder(slots + [e], txns)
  {
    var more := slots + [e];
    forall k, m | 0 <= k < m < |more| && more[k].account.Some? && more[k].account == more[m].account
      ensures more[k].writer == more[m].writer || Finished(txns, more[k].writer)
    {
      if m == |slots| && more[k].writer != e.writer {
        assert more[k] == slots[k] && slots[k].writer < |txns|;
        assert InFlight(txns[more[k].writer]) ==> NoneFrom(more, more[k].writer, e.account.value);
      }
    }
  }

  /** After an insert nobody else in flight has rows in that statement. */
  lemma InsertsAlone(s: Sys, i: nat, now: Time)
    requires LockInv(s) && RowsPlaced(s) && Can(s, Step(i, now))
    ensures var f, s' := Statement(s.t, s.txns[i], i, now), Next(s, Step(i, now));
            && LockInv(s') && RowsPlaced(s')
            && (f.InsertLedger? ==> NoOther(s'.ledger, s'.txns, i, f.entry.user))
            && (f.InsertHistory? && f.account.Some? ==> NoOther(s'.history, s'.txns, i, f.account.value))
  {
    var f, s' := Statement(s.t, s.txns[i], i, now), Next(s, Step(i, now));
    LockInvKept(s, Step(i, now));
    PlacedStep(s, i, now);
    assert TxnOk(s.t, s.txns[i], i);
    if f.InsertLedger? {
      OwnLedgerAfter(s.t, s.txns[i], i, now, f.entry.user);
      forall j: nat | j < |s'.txns| && j != i && InFlight(s'.txns[j])
        ensures NoneFrom(s'.ledger, j, f.entry.user)
      {
        OnlyWriter(s', i, j, f.entry.user);
      }
    } else if f.InsertHistory? && f.account.Some? {
      OwnHistoryAfter(s.t, s.txns[i], i, now, f.account.value);
      forall j: nat | j < |s'.txns| && j != i && InFlight(s'.txns[j])
        ensures NoneFrom(s'.history, j, f.account.value)
      {
        OnlyWriter(s', i, j, f.account.value);
      }
    }
  }

  lemma InsertInOrder(s: Sys, i: nat, now: Time)
    requires LockInv(s) && RowsPlaced(s) && Can(s, Step(i, now))
    requires InOrder(s.ledger, s.txns) && InOrder(s.history, s.txns)
    ensures var s' := Next(s, Step(i, now)); InOrder(s'.ledger, s'.txns) && InOrder(s'.history, s'.txns)
  {
    var f, s' := Statement(s.t, s.txns[i], i, now), Next(s, Step(i, now));
    InsertsAlone(s, i, now);
    OldRowsInOrder(s.ledger, s, Step(i, now));
    OldRowsInOrder(s.history, s, Step(i, now));
    if f.InsertLedger? {
      LastInOrder(s.ledger, Slot(i, Some(f.entry.user), f.entry), s'.txns);
    } else if f.InsertHistory? {
      LastInOrder(s.history, Slot(i, f.account, f.item), s'.txns);
    }
  }

  ghost predicate OrderInv(s: Sys) {
    LockInv(s) && RowsPlaced(s) && InOrder(s.ledger, s.txns) && InOrder(s.history, s.txns)
  }

  lemma OrderKept(s: Sys, act: Act)
    requires OrderInv(s) && Can(s, act)
    ensures OrderInv(Next(s, act))
  {
    LockInvKept(s, act);
    if act.Step? {
      InsertInOrder(s, act.i, act.now);
      PlacedStep(s, act.i, act.now);
    } else {
      PlacedOther(s, act);
      OldRowsInOrder(s.ledger, s, act);
      OldRowsInOrder(s.history, s, act);
    }
  }

  lemma {:induction false} OrderAlways(s: Sys, acts: seq<Act>)
    requires OrderInv(s) && CanRun(s, acts)
    ensures OrderInv(Run(s, acts))
    decreases |acts|
  {
    if acts != [] {
      OrderKept(s, acts[0]);
      OrderAlways(Next(s, acts[0]), acts[1..]);
    }
  }

  /** In every reachable state the rows of one statement are in the order in which their writers finish. */
  lemma ReachableInOrder(s: Sys)
    requires Reachable(s)
    ensures OrderInv(s)
  {
    BootLocked();
    var acts :| CanRun(Boot, acts) && Run(Boot, acts) == s;
    OrderAlways(Boot, acts);
  }

  // ---------- what stays as the system runs on ----------

  ghost predicate Continues(a: Sys, b: Sys) {
    && a.history <= b.history && a.ledger <= b.ledger && |a.txns| <= |b.txns|
    && forall i: nat | Finished(a.txns, i) :: Finished(b.txns, i) && b.txns[i] == a.txns[i]
  }

  lemma ContinuesNext(s: Sys, act: Act)
    requires Can(s, act)
    ensures Continues(s, Next(s, act))
  {
    forall i: nat | Finished(s.txns, i)
      ensures Finished(Next(s, act).txns, i) && Next(s, act).txns[i] == s.txns[i]
    {
      FinishedStays(s, act, i);
    }
  }

  lemma {:induction false} RunContinues(s: Sys, acts: seq<Act>)
    requires CanRun(s, acts)
    ensures Continues(s, Run(s, acts))
    decreases |acts|
  {
    if acts != [] {
      ContinuesNext(s, acts[0]);
      RunContinues(Next(s, acts[0]), acts[1..]);
    }
  }

  lemma CommitsGrow(a: Sys, b: Sys)
    requires Continues(a, b)
    ensures Commits(a.txns) <= Commits(b.txns)
  {
    forall i | i in Commits(a.txns)
      ensures i in Commits(b.txns)
    {
      assert Finished(a.txns, i);
    }
  }

  lemma NotYetFinished(a: Sys, b: Sys, w: nat)
    requires Continues(a, b) && w < |a.txns| && w !in Commits(a.txns) && w in Commits(b.txns)
    ensures !Finished(a.txns, w)
  {
  }

  /** A completed row of a user that becomes visible later has a larger id than all that are visible now. */
  lemma CompletedRowsGrowUpwards(a: Sys, b: Sys, u: UserId, k: nat, m: nat)
    requires OrderInv(a) && Continues(a, b) && RowsPlaced(b)
    requires k < |a.history| && a.history[k].writer in Commits(a.txns) && a.history[k].account == Some(u)
    requires m < |b.history| && b.history[m].writer in Commits(b.txns) && b.history[m].account == Some(u)
    requires m >= |a.history| || b.history[m].writer !in Commits(a.txns)
    ensures k < m
  {
    if m < |a.history| {
      var w := a.history[m].writer;
      assert a.history[m] == b.history[m] && w < |a.txns|;
      NotYetFinished(a, b, w);
    }
  }

  // ---------- the pages ----------

  /** `SELECT ... FROM tx_history WHERE user_id = u AND ... ORDER BY id DESC`: the rows of `u` that pass the
      other filters and are visible when the transactions of `c` have committed. A row's id is its position. */
  function Listed(history: seq<Slot<HistoryRow>>, c: set<nat>, u: UserId, kept: HistoryRow -> bool)
    : seq<P.Row<HistoryRow>>
  {
    if history == [] then []
    else
      var n := |history| - 1;
      (if Shown(history, c, u, kept, n) then [P.Row(n, history[n].row)] else []) + Listed(history[..n], c, u, kept)
  }

  predicate Shown(history: seq<Slot<HistoryRow>>, c: set<nat>, u: UserId, kept: HistoryRow -> bool, k: nat) {
    k < |history| && history[k].writer in c && history[k].row.user == u && kept(history[k].row)
  }

  lemma {:induction false} InListed(
      history: seq<Slot<HistoryRow>>, c: set<nat>, u: UserId, kept: HistoryRow -> bool, x: P.Row<HistoryRow>)
    ensures x in Listed(history, c, u, kept)
            <==> 0 <= x.key && Shown(history, c, u, kept, x.key) && x.body == history[x.key].row
  {
    if history != [] {
      var n := |history| - 1;
      InListed(history[..n], c, u, kept, x);
    }
  }

  lemma {:induction false} ListedStrict(
      history: seq<Slot<HistoryRow>>, c: set<nat>, u: UserId, kept: HistoryRow -> bool)
    ensures P.StrictlyDescending(Listed(history, c, u, kept))
  {
    if history != [] {
      var n := |history| - 1;
      var rest := Listed(history[..n], c, u, kept);
      ListedStrict(history[..n], c, u, kept);
      forall x <- rest
        ensures x.key < n
      {
        InListed(history[..n], c, u, kept, x);
      }
    }
  }

  function PageList(s: Sys, u: UserId, kept: HistoryRow -> bool): seq<P.Row<HistoryRow>> {
    Listed(s.history, Commits(s.txns), u, kept)
  }

  /** A visible row stays visible. */
  lemma ListedStays(a: Sys, b: Sys, u: UserId, kept: HistoryRow -> bool, x: P.Row<HistoryRow>)
    requires Continues(a, b) && x in PageList(a, u, kept)
    ensures x in PageList(b, u, kept)
  {
    CommitsGrow(a, b);
    InListed(a.history, Commits(a.txns), u, kept, x);
    InListed(b.history, Commits(b.txns), u, kept, x);
  }

  // ---------- a walk beside running transactions ----------

  /** What one page query's state leaves to the next. */
  lemma LaterContinues(states: seq<Sys>, j: nat, k: nat)
    requires InTime(states) && j <= k < |states|
    ensures Continues(states[j], states[k])
  {
    InTimeLater(states, j, k);
    var acts :| CanRun(states[j], acts) && Run(states[j], acts) == states[k];
    RunContinues(states[j], acts);
  }

  function PageLists(states: seq<Sys>, u: UserId, kept: HistoryRow -> bool): seq<seq<P.Row<HistoryRow>>> {
    seq(|states|, k requires 0 <= k < |states| => PageList(states[k], u, kept))
  }

  lemma PageListsStrict(states: seq<Sys>, u: UserId, kept: HistoryRow -> bool)
    ensures P.AllStrict(PageLists(states, u, kept))
  {
    forall k | 0 <= k < |states|
      ensures P.StrictlyDescending(PageLists(states, u, kept)[k])
    {
      ListedStrict(states[k].history, Commits(states[k].txns), u, kept);
    }
  }

  /** Whatever the filter, a row first visible to the `j`-th page query is shown exactly when the walk still
      stood above it then and has left it behind since; and no row is shown twice. */
  lemma HistoryRowShownIff(
      states: seq<Sys>, u: UserId, kept: HistoryRow -> bool, size: nat, x: P.Row<HistoryRow>, j: nat)
    requires 1 <= size && InTime(states) && j < |states|
    requires x in PageList(states[j], u, kept) && (j > 0 ==> x !in PageList(states[j - 1], u, kept))
    ensures var lists := PageLists(states, u, kept);
            && (x in P.WalkOver(lists, None, size)
                <==> P.StillAhead(P.Stand(lists[..j], None, size), x.key)
                     && !P.StillAhead(P.Stand(lists, None, size), x.key))
            && P.StrictlyDescending(P.WalkOver(lists, None, size))
  {
    var lists := PageLists(states, u, kept);
    PageListsStrict(states, u, kept);
    forall k | 0 <= k < |lists|
      ensures x in lists[k] <==> j <= k
    {
      if j <= k {
        LaterContinues(states, j, k);
        ListedStays(states[j], states[k], u, kept, x);
      } else if x in lists[k] {
        LaterContinues(states, k, j - 1);
        ListedStays(states[k], states[j - 1], u, kept, x);
      }
    }
    P.LateRowShownIff(lists, None, size, x, j);
    P.ShownOnce(lists, None, size);
  }

  // ---------- completed rows ----------

  predicate IsCompleted(row: HistoryRow) { row.status == Completed }

  /** The completed rows of a user only gain newer ones. */
  lemma CompletedListExtends(a: Sys, b: Sys, u: UserId)
    requires Reachable(a) && Reachable(b) && Continues(a, b)
    ensures P.Extends(PageList(b, u, IsCompleted), PageList(a, u, IsCompleted))
  {
    var list, more := PageList(a, u, IsCompleted), PageList(b, u, IsCompleted);
    ReachableInOrder(a);
    ReachableInOrder(b);
    ListedStrict(a.history, Commits(a.txns), u, IsCompleted);
    ListedStrict(b.history, Commits(b.txns), u, IsCompleted);
    forall x <- list
      ensures x in more
    {
      ListedStays(a, b, u, IsCompleted, x);
    }
    forall x, y | x in more && x !in list && y in list
      ensures y.key < x.key
    {
      NewIsAbove(a, b, u, x, y);
    }
    P.ExtendsByRows(more, list);
  }

  lemma NewIsAbove(a: Sys, b: Sys, u: UserId, x: P.Row<HistoryRow>, y: P.Row<HistoryRow>)
    requires OrderInv(a) && RowsPlaced(b) && Continues(a, b)
    requires x in PageList(b, u, IsCompleted) && x !in PageList(a, u, IsCompleted) && y in PageList(a, u, IsCompleted)
    ensures y.key < x.key
  {
    InListed(a.history, Commits(a.txns), u, IsCompleted, x);
    InListed(b.history, Commits(b.txns), u, IsCompleted, x);
    InListed(a.history, Commits(a.txns), u, IsCompleted, y);
    CompletedRowsGrowUpwards(a, b, u, y.key, x.key);
  }

  /** A finished walk over a user's completed rows shows exactly the rows visible to its first query,
      whatever commits while it goes on. */
  lemma CompletedWalkExact(states: seq<Sys>, u: UserId, size: nat)
    requires 1 <= size && InTime(states)
    requires P.Stand(PageLists(states, u, IsCompleted), None, size) == P.Over
    ensures P.WalkOver(PageLists(states, u, IsCompleted), None, size) == PageList(states[0], u, IsCompleted)
  {
    var lists := PageLists(states, u, IsCompleted);
    PageListsStrict(states, u, IsCompleted);
    forall k | 0 <= k < |lists|
      ensures P.Extends(lists[k], lists[0])
    {
      InTimeReachable(states, k);
      LaterContinues(states, 0, k);
      CompletedListExtends(states[0], states[k], u);
    }
    P.IdWalkWhileGrowing(lists, size);
  }

  // ---------- a flagged row that is missed ----------

  predicate AnyRow(row: HistoryRow) { true }

  /** One draw of 5,000,000 paisa by user 1 whose transfer is then dropped. */
  lemma DrawAndDrop(s: Sys, key: Key) returns (s': Sys)
    requires By(Boot, s, 0) && Quiet(s) && s.t.keys == map[] && Outflow(s.t, 1, 0) <= 15_000_000
    ensures By(Boot, s', 0) && Quiet(s') && s'.history == s.history
    ensures |s'.txns| == |s.txns| + 1 && s'.txns[..|s.txns|] == s.txns
    ensures s'.t == s.t.(outflow := s.t.outflow[(1, 0) := Outflow(s.t, 1, 0) + 5_000_000])
  {
    QuietUnlocked(s);
    var ready := TransferReady(Boot, s, 5_000_000, key, 0);
    s' := Next(ready, Abort(|s.txns|));
    ByNext(Boot, ready, Abort(|s.txns|), 0);
    forall j: nat | j < |s.txns|
      ensures s'.txns[j] == s.txns[j]
    {
      assert ready.txns[..|s.txns|][j] == s.txns[j];
    }
  }

  /** Two users, and a day's counter of user 1 that is full. */
  lemma CounterFull() returns (s: Sys)
    ensures By(Boot, s, 0) && Quiet(s) && |s.txns| == 6 && s.txns[0].pc == Done && Outflow(s.t, 1, 0) == 20_000_000
    ensures s.t == TwoUsers.(outflow := s.t.outflow)
    ensures s.history == [Slot(0, Some(1), FundingHistory(1, 0, 0)), Slot(1, Some(2), FundingHistory(2, 1, 0))]
  {
    var two := TwoRegistered();
    s := DrawAndDrop(two, 0);
    s := DrawAndDrop(s, 0);
    s := DrawAndDrop(s, 0);
    s := DrawAndDrop(s, 0);
    assert s.txns[..5][..4][..3][..2] == two.txns;
  }

  /** A transfer of user 1 that was flagged and has yet to record it. */
  function FlaggedTxn(i: nat, key: Key): Txn {
    NewTxn(TransferOp(1, 2, 5_000_000, key, 0, 0), i, 0).(pc := Refusing, status := Flagged)
  }

  ghost predicate NoHolder(s: Sys, key: Key) {
    forall j | 0 <= j < |s.txns| :: KeyEntry(key) !in Holds(s.txns[j])
  }

  lemma FlaggedDrawn(s: Sys, key: Key) returns (s': Sys)
    requires By(Boot, s, 0) && Outflow(s.t, 1, 0) > 15_000_000 && key !in s.t.keys
    ensures By(Boot, s', 0) && s'.history == s.history && s'.txns == s.txns + [FlaggedTxn(|s.txns|, key)]
    ensures s'.t == s.t.(outflow := s.t.outflow[(1, 0) := Outflow(s.t, 1, 0) + 5_000_000])
  {
    var i, op := |s.txns|, TransferOp(1, 2, 5_000_000, key, 0, 0);
    var begun := Next(s, Begin(op, 0));
    ByNext(Boot, s, Begin(op, 0), 0);
    var drawing := Next(begun, Step(i, 0));
    ByNext(Boot, begun, Step(i, 0), 0);
    s' := Next(drawing, Step(i, 0));
    ByNext(Boot, drawing, Step(i, 0), 0);
  }

  lemma FlaggedFiled(s: Sys, i: nat, key: Key) returns (s': Sys)
    requires By(Boot, s, 0) && i < |s.txns| && s.txns[i] == FlaggedTxn(i, key) && NoHolder(s, key)
    requires key !in s.t.keys && 1 in s.t.balances && 2 in s.t.balances
    ensures By(Boot, s', 0) && s'.t == s.t && s'.txns == s.txns[i := FlaggedTxn(i, key).(pc := RefusalLogged)]
    ensures s'.history
            == s.history + [Slot(i, None, RefusedHistory(s.txns[i].pay, Flagged, s.t.balances[1].amount))]
  {
    var keyed := Next(s, Step(i, 0));
    ByNext(Boot, s, Step(i, 0), 0);
    s' := Next(keyed, Step(i, 0));
    ByNext(Boot, keyed, Step(i, 0), 0);
  }

  /** Room for one more flagged transfer of user 1 under `key`. */
  ghost predicate CanFlag(s: Sys, key: Key) {
    && By(Boot, s, 0) && Outflow(s.t, 1, 0) > 15_000_000 && s.t.balances.Keys == {1, 2}
    && key !in s.t.keys && NoHolder(s, key)
  }

  /** A flagged transfer of user 1 up to its commit. */
  lemma FlaggedInserted(s: Sys, key: Key) returns (s': Sys)
    requires CanFlag(s, key)
    ensures By(Boot, s', 0) && s'.txns == s.txns + [FlaggedTxn(|s.txns|, key).(pc := RefusalLogged)]
    ensures |s'.history| == |s.history| + 1 && s'.history[..|s.history|] == s.history
    ensures var slot := s'.history[|s.history|];
            slot.writer == |s.txns| && slot.row.user == 1 && slot.row.status == Flagged
    ensures forall k | k != key && CanFlag(s, k) :: CanFlag(s', k)
  {
    var drawn := FlaggedDrawn(s, key);
    s' := FlaggedFiled(drawn, |s.txns|, key);
    assert s'.history[..|s.history|] == s.history;
  }

  lemma FlaggedCommitted(s: Sys, i: nat, key: Key) returns (s': Sys)
    requires By(Boot, s, 0) && i < |s.txns| && s.txns[i] == FlaggedTxn(i, key).(pc := RefusalLogged)
    ensures By(Boot, s', 0) && Later(s, s') && s'.history == s.history
    ensures s'.txns == s.txns[i := s.txns[i].(pc := Done)]
    ensures forall k | k != key && CanFlag(s, k) :: CanFlag(s', k)
  {
    ByLater(Boot, s, 0);
    ReachableInOrder(s);
    StepAllowed(s, i, 0);
    s' := Next(s, Step(i, 0));
    ByNext(Boot, s, Step(i, 0), 0);
    LaterSelf(s);
    LaterNext(s, s, Step(i, 0));
  }

  lemma ListedStep(history: seq<Slot<HistoryRow>>, c: set<nat>, u: UserId, kept: HistoryRow -> bool, n: nat)
    requires n < |history|
    ensures Listed(history[..n + 1], c, u, kept)
            == (if Shown(history, c, u, kept, n) then [P.Row(n, history[n].row)] else [])
               + Listed(history[..n], c, u, kept)
  {
    assert history[..n + 1][..n] == history[..n];
  }

  /** The list of user 1 when the fourth of five rows has not been committed. */
  lemma ThreeOfFive(history: seq<Slot<HistoryRow>>, c: set<nat>)
    requires |history| == 5
    requires forall k: nat | k < 5 :: Shown(history, c, 1, AnyRow, k) <==> k in {0, 2, 4}
    ensures Listed(history, c, 1, AnyRow)
            == [P.Row(4, history[4].row), P.Row(2, history[2].row), P.Row(0, history[0].row)]
  {
    ListedStep(history, c, 1, AnyRow, 0);
    ListedStep(history, c, 1, AnyRow, 1);
    ListedStep(history, c, 1, AnyRow, 2);
    ListedStep(history, c, 1, AnyRow, 3);
    ListedStep(history, c, 1, AnyRow, 4);
    assert history[..5] == history;
    assert history[..0] == [];
  }

  lemma CanFlagNow() returns (s: Sys)
    ensures CanFlag(s, 7) && CanFlag(s, 8) && CanFlag(s, 9) && |s.txns| == 6 && s.txns[0].pc == Done
    ensures s.history == [Slot(0, Some(1), FundingHistory(1, 0, 0)), Slot(1, Some(2), FundingHistory(2, 1, 0))]
  {
    s := CounterFull();
    forall key
      ensures NoHolder(s, key)
    {
    }
    assert s.t.balances.Keys == {1, 2};
  }

  /** One flagged transfer of user 1 is recorded. */
  lemma OneFlagged() returns (s: Sys)
    ensures CanFlag(s, 8) && CanFlag(s, 9) && |s.txns| == 7 && |s.history| == 3
    ensures s.txns[0].pc == s.txns[6].pc == Done
    ensures s.history[0].writer == 0 && s.history[0].row.user == 1 && s.history[1].row.user == 2
    ensures s.history[2].writer == 6 && s.history[2].row.user == 1
  {
    var full := CanFlagNow();
    var one := FlaggedInserted(full, 7);
    assert one.history[..2] == full.history;
    s := FlaggedCommitted(one, 6, 7);
  }

  /** The next one is recorded but not committed. */
  lemma TwoFlagged() returns (s: Sys)
    ensures CanFlag(s, 9) && |s.txns| == 8 && |s.history| == 4
    ensures s.txns[0].pc == s.txns[6].pc == Done && s.txns[7] == FlaggedTxn(7, 8).(pc := RefusalLogged)
    ensures s.history[0].writer == 0 && s.history[0].row.user == 1 && s.history[1].row.user == 2
    ensures s.history[2].writer == 6 && s.history[2].row.user == 1
    ensures s.history[3].writer == 7 && s.history[3].row.user == 1 && s.history[3].row.status == Flagged
  {
    var one := OneFlagged();
    s := FlaggedInserted(one, 8);
    forall k: nat | k < 3
      ensures s.history[k] == one.history[k]
    {
      assert s.history[..3][k] == one.history[k];
    }
  }

  /** Three flagged transfers record their rows in turn, and the middle one commits last. */
  lemma MiddleCommitsLast() returns (first: Sys, second: Sys)
    ensures Reachable(first) && Later(first, second)
    ensures |first.history| == 5 && second.history == first.history
    ensures first.history[3].row.status == Flagged
    ensures forall k: nat | k < 5 :: Shown(first.history, Commits(first.txns), 1, AnyRow, k) <==> k in {0, 2, 4}
    ensures Shown(second.history, Commits(second.txns), 1, AnyRow, 3)
  {
    var two := TwoFlagged();
    var three := FlaggedInserted(two, 9);
    assert three.history[..4] == two.history;
    first := FlaggedCommitted(three, 8, 9);
    ByLater(Boot, first, 0);
    second := FlaggedCommitted(first, 7, 8);
    forall k: nat | k < 4
      ensures first.history[k] == two.history[k]
    {
      assert three.history[..4][k] == two.history[k];
    }
  }

  /** A flagged row becomes visible while a walk goes on and is never shown: its id lies between two rows
      that the first page has shown. */
  lemma FlaggedRowMissed() returns (states: seq<Sys>, x: P.Row<HistoryRow>)
    ensures |states| == 2 && Reachable(states[0]) && Later(states[0], states[1]) && InTime(states)
    ensures x.body.status == Flagged && x in PageList(states[1], 1, AnyRow)
    ensures var lists := PageLists(states, 1, AnyRow);
            P.Stand(lists[..1], None, 2).At? && x !in P.WalkOver(lists, None, 2)
  {
    var first, second := MiddleCommitsLast();
    states := [first, second];
    forall k: nat | 0 < k < |states|
      ensures Follows(states, k)
    {
      assert k == 1;
    }
    x := P.Row(3, first.history[3].row);
    InListed(first.history, Commits(first.txns), 1, AnyRow, x);
    InListed(second.history, Commits(second.txns), 1, AnyRow, x);
    ThreeOfFive(first.history, Commits(first.txns));
    var lists := PageLists(states, 1, AnyRow);
    assert lists[..1] == [PageList(first, 1, AnyRow)];
    HistoryRowShownIff(states, 1, AnyRow, 2, x, 1);
  }
}
