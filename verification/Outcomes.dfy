/** What holds of the running system itself, in every interleaving, by way of the books it shows. */
module Outcomes {
  import opened Model
  import opened Ledger
  import opened Books
  import opened Invariants
  import opened Transactions
  import opened Locking
  import opened Simulation
  import opened Reconcile
  import opened Schedules
  import opened Statements
  import G = Guarantees

  /** The books a reachable state shows. */
  ghost predicate Behind(s: Sys, b: Books) {
    Related(s, b) && Inv(b)
  }

  lemma BooksOf(s: Sys) returns (b: Books, log: seq<Event>)
    requires Reachable(s)
    ensures Behind(s, b) && ValidRun(NoBooks, log) && b == Replay(NoBooks, log)
  {
    var acts :| CanRun(Boot, acts) && Run(Boot, acts) == s;
    Interleavings(acts);
    log := LogOf(Boot, acts);
    b := Replay(NoBooks, log);
  }

  // ---------- the ledger table in id order ----------

  /** The committed rows in id order. */
  function Visible<T>(slots: seq<Slot<T>>, c: set<nat>): seq<T> {
    if slots == [] then []
    else
      var last := slots[|slots| - 1];
      if last.writer in c then Visible(slots[..|slots| - 1], c) + [last.row] else Visible(slots[..|slots| - 1], c)
  }

  lemma {:induction false} VisibleRowsOf(ledger: seq<Slot<LedgerRow>>, c: set<nat>, u: UserId)
    requires Labelled(ledger)
    ensures RowsOf(Visible(ledger, c), u) == Seen(ledger, c, u)
  {
    if ledger != [] {
      var front, last := ledger[..|ledger| - 1], ledger[|ledger| - 1];
      VisibleRowsOf(front, c, u);
      RowsOfAppend(Visible(front, c), last.row, u);
    }
  }

  function CommittedLedger(s: Sys): seq<LedgerRow> {
    Visible(s.ledger, Commits(s.txns))
  }

  lemma {:induction false} InRowsOf(ledger: seq<LedgerRow>, k: nat)
    requires k < |ledger|
    ensures RowsOf(ledger, ledger[k].user) != []
  {
    if k < |ledger| - 1 {
      assert ledger[..|ledger| - 1][k] == ledger[k];
      InRowsOf(ledger[..|ledger| - 1], k);
    }
  }

  // ---------- accounts ----------

  /** In every reachable state every user's committed ledger rows, in id order, form an exact chain from the
      funding credit to the current balance, one row per version step; balances are never negative and sum
      to the seed money. */
  lemma ExactAccounts(s: Sys)
    requires Reachable(s)
    ensures Covers(s.t.users, s.t.balances) && NoDuplicates(s.t.users)
    ensures Total(s.t.users, s.t.balances) == SEED_BALANCE_PAISA * |s.t.users|
    ensures forall u | u in s.t.balances ::
              var rows := RowsOf(CommittedLedger(s), u);
              && s.t.balances[u].amount >= 0
              && |rows| == s.t.balances[u].version + 1 >= 1
              && IsFunding(rows[0])
              && RunningIsPrefixSum(rows)
              && rows[|rows| - 1].running == s.t.balances[u].amount
  {
    var b, log := BooksOf(s);
    forall u | u in s.t.balances
      ensures RowsOf(CommittedLedger(s), u) == b.rows[u]
      ensures RunningIsPrefixSum(b.rows[u])
    {
      VisibleRowsOf(s.ledger, Commits(s.txns), u);
      ChainedIffPrefixSum(b.rows[u]);
    }
  }

  lemma CommittedRows(s: Sys, b: Books)
    requires Behind(s, b)
    ensures forall u :: RowsOf(CommittedLedger(s), u) == At(b.rows, u)
  {
    forall u
      ensures RowsOf(CommittedLedger(s), u) == At(b.rows, u)
    {
      VisibleRowsOf(s.ledger, Commits(s.txns), u);
    }
  }

  lemma AccountMatches(s: Sys, b: Books, u: UserId)
    requires Behind(s, b) && u in s.t.balances
    ensures AccountConsistent(RowsOf(CommittedLedger(s), u), s.t.balances[u].amount)
  {
    VisibleRowsOf(s.ledger, Commits(s.txns), u);
    var rows := b.rows[u];
    assert AccountOk(b.t.balances[u], rows);
    ChainedIffPrefixSum(rows);
    var last: nat := |rows| - 1;
    assert rows[last].running == PrefixSum(rows, last + 1);
  }

  lemma OwnersAreUsers(s: Sys, b: Books)
    requires Behind(s, b)
    ensures forall k | 0 <= k < |CommittedLedger(s)| :: CommittedLedger(s)[k].user in s.t.users
  {
    var ledger := CommittedLedger(s);
    forall k | 0 <= k < |ledger|
      ensures ledger[k].user in s.t.users
    {
      var u := ledger[k].user;
      InRowsOf(ledger, k);
      VisibleRowsOf(s.ledger, Commits(s.txns), u);
      assert Seen(s.ledger, Commits(s.txns), u) == At(b.rows, u);
      assert u in b.t.balances;
    }
  }

  /** The auditor, run on what any reachable state has committed, reports no error, reconciles every user
      and verifies every ledger row. */
  lemma AuditAlwaysClean(s: Sys)
    requires Reachable(s)
    ensures Covers(s.t.users, s.t.balances)
    ensures var report := Audit(s.t.users, s.t.balances, CommittedLedger(s));
            && report.errors == [] && report.usersReconciled == report.usersCount == |s.t.users|
            && report.total == report.expectedTotal && report.entriesVerified == |CommittedLedger(s)|
  {
    var b, log := BooksOf(s);
    var ledger := CommittedLedger(s);
    forall i | 0 <= i < |s.t.users|
      ensures AccountConsistent(RowsOf(ledger, s.t.users[i]), s.t.balances[s.t.users[i]].amount)
      ensures SumOk(Readings(s.t.users, s.t.balances, ledger)[i])
    {
      AccountMatches(s, b, s.t.users[i]);
    }
    AuditExact(s.t.users, s.t.balances, ledger);
    CountsWhenClean(Readings(s.t.users, s.t.balances, ledger), |s.t.users|);
    OwnersAreUsers(s, b);
    EntriesAreRows(s.t.users, s.t.balances, ledger);
  }

  // ---------- history ----------

  lemma {:induction false} VisibleCompletedOf(history: seq<Slot<HistoryRow>>, c: set<nat>, u: UserId)
    requires Filed(history)
    ensures CompletedOf(Visible(history, c), u) == Seen(history, c, u)
  {
    if history != [] {
      var front, last := history[..|history| - 1], history[|history| - 1];
      VisibleCompletedOf(front, c, u);
      CompletedOfAppend(Visible(front, c), last.row, u);
    }
  }

  function CommittedHistory(s: Sys): seq<HistoryRow> {
    Visible(s.history, Commits(s.txns))
  }

  /** The completed history rows of a user, in id order, mirror the user's ledger rows one for one, so the
      statement is a chain that ends at the balance. */
  lemma StatementMirrorsLedger(s: Sys, u: UserId)
    requires Reachable(s) && u in s.t.balances
    ensures var hs := CompletedOf(CommittedHistory(s), u);
            && Mirrors(hs, RowsOf(CommittedLedger(s), u)) && StatementChains(hs)
            && hs != [] && hs[|hs| - 1].balanceAfter == s.t.balances[u].amount
  {
    var b, log := BooksOf(s);
    HistoryShown(s, b, u);
    MirrorChains(b.t.balances[u], b.rows[u], b.done[u], u, SEED_BALANCE_PAISA * |b.t.users|);
  }

  lemma HistoryShown(s: Sys, b: Books, u: UserId)
    requires Behind(s, b) && u in s.t.balances
    ensures u in b.rows && RowsOf(CommittedLedger(s), u) == b.rows[u]
    ensures u in b.done && CompletedOf(CommittedHistory(s), u) == b.done[u]
  {
    VisibleRowsOf(s.ledger, Commits(s.txns), u);
    VisibleCompletedOf(s.history, Commits(s.txns), u);
  }

  lemma MirrorChains(balance: Balance, rows: seq<LedgerRow>, hs: seq<HistoryRow>, u: UserId, bound: int)
    requires AccountOk(balance, rows) && Mirrors(hs, rows)
    requires forall k | 0 <= k < |rows| :: RowInRange(u, rows[k], bound)
    ensures StatementChains(hs) && hs != [] && hs[|hs| - 1].balanceAfter == balance.amount
  {
    forall k: nat | k < |hs|
      ensures ChainsAt(hs, k)
    {
      assert MirrorRow(hs[k], rows[k]) && RowInRange(u, rows[k], bound);
      assert rows[k].running == Expected(rows, k);
      if k > 0 { assert MirrorRow(hs[k - 1], rows[k - 1]); }
    }
    assert MirrorRow(hs[|hs| - 1], rows[|rows| - 1]);
  }

  /** The lines of a statement against the ledger: line by line the amount, the direction, the balance, the other
      party and the reference of the user's ledger row. */
  ghost predicate LinesMirror(lines: seq<Line>, rows: seq<LedgerRow>, ks: seq<nat>) {
    && |lines| == |ks|
    && forall j | 0 <= j < |ks| ::
         && ks[j] < |rows|
         && lines[j].amount == rows[ks[j]].amount && lines[j].runningBalance == rows[ks[j]].running
         && (lines[j].flow == Sent <==> rows[ks[j]].direction == -1)
         && lines[j].counterparty == rows[ks[j]].counterparty && lines[j].reference == rows[ks[j]].reference
         && (lines[j].kind == HistoryFunding <==> rows[ks[j]].kind == Funding)
  }

  /** In every reachable state each line of a downloaded statement shows a ledger row of the user, the one at its
      position, with the timestamp the window was chosen by. */
  lemma StatementLinesMirror(s: Sys, u: UserId, createdAt: HistoryRow -> Time, from: Option<Time>, to: Option<Time>)
    requires Reachable(s) && u in s.t.balances
    ensures var hs := CompletedOf(CommittedHistory(s), u);
            var ks := Chosen(Times(hs, createdAt), from, to);
            && Ascending(ks, |hs|)
            && LinesMirror(LinesOf(hs, createdAt, ks), RowsOf(CommittedLedger(s), u), ks)
            && forall j | 0 <= j < |ks| ::
                 InWindow(LinesOf(hs, createdAt, ks)[j].createdAt, from, to)
                 && LinesOf(hs, createdAt, ks)[j].createdAt == createdAt(hs[ks[j]])
  {
    StatementMirrorsLedger(s, u);
    var hs := CompletedOf(CommittedHistory(s), u);
    var ks := Chosen(Times(hs, createdAt), from, to);
    ChosenExactly(Times(hs, createdAt), from, to);
    LinesShow(hs, RowsOf(CommittedLedger(s), u), createdAt, ks);
    forall j | 0 <= j < |ks|
      ensures InWindow(createdAt(hs[ks[j]]), from, to)
    {
      assert ks[j] in ks;
    }
  }

  lemma LinesShow(hs: seq<HistoryRow>, rows: seq<LedgerRow>, createdAt: HistoryRow -> Time, ks: seq<nat>)
    requires Mirrors(hs, rows) && Ascending(ks, |hs|)
    ensures LinesMirror(LinesOf(hs, createdAt, ks), rows, ks)
  {
    forall j | 0 <= j < |ks|
      ensures MirrorRow(hs[ks[j]], rows[ks[j]])
    {
    }
  }

  /** Each line's balance is the one before it plus what was received or minus what was sent. */
  predicate LineChains(lines: seq<Line>, k: nat)
    requires k < |lines|
  {
    lines[k].runningBalance == (if k == 0 then 0 else lines[k - 1].runningBalance)
                               + (if lines[k].flow == Sent then -lines[k].amount else lines[k].amount)
  }

  ghost predicate StatementLinesOk(lines: seq<Line>) {
    forall k: nat | k < |lines| :: LineChains(lines, k)
  }

  /** The undated statement has a line for every ledger row, its lines chain, and the last one shows the balance
      of the account. */
  lemma StatementLinesChain(s: Sys, u: UserId, createdAt: HistoryRow -> Time)
    requires Reachable(s) && u in s.t.balances
    ensures var hs := CompletedOf(CommittedHistory(s), u);
            var ks := Chosen(Times(hs, createdAt), None, None);
            && Ascending(ks, |hs|) && StatementLinesOk(LinesOf(hs, createdAt, ks))
            && |ks| == |RowsOf(CommittedLedger(s), u)| >= 1
            && LinesOf(hs, createdAt, ks)[|ks| - 1].runningBalance == s.t.balances[u].amount
  {
    StatementMirrorsLedger(s, u);
    var hs := CompletedOf(CommittedHistory(s), u);
    ChosenExactly(Times(hs, createdAt), None, None);
    AllChosen(Times(hs, createdAt));
    LinesOfAll(hs, createdAt, Chosen(Times(hs, createdAt), None, None));
  }

  lemma LinesOfAll(hs: seq<HistoryRow>, createdAt: HistoryRow -> Time, ks: seq<nat>)
    requires StatementChains(hs) && Ascending(ks, |hs|) && |ks| == |hs| && forall k: nat | k < |ks| :: ks[k] == k
    ensures StatementLinesOk(LinesOf(hs, createdAt, ks))
    ensures hs != [] ==> LinesOf(hs, createdAt, ks)[|ks| - 1].runningBalance == hs[|hs| - 1].balanceAfter
  {
    var lines := LinesOf(hs, createdAt, ks);
    forall k: nat | k < |lines|
      ensures LineChains(lines, k)
    {
      assert ChainsAt(hs, k) && lines[k] == LineOf(hs[k], createdAt(hs[k]));
      if k > 0 { assert lines[k - 1] == LineOf(hs[k - 1], createdAt(hs[k - 1])); }
    }
  }

  // ---------- idempotency ----------

  /** Whatever duplicates race, an idempotency key names at most one transfer across all three paths, and at
      most one committed ledger row in each direction. */
  lemma KeysUsedOnce(s: Sys, key: Key)
    requires Reachable(s)
    ensures forall i, j | i in s.t.transfers && j in s.t.transfers
              && s.t.transfers[i].key == key && s.t.transfers[j].key == key :: i == j
    ensures forall u, v, j, k |
              && 0 <= j < |RowsOf(CommittedLedger(s), u)| && 0 <= k < |RowsOf(CommittedLedger(s), v)|
              && RowsOf(CommittedLedger(s), u)[j].key == Some(key) && RowsOf(CommittedLedger(s), v)[k].key == Some(key)
              && RowsOf(CommittedLedger(s), u)[j].direction == RowsOf(CommittedLedger(s), v)[k].direction ::
              u == v && j == k
  {
    var b, log := BooksOf(s);
    G.OneEntryPerKey(b, key);
    CommittedRows(s, b);
  }

  /** Accepted requests correspond one to one with `request_paid` double entries on their own terms, and
      claimed links with `link_paid` double entries. */
  lemma DocumentsSettle(s: Sys) returns (b: Books, settlements: map<RequestId, TxnId>)
    requires Reachable(s)
    ensures Behind(s, b)
    ensures G.Settled(b, settlements)
    ensures G.OneToOne(b, G.LinkTransfers(b.t.links), LinkPaid)
  {
    var log;
    b, log := BooksOf(s);
    settlements := G.Settle(map[], log);
    InvInitially();
    G.RequestsSettle(NoBooks, log, map[]);
    G.LinksSettle(NoBooks, log);
  }

  // ---------- what stays, and what fits ----------

  lemma {:induction false} RowsGrowByLog(b: Books, log: seq<Event>, u: UserId)
    requires UsersOk(b) && ValidRun(b, log)
    ensures At(b.rows, u) <= At(Replay(b, log).rows, u) && At(b.done, u) <= At(Replay(b, log).done, u)
    decreases |log|
  {
    if log != [] {
      UsersKept(b, log[0]);
      AtAfter(b, log[0], u);
      RowsGrowByLog(Apply(b, log[0]), log[1..], u);
    }
  }

  /** Whatever commits next, a user's ledger and statement are only extended at the end. */
  lemma StatementGrows(s: Sys, acts: seq<Act>, u: UserId)
    requires Reachable(s) && CanRun(s, acts)
    ensures CompletedOf(CommittedHistory(s), u) <= CompletedOf(CommittedHistory(Run(s, acts)), u)
    ensures RowsOf(CommittedLedger(s), u) <= RowsOf(CommittedLedger(Run(s, acts)), u)
  {
    var b, log := BooksOf(s);
    var s' := Run(s, acts);
    Refinement(s, b, acts);
    RowsGrowByLog(b, LogOf(s, acts), u);
    VisibleRowsOf(s.ledger, Commits(s.txns), u);
    VisibleRowsOf(s'.ledger, Commits(s'.txns), u);
    VisibleCompletedOf(s.history, Commits(s.txns), u);
    VisibleCompletedOf(s'.history, Commits(s'.txns), u);
  }

  /** In every interleaving a request that is not pending keeps its row for ever, and its terms never change. */
  lemma RequestStaysSettled(s: Sys, acts: seq<Act>, r: RequestId)
    requires Reachable(s) && CanRun(s, acts) && r in s.t.requests
    ensures r in Run(s, acts).t.requests
    ensures s.t.requests[r].status != Pending ==> Run(s, acts).t.requests[r] == s.t.requests[r]
    ensures Run(s, acts).t.requests[r].(status := Pending) == s.t.requests[r].(status := Pending)
  {
    var b, log := BooksOf(s);
    Refinement(s, b, acts);
    G.RequestStatusFinal(b, LogOf(s, acts), r);
  }

  /** With fewer than 2^63 / 10^7 users, the debit and the credit that a payment computes from the balances
      it has locked are in the range of 64 bits, whatever runs beside it. */
  lemma UpdatesFit(s: Sys, i: nat)
    requires Reachable(s) && SEED_BALANCE_PAISA * |s.t.users| <= I64_MAX && i < |s.txns|
    requires s.txns[i].pc in {TwoLocks, KeyHeld, DebitIn, CreditIn, SentIn, ReceivedIn}
    ensures var x := s.txns[i];
            && 0 <= PayerBalance(x) - x.pay.amount <= I64_MAX
            && 0 <= PayeeBalance(x) + x.pay.amount <= I64_MAX
  {
    var b, log := BooksOf(s);
    G.BalancesFit(s.t);
    LockedReads(s.t, s.txns[i], i);
  }

  /** From the last lock to the commit, the balances read are those in the table. */
  lemma LockedReads(t: Tables, x: Txn, i: nat)
    requires TxnOk(t, x, i) && x.pc in {TwoLocks, KeyHeld, DebitIn, CreditIn, SentIn, ReceivedIn}
    ensures x.pay.payer != x.pay.payee && 0 < x.pay.amount <= PayerBalance(x)
    ensures x.pay.payer in t.balances && t.balances[x.pay.payer].amount == PayerBalance(x)
    ensures x.pay.payee in t.balances && t.balances[x.pay.payee].amount == PayeeBalance(x)
  {
  }

  /** And so is everything the auditor adds up on the committed tables. */
  lemma AuditFits(s: Sys, u: UserId, k: nat)
    requires Reachable(s) && SEED_BALANCE_PAISA * |s.t.users| <= I64_MAX
    requires u in s.t.balances && k < |RowsOf(CommittedLedger(s), u)|
    ensures 0 <= Total(s.t.users, s.t.balances) <= I64_MAX
    ensures var rows := RowsOf(CommittedLedger(s), u);
            && -I64_MAX <= rows[k].Delta() <= I64_MAX
            && 0 <= Expected(rows, k) <= I64_MAX && 0 <= PrefixSum(rows, k + 1) <= I64_MAX
  {
    var b, log := BooksOf(s);
    VisibleRowsOf(s.ledger, Commits(s.txns), u);
    assert RowsOf(CommittedLedger(s), u) == b.rows[u];
    G.NoOverflow(b);
  }

  /** In every reachable state a committed payment row has exactly one partner, equal and opposite, for its
      counterparty, and no third committed row carries its transaction. */
  lemma CommittedDoubleEntry(s: Sys, u: UserId, k: nat) returns (v: UserId, j: nat)
    requires Reachable(s) && k < |RowsOf(CommittedLedger(s), u)| && RowsOf(CommittedLedger(s), u)[k].kind != Funding
    ensures v != u && j < |RowsOf(CommittedLedger(s), v)|
    ensures var row, other := RowsOf(CommittedLedger(s), u)[k], RowsOf(CommittedLedger(s), v)[j];
            && row.counterparty == Some(v) && other.counterparty == Some(u)
            && other.txn == row.txn && other.Delta() == -row.Delta()
            && forall w, i | 0 <= i < |RowsOf(CommittedLedger(s), w)|
                 && RowsOf(CommittedLedger(s), w)[i].txn == row.txn :: (w == u && i == k) || (w == v && i == j)
  {
    var b, log := BooksOf(s);
    CommittedRows(s, b);
    v, j := G.DoubleEntry(b, u, k);
    PartnerShown(b.rows, CommittedLedger(s), u, k, v, j);
  }

  lemma PartnerShown(rows: Accounts, ledger: seq<LedgerRow>, u: UserId, k: nat, v: UserId, j: nat)
    requires forall w :: RowsOf(ledger, w) == At(rows, w)
    requires u in rows && k < |rows[u]| && v in rows && j < |rows[v]|
    requires forall w, i | w in rows && 0 <= i < |rows[w]| && rows[w][i].txn == rows[u][k].txn ::
               (w == u && i == k) || (w == v && i == j)
    ensures RowsOf(ledger, u) == rows[u] && RowsOf(ledger, v) == rows[v]
    ensures forall w, i | 0 <= i < |RowsOf(ledger, w)| && RowsOf(ledger, w)[i].txn == rows[u][k].txn ::
              (w == u && i == k) || (w == v && i == j)
  {
    forall w, i | 0 <= i < |RowsOf(ledger, w)| && RowsOf(ledger, w)[i].txn == rows[u][k].txn
      ensures (w == u && i == k) || (w == v && i == j)
    {
      assert RowsOf(ledger, w) == At(rows, w);
    }
  }
}
