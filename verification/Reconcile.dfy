/**
  The reconciliation auditor: what `run_reconciliation` reports, that it reports an error exactly when a
  contract is broken, and how many errors one corrupted row produces.
*/
module Reconcile {
  import opened Model
  import opened Ledger

  datatype AuditError =
    | TotalMismatch(expectedTotal: int, foundTotal: int)
    | InitialBreak(user: UserId, position: nat, found: int, delta: int)
    | ChainBreak(user: UserId, position: nat, expected: int, found: int)
    | SumMismatch(user: UserId, computed: int, balance: int)

  datatype Report = Report(
    usersCount: int, total: int, expectedTotal: int, usersReconciled: int, entriesVerified: int,
    errors: seq<AuditError>)

  /** `SELECT ... FROM ledger WHERE user_id = u ORDER BY id ASC`. */
  function RowsOf(ledger: seq<LedgerRow>, u: UserId): seq<LedgerRow> {
    if ledger == [] then []
    else
      var last := ledger[|ledger| - 1];
      RowsOf(ledger[..|ledger| - 1], u) + (if last.user == u then [last] else [])
  }

  lemma RowsOfAppend(ledger: seq<LedgerRow>, row: LedgerRow, u: UserId)
    ensures RowsOf(ledger + [row], u) == RowsOf(ledger, u) + (if row.user == u then [row] else [])
  {
    assert (ledger + [row])[..|ledger|] == ledger;
  }

  lemma {:induction false} RowsOfIn(ledger: seq<LedgerRow>, u: UserId, k: nat)
    requires k < |RowsOf(ledger, u)|
    ensures RowsOf(ledger, u)[k] in ledger
  {
    var front := ledger[..|ledger| - 1];
    if k < |RowsOf(front, u)| {
      RowsOfIn(front, u, k);
      assert RowsOf(ledger, u)[k] == RowsOf(front, u)[k];
    }
  }

  // ---------- the report, as a function of the store ----------

  /** The error for the row at `k`, if it does not follow from the row before it. */
  function RowErrors(u: UserId, rows: seq<LedgerRow>, k: nat): seq<AuditError>
    requires k < |rows|
  {
    if rows[k].running == Expected(rows, k) then []
    else if k == 0 then [InitialBreak(u, 0, rows[0].running, rows[0].Delta())]
    else [ChainBreak(u, k, Expected(rows, k), rows[k].running)]
  }

  function ChainErrors(u: UserId, rows: seq<LedgerRow>, n: nat): seq<AuditError>
    requires n <= |rows|
  {
    if n == 0 then [] else ChainErrors(u, rows, n - 1) + RowErrors(u, rows, n - 1)
  }

  function SumErrors(u: UserId, rows: seq<LedgerRow>, balance: int): seq<AuditError> {
    var sum := PrefixSum(rows, |rows|);
    if sum != balance then [SumMismatch(u, sum, balance)] else []
  }

  function UserErrors(u: UserId, rows: seq<LedgerRow>, balance: int): seq<AuditError> {
    ChainErrors(u, rows, |rows|) + SumErrors(u, rows, balance)
  }

  function TotalErrors(userCount: int, total: int): seq<AuditError> {
    var expected := userCount * SEED_BALANCE_PAISA;
    if total != expected then [TotalMismatch(expected, total)] else []
  }

  /** What the auditor reads about one user. */
  datatype Reading = Reading(user: UserId, balance: int, rows: seq<LedgerRow>)

  predicate SumOk(r: Reading) {
    PrefixSum(r.rows, |r.rows|) == r.balance
  }

  /** The errors of each user, in the order the users are read. */
  function PerUser(readings: seq<Reading>): seq<seq<AuditError>> {
    seq(|readings|, i requires 0 <= i < |readings| =>
      UserErrors(readings[i].user, readings[i].rows, readings[i].balance))
  }

  function Joined<T>(parts: seq<seq<T>>, n: nat): seq<T>
    requires n <= |parts|
  {
    if n == 0 then [] else Joined(parts, n - 1) + parts[n - 1]
  }

  function CountReconciled(readings: seq<Reading>, n: nat): int
    requires n <= |readings|
  {
    if n == 0 then 0 else CountReconciled(readings, n - 1) + (if SumOk(readings[n - 1]) then 1 else 0)
  }

  function CountEntries(readings: seq<Reading>, n: nat): int
    requires n <= |readings|
  {
    if n == 0 then 0 else CountEntries(readings, n - 1) + |readings[n - 1].rows|
  }

  /** The errors reported before the user at `n` is checked. */
  function ErrorsBefore(userCount: int, total: int, readings: seq<Reading>, n: nat): seq<AuditError>
    requires n <= |readings|
  {
    TotalErrors(userCount, total) + Joined(PerUser(readings), n)
  }

  function ReportOf(userCount: int, total: int, readings: seq<Reading>): Report {
    Report(userCount, total, userCount * SEED_BALANCE_PAISA,
           CountReconciled(readings, |readings|),
           CountEntries(readings, |readings|),
           ErrorsBefore(userCount, total, readings, |readings|))
  }

  function Readings(users: seq<UserId>, balances: map<UserId, Balance>, ledger: seq<LedgerRow>): seq<Reading>
    requires Covers(users, balances)
  {
    seq(|users|, i requires 0 <= i < |users| =>
      Reading(users[i], balances[users[i]].amount, RowsOf(ledger, users[i])))
  }

  /** The report on one store that does not change while it is read. */
  function Audit(users: seq<UserId>, balances: map<UserId, Balance>, ledger: seq<LedgerRow>): Report
    requires Covers(users, balances)
  {
    ReportOf(|users|, Total(users, balances), Readings(users, balances, ledger))
  }

  // ---------- the auditor's queries ----------

  /** The tables as one query finds them. */
  datatype View = View(users: seq<UserId>, balances: map<UserId, Balance>, ledger: seq<LedgerRow>)

  /** A view for each query: the user count, the balance total, the list of users, and for each listed user
      the balance and then the ledger rows. */
  predicate OneEach(views: seq<View>) {
    |views| >= 3 && |views| == 3 + 2 * |views[2].users|
  }

  predicate BalancesFound(views: seq<View>)
    requires OneEach(views)
  {
    forall i | 0 <= i < |views[2].users| :: views[2].users[i] in views[3 + 2 * i].balances
  }

  function ReadingAt(views: seq<View>, i: nat): Reading
    requires OneEach(views) && i < |views[2].users|
  {
    var u, b := views[2].users[i], views[3 + 2 * i].balances;
    Reading(u, if u in b then b[u].amount else 0, RowsOf(views[4 + 2 * i].ledger, u))
  }

  function Taken(views: seq<View>): seq<Reading>
    requires OneEach(views)
  {
    seq(|views[2].users|, i requires 0 <= i < |views[2].users| => ReadingAt(views, i))
  }

  function Observed(views: seq<View>): Report
    requires OneEach(views)
  {
    ReportOf(|views[0].users|, Total(views[1].users, views[1].balances), Taken(views))
  }

  /** When every query finds the same tables, the report is `Audit` of those tables. */
  lemma ObservedStill(views: seq<View>)
    requires OneEach(views) && forall k | 0 <= k < |views| :: views[k] == views[0]
    ensures BalancesFound(views) <==> Covers(views[0].users, views[0].balances)
    ensures BalancesFound(views) ==> Observed(views) == Audit(views[0].users, views[0].balances, views[0].ledger)
  {
    var v := views[0];
    assert views[1] == v && views[2] == v;
    forall i | 0 <= i < |v.users|
      ensures views[3 + 2 * i] == v && views[4 + 2 * i] == v
    {
    }
    if BalancesFound(views) {
      forall i | 0 <= i < |v.users|
        ensures v.users[i] in v.balances
      {
        assert views[2].users[i] in views[3 + 2 * i].balances;
      }
      assert Taken(views) == Readings(v.users, v.balances, v.ledger);
    }
  }

  // ---------- the auditor's loops ----------

  /** The inner loop over one user's rows. */
  method CheckUser(u: UserId, rows: seq<LedgerRow>) returns (computedSum: int, entries: int, errors: seq<AuditError>)
    ensures computedSum == PrefixSum(rows, |rows|) && entries == |rows| && errors == ChainErrors(u, rows, |rows|)
  {
    computedSum, entries, errors := 0, 0, [];
    var previousRunning: Option<int> := None;
    for k := 0 to |rows|
      invariant computedSum == PrefixSum(rows, k) && entries == k && errors == ChainErrors(u, rows, k)
      invariant previousRunning == if k == 0 then None else Some(rows[k - 1].running)
    {
      entries := entries + 1;
      var delta := rows[k].amount * rows[k].direction;
      computedSum := computedSum + delta;
      match previousRunning {
        case Some(prev) =>
          if rows[k].running != prev + delta {
            errors := errors + [ChainBreak(u, k, prev + delta, rows[k].running)];
          }
        case None =>
          if rows[k].running != delta {
            errors := errors + [InitialBreak(u, k, rows[k].running, delta)];
          }
      }
      previousRunning := Some(rows[k].running);
    }
  }

  /** The tests on one user: the chain, and then the sum against the balance. */
  method AuditUser(r: Reading) returns (entries: int, reconciled: bool, errors: seq<AuditError>)
    ensures entries == |r.rows| && reconciled == SumOk(r) && errors == UserErrors(r.user, r.rows, r.balance)
  {
    var computedSum;
    computedSum, entries, errors := CheckUser(r.user, r.rows);
    reconciled := computedSum == r.balance;
    if computedSum != r.balance {
      errors := errors + [SumMismatch(r.user, computedSum, r.balance)];
    } else {
      assert errors + [] == errors;
    }
  }

  lemma ErrorsOfOneMore(userCount: int, total: int, readings: seq<Reading>, n: nat)
    requires n < |readings|
    ensures var r := readings[n];
            ErrorsBefore(userCount, total, readings, n + 1)
            == ErrorsBefore(userCount, total, readings, n) + UserErrors(r.user, r.rows, r.balance)
  {
  }

  /** `run_reconciliation`; a listed user without a balance row makes a query fail. */
  method RunReconciliation(views: seq<View>) returns (result: Option<Report>)
    requires OneEach(views)
    ensures result == if BalancesFound(views) then Some(Observed(views)) else None
  {
    var userCount := |views[0].users|;
    var total := Total(views[1].users, views[1].balances);
    var errors := TotalErrors(userCount, total);
    ghost var readings := Taken(views);
    assert errors == ErrorsBefore(userCount, total, readings, 0);
    var users := views[2].users;
    var reconciled, entries := 0, 0;
    for n := 0 to |users|
      invariant forall i | 0 <= i < n :: users[i] in views[3 + 2 * i].balances
      invariant errors == ErrorsBefore(userCount, total, readings, n)
      invariant reconciled == CountReconciled(readings, n)
      invariant entries == CountEntries(readings, n)
    {
      if users[n] !in views[3 + 2 * n].balances {
        return None;
      }
      var r := ReadingAt(views, n);
      assert r == readings[n];
      var count, ok, found := AuditUser(r);
      ErrorsOfOneMore(userCount, total, readings, n);
      entries := entries + count;
      errors := errors + found;
      if ok {
        reconciled := reconciled + 1;
      }
    }
    result := Some(Report(userCount, total, userCount * SEED_BALANCE_PAISA, reconciled, entries, errors));
  }

  // ---------- exactness ----------

  lemma {:induction false} ChainErrorsExact(u: UserId, rows: seq<LedgerRow>, n: nat)
    requires n <= |rows|
    ensures ChainErrors(u, rows, n) == [] <==> forall k: nat | k < n :: rows[k].running == Expected(rows, k)
  {
    if n > 0 {
      ChainErrorsExact(u, rows, n - 1);
    }
  }

  /** The contracts: every running balance is its prefix sum, and the ledger sums to the balance. */
  ghost predicate AccountConsistent(rows: seq<LedgerRow>, balance: int) {
    RunningIsPrefixSum(rows) && PrefixSum(rows, |rows|) == balance
  }

  lemma UserErrorsExact(u: UserId, rows: seq<LedgerRow>, balance: int)
    ensures UserErrors(u, rows, balance) == [] <==> AccountConsistent(rows, balance)
  {
    ChainErrorsExact(u, rows, |rows|);
    ChainedIffPrefixSum(rows);
  }

  lemma BothEmpty<T>(a: seq<T>, b: seq<T>)
    ensures a + b == [] <==> a == [] && b == []
    ensures a == [] ==> a + b == b
    ensures b == [] ==> a + b == a
  {
    assert a == [] ==> a + b == b;
    assert |a + b| == |a| + |b|;
  }

  lemma {:induction false} JoinedEmpty<T>(parts: seq<seq<T>>, n: nat)
    requires n <= |parts|
    ensures Joined(parts, n) == [] <==> forall i | 0 <= i < n :: parts[i] == []
  {
    if n > 0 {
      JoinedEmpty(parts, n - 1);
      BothEmpty(Joined(parts, n - 1), parts[n - 1]);
    }
  }

  lemma {:induction false} JoinedOne<T>(parts: seq<seq<T>>, k: nat, n: nat)
    requires n <= |parts| && k < |parts|
    requires forall i | 0 <= i < |parts| && i != k :: parts[i] == []
    ensures Joined(parts, n) == if k < n then parts[k] else []
  {
    if n > 0 {
      JoinedOne(parts, k, n - 1);
      BothEmpty(Joined(parts, n - 1), parts[n - 1]);
    }
  }

  ghost predicate StoreConsistent(users: seq<UserId>, balances: map<UserId, Balance>, ledger: seq<LedgerRow>) {
    && Covers(users, balances)
    && Total(users, balances) == |users| * SEED_BALANCE_PAISA
    && forall i | 0 <= i < |users| :: AccountConsistent(RowsOf(ledger, users[i]), balances[users[i]].amount)
  }

  /** The auditor reports no error exactly when all three contracts hold. */
  lemma AuditExact(users: seq<UserId>, balances: map<UserId, Balance>, ledger: seq<LedgerRow>)
    requires Covers(users, balances)
    ensures Audit(users, balances, ledger).errors == [] <==> StoreConsistent(users, balances, ledger)
  {
    var parts := PerUser(Readings(users, balances, ledger));
    JoinedEmpty(parts, |users|);
    BothEmpty(TotalErrors(|users|, Total(users, balances)), Joined(parts, |users|));
    forall i | 0 <= i < |users|
      ensures parts[i] == [] <==> AccountConsistent(RowsOf(ledger, users[i]), balances[users[i]].amount)
    {
      UserErrorsExact(users[i], RowsOf(ledger, users[i]), balances[users[i]].amount);
    }
  }

  // ---------- the counters ----------

  lemma {:induction false} CountsWhenClean(readings: seq<Reading>, n: nat)
    requires n <= |readings| && forall i | 0 <= i < n :: SumOk(readings[i])
    ensures CountReconciled(readings, n) == n
  {
    if n > 0 {
      CountsWhenClean(readings, n - 1);
    }
  }

  lemma {:induction false} EntriesWithout(
      users: seq<UserId>, balances: map<UserId, Balance>, ledger: seq<LedgerRow>, n: nat)
    requires n <= |users| && NoDuplicates(users) && Covers(users, balances) && ledger != []
    ensures var last := ledger[|ledger| - 1].user;
            CountEntries(Readings(users, balances, ledger), n)
            == CountEntries(Readings(users, balances, ledger[..|ledger| - 1]), n)
               + (if last in users[..n] then 1 else 0)
  {
    if n > 0 {
      EntriesWithout(users, balances, ledger, n - 1);
      assert users[..n] == users[..n - 1] + [users[n - 1]];
    }
  }

  /** Every ledger row is verified once when all owners are users. */
  lemma {:induction false} EntriesAreRows(users: seq<UserId>, balances: map<UserId, Balance>, ledger: seq<LedgerRow>)
    requires NoDuplicates(users) && Covers(users, balances) && forall i | 0 <= i < |ledger| :: ledger[i].user in users
    ensures CountEntries(Readings(users, balances, ledger), |users|) == |ledger|
  {
    if ledger == [] {
      NoEntries(users, balances, |users|);
    } else {
      EntriesWithout(users, balances, ledger, |users|);
      assert users[..|users|] == users;
      EntriesAreRows(users, balances, ledger[..|ledger| - 1]);
    }
  }

  lemma {:induction false} NoEntries(users: seq<UserId>, balances: map<UserId, Balance>, n: nat)
    requires n <= |users| && Covers(users, balances)
    ensures CountEntries(Readings(users, balances, []), n) == 0
  {
    if n > 0 { NoEntries(users, balances, n - 1); }
  }

  // ---------- one corrupted row ----------

  /** The position of ledger row `i` in its owner's statement. */
  function Position(ledger: seq<LedgerRow>, i: nat): nat
    requires i < |ledger|
  {
    |RowsOf(ledger[..i], ledger[i].user)|
  }

  lemma {:induction false} RowsOfUpdate(ledger: seq<LedgerRow>, i: nat, row: LedgerRow, u: UserId)
    requires i < |ledger| && row.user == ledger[i].user
    ensures u != row.user ==> RowsOf(ledger[i := row], u) == RowsOf(ledger, u)
    ensures Position(ledger, i) < |RowsOf(ledger, row.user)|
    ensures RowsOf(ledger, row.user)[Position(ledger, i)] == ledger[i]
    ensures u == row.user ==> RowsOf(ledger[i := row], u) == RowsOf(ledger, u)[Position(ledger, i) := row]
  {
    var last := |ledger| - 1;
    var front := ledger[..last];
    if i == last {
      assert ledger[i := row][..last] == front;
    } else {
      assert ledger[i := row][..last] == front[i := row];
      assert front[..i] == ledger[..i];
      RowsOfUpdate(front, i, row, u);
    }
  }

  /** Rows that agree with consistent ones up to `k` produce no error up to `k`. */
  lemma {:induction false} ChainErrorsUpTo(u: UserId, rows: seq<LedgerRow>, other: seq<LedgerRow>, n: nat)
    requires n <= |rows| == |other| && other[..n] == rows[..n]
    ensures ChainErrors(u, other, n) == ChainErrors(u, rows, n)
  {
    if n > 0 {
      assert other[..n - 1] == other[..n][..n - 1] && rows[..n - 1] == rows[..n][..n - 1];
      assert other[n - 1] == other[..n][n - 1] && rows[n - 1] == rows[..n][n - 1];
      if n > 1 { assert other[n - 2] == other[..n][n - 2] && rows[n - 2] == rows[..n][n - 2]; }
      ChainErrorsUpTo(u, rows, other, n - 1);
    }
  }

  /** The rows up to the changed one at `k` give at most the error at `k`. */
  lemma ChainErrorsThrough(u: UserId, rows: seq<LedgerRow>, k: nat, row: LedgerRow)
    requires k < |rows| && Chained(rows)
    ensures ChainErrors(u, rows[k := row], k + 1) == RowErrors(u, rows[k := row], k)
  {
    var other := rows[k := row];
    assert other[..k] == rows[..k];
    ChainErrorsUpTo(u, rows, other, k);
    ChainErrorsExact(u, rows, k);
    BothEmpty(ChainErrors(u, other, k), RowErrors(u, other, k));
  }

  lemma NoErrorBeyond(u: UserId, rows: seq<LedgerRow>, k: nat, row: LedgerRow, m: nat)
    requires k + 1 < m < |rows| && Chained(rows)
    ensures RowErrors(u, rows[k := row], m) == []
  {
    assert rows[m].running == Expected(rows, m);
  }

  lemma NoNewError(u: UserId, rows: seq<LedgerRow>, n: nat)
    requires n < |rows| && RowErrors(u, rows, n) == []
    ensures ChainErrors(u, rows, n + 1) == ChainErrors(u, rows, n)
  {
  }

  lemma {:induction false} ChainErrorsBeyond(u: UserId, rows: seq<LedgerRow>, n: nat, m: nat)
    requires n <= m <= |rows| && forall k: nat | n <= k < m :: RowErrors(u, rows, k) == []
    ensures ChainErrors(u, rows, m) == ChainErrors(u, rows, n)
  {
    if n < m {
      ChainErrorsBeyond(u, rows, n, m - 1);
      NoNewError(u, rows, m - 1);
    }
  }

  /** Errors of rows that differ from chained ones only at `k`: the two tests that read row `k`. */
  lemma ChainErrorsAround(u: UserId, rows: seq<LedgerRow>, k: nat, row: LedgerRow)
    requires k < |rows| && Chained(rows)
    ensures var other := rows[k := row];
            ChainErrors(u, other, |rows|)
            == if k + 1 < |rows| then RowErrors(u, other, k) + RowErrors(u, other, k + 1) else RowErrors(u, other, k)
  {
    var other := rows[k := row];
    ChainErrorsThrough(u, rows, k, row);
    if k + 1 < |rows| {
      forall m: nat | k + 2 <= m < |rows|
        ensures RowErrors(u, other, m) == []
      {
        NoErrorBeyond(u, rows, k, row, m);
      }
      ChainErrorsBeyond(u, other, k + 2, |rows|);
    }
  }

  lemma {:induction false} SumAfterUpdate(rows: seq<LedgerRow>, k: nat, row: LedgerRow, n: nat)
    requires k < |rows| && n <= |rows|
    ensures PrefixSum(rows[k := row], n) == PrefixSum(rows, n) + (if k < n then row.Delta() - rows[k].Delta() else 0)
  {
    if n > 0 { SumAfterUpdate(rows, k, row, n - 1); }
  }

  lemma {:induction false} CountsButOne(readings: seq<Reading>, k: nat, n: nat)
    requires n <= |readings| && k < |readings|
    requires forall i | 0 <= i < |readings| && i != k :: SumOk(readings[i])
    ensures CountReconciled(readings, n) == if k < n && !SumOk(readings[k]) then n - 1 else n
  {
    if n > 0 {
      CountsButOne(readings, k, n - 1);
    }
  }

  /** The report when every user but the one at `k` is in order. */
  lemma ReportOfOne(userCount: int, total: int, readings: seq<Reading>, k: nat)
    requires k < |readings|
    requires forall j | 0 <= j < |readings| && j != k :: PerUser(readings)[j] == [] && SumOk(readings[j])
    ensures ReportOf(userCount, total, readings).errors == TotalErrors(userCount, total) + PerUser(readings)[k]
    ensures ReportOf(userCount, total, readings).usersReconciled
            == if SumOk(readings[k]) then |readings| else |readings| - 1
  {
    JoinedOne(PerUser(readings), k, |readings|);
    CountsButOne(readings, k, |readings|);
  }

  /** The same when the total is right. */
  lemma ReportOfOneOnly(userCount: int, total: int, readings: seq<Reading>, k: nat)
    requires k < |readings| && total == userCount * SEED_BALANCE_PAISA
    requires forall j | 0 <= j < |readings| && j != k :: PerUser(readings)[j] == [] && SumOk(readings[j])
    ensures ReportOf(userCount, total, readings).errors == PerUser(readings)[k]
    ensures ReportOf(userCount, total, readings).usersReconciled
            == if SumOk(readings[k]) then |readings| else |readings| - 1
  {
    ReportOfOne(userCount, total, readings, k);
    BothEmpty(TotalErrors(userCount, total), PerUser(readings)[k]);
  }

  lemma CorruptedReport(
      users: seq<UserId>, balances: map<UserId, Balance>, ledger: seq<LedgerRow>, i: nat, row: LedgerRow)
    requires StoreConsistent(users, balances, ledger) && NoDuplicates(users)
    requires i < |ledger| && row.user == ledger[i].user && row.user in users
    ensures var k := Position(ledger, i);
            k < |RowsOf(ledger, row.user)| && RowsOf(ledger, row.user)[k] == ledger[i]
    ensures var u := row.user;
            var rows := RowsOf(ledger, u)[Position(ledger, i) := row];
            && u in balances
            && Audit(users, balances, ledger[i := row]).errors == UserErrors(u, rows, balances[u].amount)
            && Audit(users, balances, ledger[i := row]).usersReconciled
               == if SumErrors(u, rows, balances[u].amount) != [] then |users| - 1 else |users|
  {
    var k :| 0 <= k < |users| && users[k] == row.user;
    var readings := Readings(users, balances, ledger[i := row]);
    RowsOfUpdate(ledger, i, row, row.user);
    forall j | 0 <= j < |users| && j != k
      ensures PerUser(readings)[j] == [] && SumOk(readings[j])
    {
      OtherUserClean(users, balances, ledger, i, row, j);
    }
    ReportOfOneOnly(|users|, Total(users, balances), readings, k);
  }

  lemma OtherUserClean(
      users: seq<UserId>, balances: map<UserId, Balance>, ledger: seq<LedgerRow>, i: nat, row: LedgerRow, j: nat)
    requires StoreConsistent(users, balances, ledger) && i < |ledger| && row.user == ledger[i].user
    requires j < |users| && users[j] != row.user
    ensures var readings := Readings(users, balances, ledger[i := row]);
            PerUser(readings)[j] == [] && SumOk(readings[j])
  {
    RowsOfUpdate(ledger, i, row, users[j]);
    assert AccountConsistent(RowsOf(ledger, users[j]), balances[users[j]].amount);
    UserErrorsExact(users[j], RowsOf(ledger, users[j]), balances[users[j]].amount);
  }

  /** The error of a row at `k` that shows `found` where `expected` follows from the row before it. */
  function BreakAt(u: UserId, k: nat, expected: int, found: int): AuditError {
    if k == 0 then InitialBreak(u, 0, found, expected) else ChainBreak(u, k, expected, found)
  }

  /** The errors about a user whose running balance at `k` is changed to `x`: at the row and at the next one. */
  function RunningBreaks(u: UserId, rows: seq<LedgerRow>, k: nat, x: int): seq<AuditError>
    requires k < |rows|
  {
    if k + 1 < |rows|
    then [BreakAt(u, k, rows[k].running, x),
          ChainBreak(u, k + 1, x + rows[k + 1].amount * rows[k + 1].direction, rows[k + 1].running)]
    else [BreakAt(u, k, rows[k].running, x)]
  }

  /** The errors about a user whose amount at `k` is changed to `x`: at the row, and about the sum. */
  function AmountBreaks(u: UserId, row: LedgerRow, balance: int, k: nat, x: int): seq<AuditError> {
    var off := x * row.direction - row.amount * row.direction;
    [BreakAt(u, k, row.running + off, row.running), SumMismatch(u, balance + off, balance)]
  }

  /** The error at a row that replaces a chained one. */
  lemma ChangedRowErrors(u: UserId, rows: seq<LedgerRow>, k: nat, row: LedgerRow)
    requires Chained(rows) && k < |rows|
    ensures var expected := rows[k].running + row.Delta() - rows[k].Delta();
            RowErrors(u, rows[k := row], k)
            == if row.running == expected then [] else [BreakAt(u, k, expected, row.running)]
  {
    assert rows[k].running == Expected(rows, k);
  }

  /** The error at the row after it. */
  lemma NextRowErrors(u: UserId, rows: seq<LedgerRow>, k: nat, row: LedgerRow)
    requires Chained(rows) && k + 1 < |rows|
    ensures RowErrors(u, rows[k := row], k + 1)
            == if row.running == rows[k].running then []
               else [ChainBreak(u, k + 1, row.running + rows[k + 1].Delta(), rows[k + 1].running)]
  {
    assert rows[k + 1].running == Expected(rows, k + 1);
  }

  /** One user's errors after one running balance is changed. */
  lemma RunningErrors(u: UserId, rows: seq<LedgerRow>, balance: int, k: nat, x: int)
    requires AccountConsistent(rows, balance) && k < |rows| && x != rows[k].running
    ensures UserErrors(u, rows[k := rows[k].(running := x)], balance) == RunningBreaks(u, rows, k, x)
    ensures SumErrors(u, rows[k := rows[k].(running := x)], balance) == []
  {
    var row := rows[k].(running := x);
    ChainedIffPrefixSum(rows);
    RunningChain(u, rows, k, x);
    SumAfterUpdate(rows, k, row, |rows|);
    BothEmpty(ChainErrors(u, rows[k := row], |rows|), SumErrors(u, rows[k := row], balance));
  }

  lemma RunningChain(u: UserId, rows: seq<LedgerRow>, k: nat, x: int)
    requires Chained(rows) && k < |rows| && x != rows[k].running
    ensures ChainErrors(u, rows[k := rows[k].(running := x)], |rows|) == RunningBreaks(u, rows, k, x)
  {
    var row := rows[k].(running := x);
    ChainErrorsAround(u, rows, k, row);
    ChangedRowErrors(u, rows, k, row);
    if k + 1 < |rows| { NextRowErrors(u, rows, k, row); }
  }

  /** One user's errors after one amount is changed. */
  lemma AmountErrors(u: UserId, rows: seq<LedgerRow>, balance: int, k: nat, x: int)
    requires AccountConsistent(rows, balance) && k < |rows|
    requires x * rows[k].direction != rows[k].amount * rows[k].direction
    ensures UserErrors(u, rows[k := rows[k].(amount := x)], balance) == AmountBreaks(u, rows[k], balance, k, x)
    ensures SumErrors(u, rows[k := rows[k].(amount := x)], balance) != []
  {
    var row := rows[k].(amount := x);
    ChainedIffPrefixSum(rows);
    AmountChain(u, rows, k, row);
    SumAfterUpdate(rows, k, row, |rows|);
  }

  lemma AmountChain(u: UserId, rows: seq<LedgerRow>, k: nat, row: LedgerRow)
    requires Chained(rows) && k < |rows| && row.running == rows[k].running && row.Delta() != rows[k].Delta()
    ensures ChainErrors(u, rows[k := row], |rows|)
            == [BreakAt(u, k, rows[k].running + row.Delta() - rows[k].Delta(), rows[k].running)]
  {
    ChainErrorsAround(u, rows, k, row);
    ChangedRowErrors(u, rows, k, row);
    if k + 1 < |rows| {
      NextRowErrors(u, rows, k, row);
      BothEmpty(RowErrors(u, rows[k := row], k), RowErrors(u, rows[k := row], k + 1));
    }
  }

  lemma SignedDiffer(a: int, b: int, direction: int)
    requires a != b && (direction == 1 || direction == -1)
    ensures a * direction != b * direction
  {
  }

  lemma OwnerConsistent(users: seq<UserId>, balances: map<UserId, Balance>, ledger: seq<LedgerRow>, u: UserId)
    requires StoreConsistent(users, balances, ledger) && u in users
    ensures u in balances && AccountConsistent(RowsOf(ledger, u), balances[u].amount)
  {
    var j :| 0 <= j < |users| && users[j] == u;
    assert AccountConsistent(RowsOf(ledger, users[j]), balances[users[j]].amount);
  }

  /** Corrupting one running balance of a consistent store gives exactly two chain errors, at the row and at
      the one after it - only the first when it is the user's last row - with the balance that follows and the
      one found, and leaves every sum in order. */
  lemma CorruptRunning(users: seq<UserId>, balances: map<UserId, Balance>, ledger: seq<LedgerRow>, i: nat, x: int)
    requires StoreConsistent(users, balances, ledger) && NoDuplicates(users)
    requires i < |ledger| && ledger[i].user in users && x != ledger[i].running
    ensures Position(ledger, i) < |RowsOf(ledger, ledger[i].user)|
    ensures RowsOf(ledger, ledger[i].user)[Position(ledger, i)] == ledger[i]
    ensures var report := Audit(users, balances, ledger[i := ledger[i].(running := x)]);
            && report.errors
               == RunningBreaks(ledger[i].user, RowsOf(ledger, ledger[i].user), Position(ledger, i), x)
            && report.usersReconciled == report.usersCount == |users|
            && report.total == report.expectedTotal == |users| * 10_000_000
  {
    var u := ledger[i].user;
    CorruptedReport(users, balances, ledger, i, ledger[i].(running := x));
    OwnerConsistent(users, balances, ledger, u);
    RunningErrors(u, RowsOf(ledger, u), balances[u].amount, Position(ledger, i), x);
  }

  /** Corrupting one amount gives exactly one chain error, at the row, and one sum error for its owner, both off
      by the difference. */
  lemma CorruptAmount(users: seq<UserId>, balances: map<UserId, Balance>, ledger: seq<LedgerRow>, i: nat, x: int)
    requires StoreConsistent(users, balances, ledger) && NoDuplicates(users)
    requires i < |ledger| && ledger[i].user in users && x != ledger[i].amount
    requires ledger[i].direction == 1 || ledger[i].direction == -1
    ensures ledger[i].user in balances
    ensures var report := Audit(users, balances, ledger[i := ledger[i].(amount := x)]);
            var u := ledger[i].user;
            && report.errors == AmountBreaks(u, ledger[i], balances[u].amount, Position(ledger, i), x)
            && report.usersReconciled == |users| - 1 && report.usersCount == |users|
  {
    var u := ledger[i].user;
    CorruptedReport(users, balances, ledger, i, ledger[i].(amount := x));
    OwnerConsistent(users, balances, ledger, u);
    SignedDiffer(x, ledger[i].amount, ledger[i].direction);
    AmountErrors(u, RowsOf(ledger, u), balances[u].amount, Position(ledger, i), x);
  }

  /** Corrupting one balance gives exactly a total error and a sum error for its owner, both off by the
      difference. */
  lemma CorruptBalance(users: seq<UserId>, balances: map<UserId, Balance>, ledger: seq<LedgerRow>, u: UserId, x: int)
    requires StoreConsistent(users, balances, ledger) && NoDuplicates(users)
    requires u in users && u in balances && x != balances[u].amount
    ensures var changed := balances[u := Balance(x, balances[u].version)];
            && Covers(users, changed)
            && var report, expected := Audit(users, changed, ledger), |users| * 10_000_000;
               && report.errors == [TotalMismatch(expected, expected + (x - balances[u].amount)),
                                    SumMismatch(u, balances[u].amount, x)]
               && report.usersReconciled == |users| - 1 && report.usersCount == |users|
  {
    var k :| 0 <= k < |users| && users[k] == u;
    var changed := balances[u := Balance(x, balances[u].version)];
    var readings := Readings(users, changed, ledger);
    TotalWith(users, balances, u, Balance(x, balances[u].version));
    forall j: nat | j < |users| && j != k
      ensures PerUser(readings)[j] == [] && SumOk(readings[j])
    {
      OtherBalanceClean(users, balances, ledger, u, x, j);
    }
    OwnBalanceErrors(users, balances, ledger, u, x, k);
    ReportOfOne(|users|, Total(users, changed), readings, k);
  }

  lemma OtherBalanceClean(users: seq<UserId>, balances: map<UserId, Balance>, ledger: seq<LedgerRow>,
                          u: UserId, x: int, j: nat)
    requires StoreConsistent(users, balances, ledger) && u in balances && j < |users| && users[j] != u
    ensures var changed := balances[u := Balance(x, balances[u].version)];
            PerUser(Readings(users, changed, ledger))[j] == [] && SumOk(Readings(users, changed, ledger)[j])
  {
    assert AccountConsistent(RowsOf(ledger, users[j]), balances[users[j]].amount);
    UserErrorsExact(users[j], RowsOf(ledger, users[j]), balances[users[j]].amount);
  }

  lemma OwnBalanceErrors(users: seq<UserId>, balances: map<UserId, Balance>, ledger: seq<LedgerRow>,
                         u: UserId, x: int, k: nat)
    requires StoreConsistent(users, balances, ledger) && u in balances && k < |users| && users[k] == u
    requires x != balances[u].amount
    ensures var changed := balances[u := Balance(x, balances[u].version)];
            && PerUser(Readings(users, changed, ledger))[k] == [SumMismatch(u, balances[u].amount, x)]
            && !SumOk(Readings(users, changed, ledger)[k])
  {
    assert AccountConsistent(RowsOf(ledger, users[k]), balances[users[k]].amount);
    BalanceErrors(u, RowsOf(ledger, u), balances[u].amount, x);
  }

  lemma BalanceErrors(u: UserId, rows: seq<LedgerRow>, balance: int, x: int)
    ensures AccountConsistent(rows, balance) && x != balance ==>
              UserErrors(u, rows, x) == [SumMismatch(u, balance, x)]
  {
    UserErrorsExact(u, rows, balance);
    BothEmpty(ChainErrors(u, rows, |rows|), SumErrors(u, rows, balance));
    BothEmpty(ChainErrors(u, rows, |rows|), SumErrors(u, rows, x));
  }

  lemma {:induction false} TotalWith(users: seq<UserId>, m: map<UserId, Balance>, u: UserId, b: Balance)
    requires NoDuplicates(users) && Covers(users, m) && u in m
    ensures Total(users, m[u := b]) == Total(users, m) + (if u in users then b.amount - m[u].amount else 0)
  {
    if users != [] {
      var front, last := users[..|users| - 1], users[|users| - 1];
      TotalWith(front, m, u, b);
      assert u in users <==> u in front || u == last;
    }
  }
}
