/** What every event keeps, and so what holds of the books after every valid run. */
module Invariants {
  import opened Model
  import opened Ledger
  import opened Books

  // ---------- the invariant, one predicate per concern ----------

  ghost predicate UsersListed(t: Tables) {
    NoDuplicates(t.users) && forall u :: u in t.users <==> u in t.balances
  }

  ghost predicate AllKept(b: Books) {
    b.rows.Keys == b.t.balances.Keys && b.done.Keys == b.t.balances.Keys
  }

  ghost predicate UsersOk(b: Books) {
    UsersListed(b.t) && AllKept(b)
  }

  ghost predicate AccountsOk(balances: map<UserId, Balance>, rows: Accounts) {
    balances.Keys == rows.Keys && forall u | u in balances :: AccountOk(balances[u], rows[u])
  }

  /** Every row obeys the CHECKs of `ledger`, and no amount or running balance exceeds `bound`. */
  ghost predicate RowInRange(u: UserId, row: LedgerRow, bound: int) {
    row.user == u && row.direction in {-1, 1} && 0 < row.amount <= bound && 0 <= row.running <= bound
  }

  ghost predicate RowsInRange(rows: Accounts, bound: int) {
    forall u, k | u in rows && 0 <= k < |rows[u]| :: RowInRange(u, rows[u][k], bound)
  }

  ghost predicate Conserved(t: Tables) {
    && (forall u | u in t.balances :: t.balances[u].amount >= 0)
    && Covers(t.users, t.balances)
    && Total(t.users, t.balances) == SEED_BALANCE_PAISA * |t.users|
  }

  ghost predicate HistoryOk(done: Histories, rows: Accounts) {
    done.Keys == rows.Keys && forall u | u in rows :: Mirrors(done[u], rows[u])
  }

  /** `keys` really is the unique index of `transfers` on the idempotency key. */
  ghost predicate KeysOk(t: Tables) {
    && (forall k | k in t.keys :: t.keys[k] in t.transfers && t.transfers[t.keys[k]].key == k)
    && (forall id | id in t.transfers ::
          t.transfers[id].id == id && t.transfers[id].key in t.keys && t.keys[t.transfers[id].key] == id)
  }

  /** A transfer row obeys the CHECKs of `transfers`. */
  ghost predicate TransfersOk(t: Tables) {
    forall id | id in t.transfers ::
      && t.transfers[id].sender != t.transfers[id].recipient && 0 < t.transfers[id].amount
      && t.transfers[id].sender in t.balances && t.transfers[id].recipient in t.balances
  }

  /** `row` is the ledger row of transfer `tr` on its side of the double entry. */
  ghost predicate RowMatches(tr: TransferRow, row: LedgerRow) {
    && tr.status == Completed && row.txn == tr.id && row.reference == tr.reference
    && row.amount == tr.amount && row.key == Some(tr.key)
    && (row.direction == -1 ==> row.user == tr.sender && row.counterparty == Some(tr.recipient))
    && (row.direction == 1 ==> row.user == tr.recipient && row.counterparty == Some(tr.sender))
  }

  ghost predicate Recorded(rows: seq<LedgerRow>, txn: TxnId, direction: int) {
    exists k :: 0 <= k < |rows| && rows[k].txn == txn && rows[k].direction == direction && rows[k].kind != Funding
  }

  /** Every ledger row but a funding row is one side of a completed transfer. */
  ghost predicate RowsBacked(t: Tables, rows: Accounts) {
    forall u, k | u in rows && 0 <= k < |rows[u]| && rows[u][k].kind != Funding ::
      rows[u][k].txn in t.transfers && RowMatches(t.transfers[rows[u][k].txn], rows[u][k])
  }

  /** Every completed transfer has both its ledger rows. */
  ghost predicate TransfersPosted(t: Tables, rows: Accounts) {
    forall id | id in t.transfers && t.transfers[id].status == Completed ::
      && t.transfers[id].sender in rows && Recorded(rows[t.transfers[id].sender], id, -1)
      && t.transfers[id].recipient in rows && Recorded(rows[t.transfers[id].recipient], id, 1)
  }

  /** No two ledger rows share transaction id and direction: `uq_ledger_txn_direction`. */
  ghost predicate RowsUnique(rows: Accounts) {
    forall u, j, v, k | u in rows && 0 <= j < |rows[u]| && v in rows && 0 <= k < |rows[v]| ::
      rows[u][j].txn == rows[v][k].txn && rows[u][j].direction == rows[v][k].direction ==> u == v && j == k
  }

  ghost predicate LinkOk(t: Tables, link: Link) {
    && 0 < link.amount && link.creator in t.balances
    && (link.transfer.Some? <==> link.claimer.Some?)
    && (link.status == Active ==> link.transfer == None)
    && (link.status == Claimed ==> link.transfer.Some?)
    && (link.transfer.Some? ==>
          && link.transfer.value in t.transfers
          && t.transfers[link.transfer.value].status == Completed
          && t.transfers[link.transfer.value].sender == link.creator
          && link.claimer == Some(t.transfers[link.transfer.value].recipient)
          && t.transfers[link.transfer.value].amount == link.amount)
  }

  ghost predicate LinksOk(t: Tables) {
    && (forall l | l in t.links :: LinkOk(t, t.links[l]))
    && (forall l, m | l in t.links && m in t.links && l != m && t.links[l].transfer.Some? ::
          t.links[l].transfer != t.links[m].transfer)
  }

  ghost predicate RequestsOk(t: Tables) {
    forall r | r in t.requests ::
      && 0 < t.requests[r].amount && t.requests[r].requester != t.requests[r].debtor
      && t.requests[r].requester in t.balances && t.requests[r].debtor in t.balances
  }

  /** The CHECKs of `money_requests` and `payment_links` on amounts and parties. */
  ghost predicate DocsOk(t: Tables) {
    && (forall r | r in t.requests :: t.requests[r].requester != t.requests[r].debtor && 0 < t.requests[r].amount)
    && (forall l | l in t.links :: 0 < t.links[l].amount)
  }

  ghost predicate Inv(b: Books) {
    && UsersOk(b)
    && AccountsOk(b.t.balances, b.rows)
    && RowsInRange(b.rows, SEED_BALANCE_PAISA * |b.t.users|)
    && Conserved(b.t)
    && HistoryOk(b.done, b.rows)
    && KeysOk(b.t) && TransfersOk(b.t)
    && RowsBacked(b.t, b.rows) && TransfersPosted(b.t, b.rows) && RowsUnique(b.rows)
    && LinksOk(b.t) && RequestsOk(b.t)
  }

  lemma InvDocs(b: Books)
    requires LinksOk(b.t) && RequestsOk(b.t)
    ensures DocsOk(b.t)
  {
    forall l | l in b.t.links
      ensures 0 < b.t.links[l].amount
    {
      assert LinkOk(b.t, b.t.links[l]);
    }
  }

  // ---------- the rows of one user after one event ----------

  lemma UsersStayListed(t: Tables, e: Event)
    requires UsersListed(t) && TablesAllow(t, e)
    ensures UsersListed(ApplyTables(t, e))
  {
    match e
    case Registered(u, _, _) => assert forall v :: v in t.users + [u] <==> v in t.users || v == u;
    case Paid(p) => assert PayBalances(t.balances, p).Keys == t.balances.Keys;
    case _ =>
  }

  lemma UsersKept(b: Books, e: Event)
    requires UsersOk(b) && TablesAllow(b.t, e)
    ensures UsersOk(Apply(b, e))
  {
    UsersStayListed(b.t, e);
    assert Apply(b, e).rows.Keys == Apply(b, e).t.balances.Keys;
  }

  lemma AtAfter(b: Books, e: Event, u: UserId)
    requires AllKept(b) && TablesAllow(b.t, e)
    ensures At(Apply(b, e).rows, u) == At(b.rows, u) + Written(b.t, e, u)
    ensures At(Apply(b, e).done, u) == At(b.done, u) + Logged(b.t, e, u)
  {
    WrittenForUsers(b.t, e, u);
    if u !in ApplyTables(b.t, e).balances {
      assert u !in b.rows && u !in b.done;
    }
  }

  lemma WrittenForUsers(t: Tables, e: Event, u: UserId)
    requires TablesAllow(t, e)
    ensures u in t.balances ==> u in ApplyTables(t, e).balances
    ensures u !in ApplyTables(t, e).balances ==> Written(t, e, u) == [] && Logged(t, e, u) == []
  {
  }

  // ---------- sums over the balances table ----------

  lemma {:induction false} TotalAgrees(users: seq<UserId>, a: map<UserId, Balance>, b: map<UserId, Balance>)
    requires Covers(users, a) && Covers(users, b)
    requires forall i | 0 <= i < |users| :: a[users[i]].amount == b[users[i]].amount
    ensures Total(users, a) == Total(users, b)
  {
    if users != [] {
      TotalAgrees(users[..|users| - 1], a, b);
    }
  }

  lemma {:induction false} TotalSplit(users: seq<UserId>, m: map<UserId, Balance>, u: UserId, x: Balance)
    requires NoDuplicates(users) && u in users
    requires Covers(users, m)
    ensures Total(users, m[u := x]) == Total(users, m) - m[u].amount + x.amount
  {
    var last := users[|users| - 1];
    var front := users[..|users| - 1];
    if last == u {
      TotalAgrees(front, m, m[u := x]);
    } else {
      TotalSplit(front, m, u, x);
    }
  }

  lemma {:induction false} TotalNonNegative(users: seq<UserId>, m: map<UserId, Balance>)
    requires Covers(users, m) && forall i | 0 <= i < |users| :: m[users[i]].amount >= 0
    ensures Total(users, m) >= 0
  {
    if users != [] {
      TotalNonNegative(users[..|users| - 1], m);
    }
  }

  /** With non-negative balances, two users together hold at most the total. */
  lemma {:induction false} TwoWithinTotal(users: seq<UserId>, m: map<UserId, Balance>, u: UserId, v: UserId)
    requires NoDuplicates(users) && u in users && v in users && u != v
    requires Covers(users, m) && forall i | 0 <= i < |users| :: m[users[i]].amount >= 0
    ensures m[u].amount + m[v].amount <= Total(users, m)
  {
    var rest := m[u := Balance(0, 0)];
    TotalSplit(users, m, u, Balance(0, 0));
    TotalSplit(users, rest, v, Balance(0, 0));
    TotalNonNegative(users, rest[v := Balance(0, 0)]);
  }

  // ---------- each concern is kept by a registration and by a payment ----------

  /** Appending one row for each of two users. */
  function Post<T>(m: map<UserId, seq<T>>, u: UserId, x: T, v: UserId, y: T): map<UserId, seq<T>>
    requires u in m && v in m
  {
    m[u := m[u] + [x]][v := m[v] + [y]]
  }

  function Debit(t: Tables, p: Payment): LedgerRow
    requires CanPay(t, p)
  {
    DebitRow(p, t.balances[p.payer].amount - p.amount)
  }

  function Credit(t: Tables, p: Payment): LedgerRow
    requires CanPay(t, p)
  {
    CreditRow(p, t.balances[p.payee].amount + p.amount)
  }

  function SentBy(t: Tables, p: Payment): HistoryRow
    requires CanPay(t, p)
  {
    SentHistory(p, t.balances[p.payer].amount - p.amount)
  }

  function ReceivedBy(t: Tables, p: Payment): HistoryRow
    requires CanPay(t, p)
  {
    ReceivedHistory(p, t.balances[p.payee].amount + p.amount)
  }

  /** A payment appends exactly one ledger and one history row to each side and to nobody else. */
  lemma PayPosts(b: Books, p: Payment)
    requires AllKept(b) && TablesAllow(b.t, Paid(p))
    ensures Apply(b, Paid(p)).rows == Post(b.rows, p.payer, Debit(b.t, p), p.payee, Credit(b.t, p))
    ensures Apply(b, Paid(p)).done == Post(b.done, p.payer, SentBy(b.t, p), p.payee, ReceivedBy(b.t, p))
  {
    Untouched(b);
    var b' := Apply(b, Paid(p));
    assert b'.rows == Post(b.rows, p.payer, Debit(b.t, p), p.payee, Credit(b.t, p));
    assert b'.done == Post(b.done, p.payer, SentBy(b.t, p), p.payee, ReceivedBy(b.t, p));
  }

  lemma Untouched(b: Books)
    requires AllKept(b)
    ensures forall u | u in b.t.balances :: At(b.rows, u) + [] == b.rows[u] && At(b.done, u) + [] == b.done[u]
  {
  }

  lemma RegisterPosts(b: Books, u: UserId, txn: TxnId, reference: Reference)
    requires AllKept(b) && TablesAllow(b.t, Registered(u, txn, reference))
    ensures Apply(b, Registered(u, txn, reference)).rows == b.rows[u := [FundingRow(u, txn, reference)]]
    ensures Apply(b, Registered(u, txn, reference)).done == b.done[u := [FundingHistory(u, txn, reference)]]
  {
    Untouched(b);
    var b' := Apply(b, Registered(u, txn, reference));
    assert At(b.rows, u) + [FundingRow(u, txn, reference)] == [FundingRow(u, txn, reference)];
    assert At(b.done, u) + [FundingHistory(u, txn, reference)] == [FundingHistory(u, txn, reference)];
    assert b'.rows == b.rows[u := [FundingRow(u, txn, reference)]];
    assert b'.done == b.done[u := [FundingHistory(u, txn, reference)]];
  }

  lemma OthersKeepRows(b: Books, e: Event)
    requires AllKept(b) && TablesAllow(b.t, e) && !e.Paid? && !e.Registered?
    ensures Apply(b, e).rows == b.rows && Apply(b, e).done == b.done
    ensures Apply(b, e).t.users == b.t.users && Apply(b, e).t.balances == b.t.balances
  {
    Untouched(b);
    assert Apply(b, e).rows == b.rows && Apply(b, e).done == b.done;
  }

  lemma AccountsKeptByPay(t: Tables, rows: Accounts, p: Payment)
    requires AccountsOk(t.balances, rows) && CanPay(t, p)
    ensures AccountsOk(PayBalances(t.balances, p), Post(rows, p.payer, Debit(t, p), p.payee, Credit(t, p)))
  {
    AccountExtends(t.balances[p.payer], rows[p.payer], Debit(t, p));
    AccountExtends(t.balances[p.payee], rows[p.payee], Credit(t, p));
  }

  lemma ConservedByPay(t: Tables, p: Payment)
    requires Conserved(t) && NoDuplicates(t.users) && CanPay(t, p) && p.payer in t.users && p.payee in t.users
    ensures Conserved(t.(balances := PayBalances(t.balances, p)))
    ensures t.balances[p.payer].amount + t.balances[p.payee].amount <= SEED_BALANCE_PAISA * |t.users|
  {
    var debited := Balance(t.balances[p.payer].amount - p.amount, t.balances[p.payer].version + 1);
    var credited := Balance(t.balances[p.payee].amount + p.amount, t.balances[p.payee].version + 1);
    TotalSplit(t.users, t.balances, p.payer, debited);
    TotalSplit(t.users, t.balances[p.payer := debited], p.payee, credited);
    TwoWithinTotal(t.users, t.balances, p.payer, p.payee);
  }

  lemma RangeKeptByPay(t: Tables, rows: Accounts, p: Payment, bound: int)
    requires RowsInRange(rows, bound) && CanPay(t, p) && p.payer in rows && p.payee in rows
    requires t.balances[p.payer].amount + t.balances[p.payee].amount <= bound && t.balances[p.payee].amount >= 0
    ensures RowsInRange(Post(rows, p.payer, Debit(t, p), p.payee, Credit(t, p)), bound)
  {
    var rows': Accounts := Post(rows, p.payer, Debit(t, p), p.payee, Credit(t, p));
    forall u, k | u in rows' && 0 <= k < |rows'[u]|
      ensures RowInRange(u, rows'[u][k], bound)
    {
      if u in rows && k < |rows[u]| {
        assert RowInRange(u, rows[u][k], bound);
      }
    }
  }

  lemma HistoryKeptByPay(t: Tables, rows: Accounts, done: Histories, p: Payment)
    requires HistoryOk(done, rows) && CanPay(t, p) && p.payer in rows && p.payee in rows
    ensures HistoryOk(Post(done, p.payer, SentBy(t, p), p.payee, ReceivedBy(t, p)),
                      Post(rows, p.payer, Debit(t, p), p.payee, Credit(t, p)))
  {
  }

  lemma UniqueKeptByPay(t: Tables, rows: Accounts, p: Payment)
    requires RowsUnique(rows) && FreshTxn(rows, p.id) && CanPay(t, p) && p.payer in rows && p.payee in rows
    ensures RowsUnique(Post(rows, p.payer, Debit(t, p), p.payee, Credit(t, p)))
  {
    var rows': Accounts := Post(rows, p.payer, Debit(t, p), p.payee, Credit(t, p));
    forall u, j, v, k | u in rows' && 0 <= j < |rows'[u]| && v in rows' && 0 <= k < |rows'[v]|
      ensures rows'[u][j].txn == rows'[v][k].txn && rows'[u][j].direction == rows'[v][k].direction ==> u == v && j == k
    {
      if j < |rows[u]| {
        assert rows'[u][j] == rows[u][j];
      }
      if k < |rows[v]| {
        assert rows'[v][k] == rows[v][k];
      }
    }
  }

  lemma BackedKeptByPay(b: Books, p: Payment)
    requires UsersOk(b) && Enabled(b, Paid(p)) && RowsBacked(b.t, b.rows) && TransfersPosted(b.t, b.rows)
    ensures RowsBacked(Apply(b, Paid(p)).t, Apply(b, Paid(p)).rows)
    ensures TransfersPosted(Apply(b, Paid(p)).t, Apply(b, Paid(p)).rows)
  {
    PayPosts(b, p);
    var t' := Apply(b, Paid(p)).t;
    RowsBackedAfterPay(b.t, t', b.rows, p);
    PostedAfterPay(b.t, t', b.rows, p);
  }

  lemma RowsBackedAfterPay(t: Tables, t': Tables, rows: Accounts, p: Payment)
    requires CanPay(t, p) && p.payer in rows && p.payee in rows && RowsBacked(t, rows)
    requires t'.transfers == t.transfers[p.id := CompletedRow(p)]
    ensures RowsBacked(t', Post(rows, p.payer, Debit(t, p), p.payee, Credit(t, p)))
  {
    var rows': Accounts := Post(rows, p.payer, Debit(t, p), p.payee, Credit(t, p));
    forall u, k | u in rows' && 0 <= k < |rows'[u]| && rows'[u][k].kind != Funding
      ensures rows'[u][k].txn in t'.transfers && RowMatches(t'.transfers[rows'[u][k].txn], rows'[u][k])
    {
      if k < |rows[u]| {
        assert rows'[u][k] == rows[u][k];
      }
    }
  }

  lemma RecordedExtends(rows: seq<LedgerRow>, row: LedgerRow, txn: TxnId, direction: int)
    requires Recorded(rows, txn, direction)
    ensures Recorded(rows + [row], txn, direction)
  {
    var k :| 0 <= k < |rows| && rows[k].txn == txn && rows[k].direction == direction && rows[k].kind != Funding;
    assert (rows + [row])[k] == rows[k];
  }

  lemma PostedAfterPay(t: Tables, t': Tables, rows: Accounts, p: Payment)
    requires CanPay(t, p) && p.payer in rows && p.payee in rows && TransfersPosted(t, rows)
    requires t'.transfers == t.transfers[p.id := CompletedRow(p)]
    ensures TransfersPosted(t', Post(rows, p.payer, Debit(t, p), p.payee, Credit(t, p)))
  {
    var rows': Accounts := Post(rows, p.payer, Debit(t, p), p.payee, Credit(t, p));
    assert rows'[p.payer][|rows[p.payer]|] == Debit(t, p);
    assert rows'[p.payee][|rows[p.payee]|] == Credit(t, p);
    forall id, u, direction | id in t.transfers && u in rows && Recorded(rows[u], id, direction)
      ensures Recorded(rows'[u], id, direction)
    {
      RecordedExtends(rows[u], Debit(t, p), id, direction);
      RecordedExtends(rows[u], Credit(t, p), id, direction);
    }
  }

  lemma InvKeptByPay(b: Books, p: Payment)
    requires Inv(b) && Enabled(b, Paid(p))
    ensures Inv(Apply(b, Paid(p)))
  {
    PayPosts(b, p);
    AccountsKeptByPay(b.t, b.rows, p);
    ConservedByPay(b.t, p);
    RangeKeptByPay(b.t, b.rows, p, SEED_BALANCE_PAISA * |b.t.users|);
    HistoryKeptByPay(b.t, b.rows, b.done, p);
    UniqueKeptByPay(b.t, b.rows, p);
    BackedKeptByPay(b, p);
    TablesKeptByPay(b.t, p);
    UsersKept(b, Paid(p));
  }

  lemma TablesKeptByPay(t: Tables, p: Payment)
    requires TablesAllow(t, Paid(p)) && KeysOk(t) && TransfersOk(t) && LinksOk(t) && RequestsOk(t)
    ensures var t' := ApplyTables(t, Paid(p)); KeysOk(t') && TransfersOk(t') && LinksOk(t') && RequestsOk(t')
  {
    var t' := ApplyTables(t, Paid(p));
    forall l | l in t'.links
      ensures LinkOk(t', t'.links[l])
    {
      assert LinkOk(t, t.links[l]);
    }
    forall l, m | l in t'.links && m in t'.links && l != m && t'.links[l].transfer.Some?
      ensures t'.links[l].transfer != t'.links[m].transfer
    {
      assert LinkOk(t, t.links[l]) && LinkOk(t, t.links[m]);
    }
  }

  lemma InvKeptByRegistration(b: Books, u: UserId, txn: TxnId, reference: Reference)
    requires Inv(b) && Enabled(b, Registered(u, txn, reference))
    ensures Inv(Apply(b, Registered(u, txn, reference)))
  {
    RegisterPosts(b, u, txn, reference);
    UsersKept(b, Registered(u, txn, reference));
    ConservedByRegistration(b.t, u);
    RangeKeptByRegistration(b.rows, u, FundingRow(u, txn, reference), |b.t.users|);
    UniqueKeptByRegistration(b.rows, u, FundingRow(u, txn, reference));
    AccountsKeptByRegistration(b, u, txn, reference);
    var t' := ApplyTables(b.t, Registered(u, txn, reference));
    TablesKeptByRegistration(b.t, t');
    PostedKeptByRegistration(b.t, t', b.rows, u, FundingRow(u, txn, reference));
  }

  lemma ConservedByRegistration(t: Tables, u: UserId)
    requires Conserved(t) && u !in t.balances
    ensures Conserved(t.(users := t.users + [u], balances := t.balances[u := Balance(SEED_BALANCE_PAISA, 0)]))
  {
    var t' := t.(users := t.users + [u], balances := t.balances[u := Balance(SEED_BALANCE_PAISA, 0)]);
    assert t'.users[..|t.users|] == t.users;
    TotalAgrees(t.users, t.balances, t'.balances);
  }

  lemma RangeKeptByRegistration(rows: Accounts, u: UserId, row: LedgerRow, n: nat)
    requires RowsInRange(rows, SEED_BALANCE_PAISA * n)
    requires row.user == u && row.direction == 1 && row.amount == row.running == SEED_BALANCE_PAISA
    ensures RowsInRange(rows[u := [row]], SEED_BALANCE_PAISA * (n + 1))
  {
    var rows': Accounts := rows[u := [row]];
    forall v, k | v in rows' && 0 <= k < |rows'[v]|
      ensures RowInRange(v, rows'[v][k], SEED_BALANCE_PAISA * (n + 1))
    {
      if v != u {
        assert RowInRange(v, rows[v][k], SEED_BALANCE_PAISA * n);
      }
    }
  }

  lemma AccountsKeptByRegistration(b: Books, u: UserId, txn: TxnId, reference: Reference)
    requires AccountsOk(b.t.balances, b.rows) && HistoryOk(b.done, b.rows)
    ensures AccountsOk(b.t.balances[u := Balance(SEED_BALANCE_PAISA, 0)], b.rows[u := [FundingRow(u, txn, reference)]])
    ensures HistoryOk(b.done[u := [FundingHistory(u, txn, reference)]], b.rows[u := [FundingRow(u, txn, reference)]])
  {
  }

  lemma TablesKeptByRegistration(t: Tables, t': Tables)
    requires KeysOk(t) && TransfersOk(t) && LinksOk(t) && RequestsOk(t)
    requires t.balances.Keys <= t'.balances.Keys
    requires t'.transfers == t.transfers && t'.keys == t.keys && t'.links == t.links && t'.requests == t.requests
    ensures KeysOk(t') && TransfersOk(t') && LinksOk(t') && RequestsOk(t')
  {
    forall l | l in t'.links
      ensures LinkOk(t', t'.links[l])
    {
      assert LinkOk(t, t.links[l]);
    }
  }

  lemma UniqueKeptByRegistration(rows: Accounts, u: UserId, row: LedgerRow)
    requires RowsUnique(rows) && FreshTxn(rows, row.txn) && u !in rows
    ensures RowsUnique(rows[u := [row]])
  {
    var rows': Accounts := rows[u := [row]];
    forall w, j, v, k | w in rows' && 0 <= j < |rows'[w]| && v in rows' && 0 <= k < |rows'[v]|
      ensures rows'[w][j].txn == rows'[v][k].txn && rows'[w][j].direction == rows'[v][k].direction ==> w == v && j == k
    {
      if w != u && v != u {
        assert rows'[w][j] == rows[w][j] && rows'[v][k] == rows[v][k];
      }
    }
  }

  lemma PostedKeptByRegistration(t: Tables, t': Tables, rows: Accounts, u: UserId, row: LedgerRow)
    requires t'.transfers == t.transfers && u !in rows && row.kind == Funding
    requires RowsBacked(t, rows) && TransfersPosted(t, rows)
    ensures RowsBacked(t', rows[u := [row]]) && TransfersPosted(t', rows[u := [row]])
  {
  }

  lemma InvKeptByOther(b: Books, e: Event)
    requires Inv(b) && Enabled(b, e) && !e.Paid? && !e.Registered?
    ensures Inv(Apply(b, e))
  {
    OthersKeepRows(b, e);
    OtherTables(b.t, e);
    UsersKept(b, e);
    PostedKeptByOther(b, e);
  }

  lemma PostedKeptByOther(b: Books, e: Event)
    requires TablesAllow(b.t, e) && !e.Paid? && !e.Registered?
    requires RowsBacked(b.t, b.rows) && TransfersPosted(b.t, b.rows)
    ensures RowsBacked(ApplyTables(b.t, e), b.rows) && TransfersPosted(ApplyTables(b.t, e), b.rows)
  {
  }

  lemma OtherTables(t: Tables, e: Event)
    requires TablesAllow(t, e) && !e.Paid? && !e.Registered?
    requires KeysOk(t) && TransfersOk(t) && LinksOk(t) && RequestsOk(t)
    ensures var t' := ApplyTables(t, e); KeysOk(t') && TransfersOk(t') && LinksOk(t') && RequestsOk(t')
  {
    var t' := ApplyTables(t, e);
    forall l | l in t'.links
      ensures LinkOk(t', t'.links[l])
    {
      if l in t.links {
        assert LinkOk(t, t.links[l]);
      }
    }
  }

  /** Every event keeps the invariant. */
  lemma InvKept(b: Books, e: Event)
    requires Inv(b) && Enabled(b, e)
    ensures Inv(Apply(b, e))
  {
    match e
    case Paid(p) => InvKeptByPay(b, p);
    case Registered(u, txn, reference) => InvKeptByRegistration(b, u, txn, reference);
    case _ => InvKeptByOther(b, e);
  }

  /** The invariant holds of the books after every valid run. */
  lemma {:induction false} InvAlways(b: Books, log: seq<Event>)
    requires Inv(b) && ValidRun(b, log)
    ensures Inv(Replay(b, log))
    decreases |log|
  {
    if log != [] {
      InvKept(b, log[0]);
      InvAlways(Apply(b, log[0]), log[1..]);
    }
  }

  lemma InvInitially()
    ensures Inv(NoBooks)
  {
  }
}
