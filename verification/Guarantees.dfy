/**
  What the engine promises about whole runs of committed events: conservation and the exact account
  chain, one double entry per transaction and per idempotency key, room in 64 bits, links that pay at
  most once, and requests and links in one-to-one correspondence with their payments.
*/
module Guarantees {
  import opened Model
  import opened Ledger
  import opened Books
  import opened Invariants

  /** Conservation and the account chain, after every valid run. */
  lemma Accounting(log: seq<Event>)
    requires ValidRun(NoBooks, log)
    ensures var b := Replay(NoBooks, log);
            && Covers(b.t.users, b.t.balances)
            && Total(b.t.users, b.t.balances) == SEED_BALANCE_PAISA * |b.t.users|
            && forall u | u in b.t.balances ::
                 && b.t.balances[u].amount >= 0
                 && u in b.rows && |b.rows[u]| == b.t.balances[u].version + 1 >= 1
                 && IsFunding(b.rows[u][0])
                 && RunningIsPrefixSum(b.rows[u])
                 && b.t.balances[u].amount == PrefixSum(b.rows[u], |b.rows[u]|)
  {
    InvInitially();
    InvAlways(NoBooks, log);
    var b := Replay(NoBooks, log);
    forall u | u in b.t.balances
      ensures RunningIsPrefixSum(b.rows[u]) && b.t.balances[u].amount == PrefixSum(b.rows[u], |b.rows[u]|)
    {
      ChainedIffPrefixSum(b.rows[u]);
      var last: nat := |b.rows[u]| - 1;
      assert b.rows[u][last].running == PrefixSum(b.rows[u], last + 1);
    }
  }

  /** A non-funding row has exactly one partner: the same amount in the opposite direction for the
      counterparty, and no third row carries the transaction. */
  lemma DoubleEntry(b: Books, u: UserId, k: nat) returns (v: UserId, j: nat)
    requires Inv(b) && u in b.rows && k < |b.rows[u]| && b.rows[u][k].kind != Funding
    ensures v in b.rows && j < |b.rows[v]| && v != u && b.rows[u][k].counterparty == Some(v)
    ensures b.rows[v][j].txn == b.rows[u][k].txn && b.rows[v][j].counterparty == Some(u)
    ensures b.rows[v][j].Delta() == -b.rows[u][k].Delta()
    ensures forall w, i | w in b.rows && 0 <= i < |b.rows[w]| && b.rows[w][i].txn == b.rows[u][k].txn ::
              (w == u && i == k) || (w == v && i == j)
  {
    v, j := Partner(b.t, b.rows, SEED_BALANCE_PAISA * |b.t.users|, u, k);
    OnlyTwo(b.rows, SEED_BALANCE_PAISA * |b.t.users|, u, k, v, j);
  }

  lemma Partner(t: Tables, rows: Accounts, bound: int, u: UserId, k: nat) returns (v: UserId, j: nat)
    requires RowsInRange(rows, bound) && RowsBacked(t, rows) && TransfersPosted(t, rows) && TransfersOk(t) && KeysOk(t)
    requires u in rows && k < |rows[u]| && rows[u][k].kind != Funding
    ensures v in rows && j < |rows[v]| && v != u && rows[u][k].counterparty == Some(v)
    ensures rows[v][j].txn == rows[u][k].txn && rows[v][j].counterparty == Some(u)
    ensures rows[v][j].Delta() == -rows[u][k].Delta()
    ensures rows[v][j].direction == -rows[u][k].direction
  {
    var row := rows[u][k];
    assert RowInRange(u, row, bound);
    assert RowMatches(t.transfers[row.txn], row);
    var tr := t.transfers[row.txn];
    v := if row.direction == -1 then tr.recipient else tr.sender;
    assert Recorded(rows[v], row.txn, -row.direction);
    j :| 0 <= j < |rows[v]| && rows[v][j].txn == row.txn && rows[v][j].direction == -row.direction
         && rows[v][j].kind != Funding;
    assert RowMatches(tr, rows[v][j]);
  }

  lemma OnlyTwo(rows: Accounts, bound: int, u: UserId, k: nat, v: UserId, j: nat)
    requires RowsInRange(rows, bound) && RowsUnique(rows)
    requires u in rows && k < |rows[u]| && v in rows && j < |rows[v]|
    requires rows[v][j].txn == rows[u][k].txn && rows[v][j].direction == -rows[u][k].direction
    ensures forall w, i | w in rows && 0 <= i < |rows[w]| && rows[w][i].txn == rows[u][k].txn ::
              (w == u && i == k) || (w == v && i == j)
  {
    assert RowInRange(u, rows[u][k], bound);
    forall w, i | w in rows && 0 <= i < |rows[w]| && rows[w][i].txn == rows[u][k].txn
      ensures (w == u && i == k) || (w == v && i == j)
    {
      assert RowInRange(w, rows[w][i], bound);
    }
  }

  /** `uq_ledger_idempotency_key` and the unique index on transfers: an idempotency key belongs to at most
      one transfer, and to at most one ledger row in each direction. */
  lemma OneEntryPerKey(b: Books, key: Key)
    requires Inv(b)
    ensures forall id, other | id in b.t.transfers && other in b.t.transfers
              && b.t.transfers[id].key == key && b.t.transfers[other].key == key :: id == other
    ensures forall u, j, v, k | u in b.rows && 0 <= j < |b.rows[u]| && v in b.rows && 0 <= k < |b.rows[v]|
              && b.rows[u][j].key == Some(key) && b.rows[v][k].key == Some(key)
              && b.rows[u][j].direction == b.rows[v][k].direction :: u == v && j == k
  {
    var rows: Accounts := b.rows;
    forall u, j, v, k | u in rows && 0 <= j < |rows[u]| && v in rows && 0 <= k < |rows[v]|
      && rows[u][j].key == Some(key) && rows[v][k].key == Some(key) && rows[u][j].direction == rows[v][k].direction
      ensures u == v && j == k
    {
      KeyNamesTransfer(b, u, j, key);
      KeyNamesTransfer(b, v, k, key);
    }
  }

  lemma KeyNamesTransfer(b: Books, u: UserId, j: nat, key: Key)
    requires AccountsOk(b.t.balances, b.rows) && RowsBacked(b.t, b.rows) && KeysOk(b.t)
    requires u in b.rows && j < |b.rows[u]| && b.rows[u][j].key == Some(key)
    ensures key in b.t.keys && b.rows[u][j].txn == b.t.keys[key]
  {
    assert AccountOk(b.t.balances[u], b.rows[u]);
    assert b.rows[u][j].kind != Funding;
    assert RowMatches(b.t.transfers[b.rows[u][j].txn], b.rows[u][j]);
  }

  /** With fewer than 2^63 / 10^7 users every 64-bit sum and product of the payment paths and of the
      auditor stays in range: the balances, every delta and prefix sum, `prev + delta`,
      `user_count * 10_000_000` and the balance total. */
  lemma NoOverflow(b: Books)
    requires Inv(b) && SEED_BALANCE_PAISA * |b.t.users| <= I64_MAX
    ensures Covers(b.t.users, b.t.balances) && 0 <= Total(b.t.users, b.t.balances) <= I64_MAX
    ensures forall u, v | u in b.t.balances && v in b.t.balances && u != v ::
              0 <= b.t.balances[u].amount && b.t.balances[u].amount + b.t.balances[v].amount <= I64_MAX
    ensures forall u, k: nat | u in b.rows && k < |b.rows[u]| ::
              && -I64_MAX <= b.rows[u][k].Delta() <= I64_MAX
              && 0 <= Expected(b.rows[u], k) <= I64_MAX
              && 0 <= PrefixSum(b.rows[u], k + 1) <= I64_MAX
  {
    BalancesFit(b.t);
    var rows: Accounts := b.rows;
    forall u, k: nat | u in rows && k < |rows[u]|
      ensures -I64_MAX <= rows[u][k].Delta() <= I64_MAX
      ensures 0 <= Expected(rows[u], k) <= I64_MAX && 0 <= PrefixSum(rows[u], k + 1) <= I64_MAX
    {
      RowFits(b.t.balances[u], rows[u], u, k, SEED_BALANCE_PAISA * |b.t.users|);
    }
  }

  lemma BalancesFit(t: Tables)
    requires Conserved(t) && NoDuplicates(t.users) && (forall u :: u in t.users <==> u in t.balances)
    ensures 0 <= Total(t.users, t.balances)
    ensures forall u, v | u in t.balances && v in t.balances && u != v ::
              0 <= t.balances[u].amount && t.balances[u].amount + t.balances[v].amount <= SEED_BALANCE_PAISA * |t.users|
  {
    forall i | 0 <= i < |t.users|
      ensures t.balances[t.users[i]].amount >= 0
    {
      assert t.users[i] in t.balances;
    }
    forall u, v | u in t.balances && v in t.balances && u != v
      ensures 0 <= t.balances[u].amount && t.balances[u].amount + t.balances[v].amount <= SEED_BALANCE_PAISA * |t.users|
    {
      TwoWithinTotal(t.users, t.balances, u, v);
    }
  }

  lemma RowFits(balance: Balance, rows: seq<LedgerRow>, u: UserId, k: nat, bound: int)
    requires AccountOk(balance, rows) && k < |rows| && RowInRange(u, rows[k], bound)
    ensures -bound <= rows[k].Delta() <= bound
    ensures 0 <= Expected(rows, k) <= bound && 0 <= PrefixSum(rows, k + 1) <= bound
  {
    ChainedIffPrefixSum(rows);
    assert rows[k].running == Expected(rows, k);
    assert rows[k].running == PrefixSum(rows, k + 1);
  }

  // ---------- payment links ----------

  /** What may happen to one link, however many events pass: its terms are fixed, it never becomes active
      again, and its claimer and transfer are written together, once, from active. */
  ghost predicate LinkMoves(a: Link, b: Link) {
    && b.creator == a.creator && b.amount == a.amount && b.expiresAt == a.expiresAt
    && (b.status == Active ==> b == a)
    && (a.transfer.Some? || a.claimer.Some? ==> b.transfer == a.transfer && b.claimer == a.claimer)
    && (b.transfer != a.transfer || b.claimer != a.claimer ==>
          a.status == Active && b.transfer.Some? && b.claimer.Some?)
    && (b.status == Claimed && a.status != Claimed ==> a.status == Active)
  }

  predicate PaysThrough(e: Event, l: LinkId) {
    e.Paid? && e.pay.via.ByLink? && e.pay.via.link == l
  }

  /** The number of payments through link `l` in a log. */
  function PaymentsThrough(log: seq<Event>, l: LinkId): nat {
    if log == [] then 0 else PaymentsThrough(log[1..], l) + (if PaysThrough(log[0], l) then 1 else 0)
  }

  ghost predicate HasPaid(t: Tables, l: LinkId) {
    l in t.links && t.links[l].transfer.Some?
  }

  /** Claimer and transfer are set together, and never on an active link. */
  ghost predicate LinkSane(link: Link) {
    (link.transfer.Some? <==> link.claimer.Some?) && (link.status == Active ==> link.transfer == None)
  }

  ghost predicate LinkSaneAt(t: Tables, l: LinkId) {
    l in t.links ==> LinkSane(t.links[l])
  }

  lemma LinkStep(t: Tables, e: Event, l: LinkId)
    requires TablesAllow(t, e) && LinkSaneAt(t, l)
    ensures LinkSaneAt(ApplyTables(t, e), l)
    ensures l in t.links ==> l in ApplyTables(t, e).links && LinkMoves(t.links[l], ApplyTables(t, e).links[l])
    ensures PaymentsThrough([e], l) + (if HasPaid(t, l) then 1 else 0) == if HasPaid(ApplyTables(t, e), l) then 1 else 0
  {
    assert PaymentsThrough([e], l) == PaymentsThrough([], l) + (if PaysThrough(e, l) then 1 else 0);
  }

  /** A link keeps to `LinkMoves` over any run, and money moves through it at most once: exactly when its
      transfer gets set. */
  lemma {:induction false} LinkPaysOnce(b: Books, log: seq<Event>, l: LinkId)
    requires ValidRun(b, log) && LinkSaneAt(b.t, l)
    ensures l in b.t.links ==> l in Replay(b, log).t.links && LinkMoves(b.t.links[l], Replay(b, log).t.links[l])
    ensures PaymentsThrough(log, l) + (if HasPaid(b.t, l) then 1 else 0)
            == if HasPaid(Replay(b, log).t, l) then 1 else 0
    decreases |log|
  {
    if log != [] {
      LinkStep(b.t, log[0], l);
      assert PaymentsThrough(log, l) == PaymentsThrough(log[1..], l) + PaymentsThrough([log[0]], l);
      LinkPaysOnce(Apply(b, log[0]), log[1..], l);
    }
  }

  // ---------- requests and links against their payments ----------

  ghost predicate RecordedAs(rows: Accounts, u: UserId, txn: TxnId, direction: int, kind: LedgerKind) {
    u in rows && exists k ::
      0 <= k < |rows[u]| && rows[u][k].txn == txn && rows[u][k].direction == direction && rows[u][k].kind == kind
  }

  /** Transaction `txn` is a completed transfer with both its ledger rows, of kind `kind`. */
  ghost predicate PostedAs(transfers: map<TxnId, TransferRow>, rows: Accounts, txn: TxnId, kind: LedgerKind) {
    && txn in transfers && transfers[txn].status == Completed
    && RecordedAs(rows, transfers[txn].sender, txn, -1, kind)
    && RecordedAs(rows, transfers[txn].recipient, txn, 1, kind)
  }

  ghost predicate AllPosted(
      transfers: map<TxnId, TransferRow>, rows: Accounts, paid: map<int, TxnId>, kind: LedgerKind) {
    forall x | x in paid :: PostedAs(transfers, rows, paid[x], kind)
  }

  ghost predicate Injective(paid: map<int, TxnId>) {
    forall x, y | x in paid && y in paid && x != y :: paid[x] != paid[y]
  }

  ghost predicate Names(paid: map<int, TxnId>, txn: TxnId) {
    exists x :: x in paid && paid[x] == txn
  }

  ghost predicate AllNamed(rows: Accounts, paid: map<int, TxnId>, kind: LedgerKind) {
    forall u, k | u in rows && 0 <= k < |rows[u]| && rows[u][k].kind == kind :: Names(paid, rows[u][k].txn)
  }

  /** `paid` maps documents one to one onto the transactions whose ledger rows have kind `kind`. */
  ghost predicate OneToOne(b: Books, paid: map<int, TxnId>, kind: LedgerKind) {
    AllPosted(b.t.transfers, b.rows, paid, kind) && Injective(paid) && AllNamed(b.rows, paid, kind)
  }

  lemma RecordedGrows(rows: Accounts, more: Accounts, u: UserId, txn: TxnId, direction: int, kind: LedgerKind)
    requires RecordedAs(rows, u, txn, direction, kind) && u in more && rows[u] <= more[u]
    ensures RecordedAs(more, u, txn, direction, kind)
  {
    var k :|
      0 <= k < |rows[u]| && rows[u][k].txn == txn && rows[u][k].direction == direction && rows[u][k].kind == kind;
    assert more[u][k] == rows[u][k];
  }

  lemma PostedGrows(transfers: map<TxnId, TransferRow>, rows: Accounts,
                    transfers': map<TxnId, TransferRow>, more: Accounts, txn: TxnId, kind: LedgerKind)
    requires PostedAs(transfers, rows, txn, kind)
    requires txn in transfers' && transfers'[txn] == transfers[txn]
    requires forall u | u in rows :: u in more && rows[u] <= more[u]
    ensures PostedAs(transfers', more, txn, kind)
  {
    RecordedGrows(rows, more, transfers[txn].sender, txn, -1, kind);
    RecordedGrows(rows, more, transfers[txn].recipient, txn, 1, kind);
  }

  lemma PaymentPosts(b: Books, p: Payment)
    requires UsersOk(b) && TablesAllow(b.t, Paid(p))
    ensures PostedAs(Apply(b, Paid(p)).t.transfers, Apply(b, Paid(p)).rows, p.id, DebitKind(p.via)) || p.via == Direct
  {
    PayPosts(b, p);
    var rows': Accounts := Apply(b, Paid(p)).rows;
    assert rows'[p.payer][|b.rows[p.payer]|] == Debit(b.t, p);
    assert rows'[p.payee][|b.rows[p.payee]|] == Credit(b.t, p);
  }

  lemma RowsGrow(b: Books, e: Event)
    requires UsersOk(b) && TablesAllow(b.t, e)
    ensures forall u | u in b.rows :: u in Apply(b, e).rows && b.rows[u] <= Apply(b, e).rows[u]
  {
  }

  /** What a document map becomes when an event settles document `x`, if it settles one. */
  function Noted(paid: map<int, TxnId>, e: Event, x: Option<int>): map<int, TxnId> {
    if e.Paid? && x.Some? then paid[x.value := e.pay.id] else paid
  }

  lemma OneToOneKept(b: Books, e: Event, paid: map<int, TxnId>, kind: LedgerKind, x: Option<int>)
    requires UsersOk(b) && TablesAllow(b.t, e) && OneToOne(b, paid, kind) && kind in {RequestPaid, LinkPaid}
    requires x.Some? <==> e.Paid? && DebitKind(e.pay.via) == kind
    requires x.Some? ==> x.value !in paid
    ensures OneToOne(Apply(b, e), Noted(paid, e, x), kind)
  {
    PostedKept(b, e, paid, kind, x);
    NewIsUnpaid(b, e, paid, kind);
    NamedKept(b, e, paid, kind, x);
  }

  lemma TransferStays(t: Tables, e: Event, txn: TxnId)
    requires TablesAllow(t, e) && txn in t.transfers
    ensures txn in ApplyTables(t, e).transfers && ApplyTables(t, e).transfers[txn] == t.transfers[txn]
  {
  }

  lemma PostedKept(b: Books, e: Event, paid: map<int, TxnId>, kind: LedgerKind, x: Option<int>)
    requires UsersOk(b) && TablesAllow(b.t, e) && AllPosted(b.t.transfers, b.rows, paid, kind)
    requires kind in {RequestPaid, LinkPaid}
    requires x.Some? <==> e.Paid? && DebitKind(e.pay.via) == kind
    ensures AllPosted(Apply(b, e).t.transfers, Apply(b, e).rows, Noted(paid, e, x), kind)
  {
    var b', paid' := Apply(b, e), Noted(paid, e, x);
    RowsGrow(b, e);
    forall y | y in paid'
      ensures PostedAs(b'.t.transfers, b'.rows, paid'[y], kind)
    {
      if x == Some(y) {
        PaymentPosts(b, e.pay);
      } else {
        assert PostedAs(b.t.transfers, b.rows, paid[y], kind);
        TransferStays(b.t, e, paid[y]);
        PostedGrows(b.t.transfers, b.rows, b'.t.transfers, b'.rows, paid[y], kind);
      }
    }
  }

  lemma NewIsUnpaid(b: Books, e: Event, paid: map<int, TxnId>, kind: LedgerKind)
    requires TablesAllow(b.t, e) && AllPosted(b.t.transfers, b.rows, paid, kind)
    ensures e.Paid? ==> forall y | y in paid :: paid[y] != e.pay.id
  {
    forall y | y in paid
      ensures paid[y] in b.t.transfers
    {
      assert PostedAs(b.t.transfers, b.rows, paid[y], kind);
    }
  }

  lemma NewRowIsTheEvents(b: Books, e: Event, u: UserId, k: nat)
    requires UsersOk(b) && TablesAllow(b.t, e) && u in Apply(b, e).rows
    requires |At(b.rows, u)| <= k < |Apply(b, e).rows[u]| && Apply(b, e).rows[u][k].kind in {RequestPaid, LinkPaid}
    ensures e.Paid? && Apply(b, e).rows[u][k].txn == e.pay.id && Apply(b, e).rows[u][k].kind == DebitKind(e.pay.via)
  {
    AtAfter(b, e, u);
    assert Apply(b, e).rows[u][k] == Written(b.t, e, u)[k - |At(b.rows, u)|];
    WrittenRow(b.t, e, u, k - |At(b.rows, u)|);
  }

  lemma WrittenRow(t: Tables, e: Event, u: UserId, k: nat)
    requires TablesAllow(t, e) && k < |Written(t, e, u)| && Written(t, e, u)[k].kind in {RequestPaid, LinkPaid}
    ensures e.Paid? && Written(t, e, u)[k].txn == e.pay.id && Written(t, e, u)[k].kind == DebitKind(e.pay.via)
  {
  }

  lemma NamesNew(paid: map<int, TxnId>, e: Event, x: int)
    requires e.Paid?
    ensures Names(Noted(paid, e, Some(x)), e.pay.id)
  {
    var noted := Noted(paid, e, Some(x));
    assert x in noted && noted[x] == e.pay.id;
  }

  lemma NamedKept(b: Books, e: Event, paid: map<int, TxnId>, kind: LedgerKind, x: Option<int>)
    requires UsersOk(b) && TablesAllow(b.t, e) && AllNamed(b.rows, paid, kind) && kind in {RequestPaid, LinkPaid}
    requires x.Some? <==> e.Paid? && DebitKind(e.pay.via) == kind
    requires x.Some? ==> x.value !in paid
    ensures AllNamed(Apply(b, e).rows, Noted(paid, e, x), kind)
  {
    var rows': Accounts := Apply(b, e).rows;
    RowsGrow(b, e);
    forall u, k | u in rows' && 0 <= k < |rows'[u]| && rows'[u][k].kind == kind
      ensures Names(Noted(paid, e, x), rows'[u][k].txn)
    {
      if k < |At(b.rows, u)| {
        NamesStay(b.rows, paid, kind, e, x, u, k);
        assert rows'[u][k] == At(b.rows, u)[k];
      } else {
        NewRowIsTheEvents(b, e, u, k);
        NamesNew(paid, e, x.value);
      }
    }
  }

  lemma NamesStay(rows: Accounts, paid: map<int, TxnId>, kind: LedgerKind, e: Event, x: Option<int>, u: UserId, k: nat)
    requires AllNamed(rows, paid, kind) && u in rows && k < |rows[u]| && rows[u][k].kind == kind
    requires x.Some? ==> x.value !in paid
    ensures Names(Noted(paid, e, x), rows[u][k].txn)
  {
    var y :| y in paid && paid[y] == rows[u][k].txn;
    assert Noted(paid, e, x)[y] == paid[y];
  }

  /** The request an event settles. */
  function RequestOf(e: Event): Option<RequestId> {
    if e.Paid? && e.pay.via.ByRequest? then Some(e.pay.via.request) else None
  }

  /** The transaction that settled each accepted request, read off the log. */
  function Settle(paid: map<RequestId, TxnId>, log: seq<Event>): map<RequestId, TxnId>
    decreases |log|
  {
    if log == [] then paid else Settle(Noted(paid, log[0], RequestOf(log[0])), log[1..])
  }

  /** `paid` holds exactly the accepted requests, each with a transfer on its own terms. */
  ghost predicate OnTerms(t: Tables, paid: map<RequestId, TxnId>) {
    && (forall r :: r in paid <==> r in t.requests && t.requests[r].status == Accepted)
    && (forall r | r in paid ::
          && paid[r] in t.transfers
          && t.transfers[paid[r]].sender == t.requests[r].debtor
          && t.transfers[paid[r]].recipient == t.requests[r].requester
          && t.transfers[paid[r]].amount == t.requests[r].amount)
  }

  ghost predicate Settled(b: Books, paid: map<RequestId, TxnId>) {
    OnTerms(b.t, paid) && OneToOne(b, paid, RequestPaid)
  }

  lemma OnTermsKept(t: Tables, e: Event, paid: map<RequestId, TxnId>)
    requires TablesAllow(t, e) && OnTerms(t, paid)
    ensures OnTerms(ApplyTables(t, e), Noted(paid, e, RequestOf(e)))
    ensures RequestOf(e).Some? ==> RequestOf(e).value !in paid
  {
  }

  /** Accepted requests correspond one to one with `request_paid` double entries of the same debtor,
      requester and amount, after every valid run. */
  lemma {:induction false} RequestsSettle(b: Books, log: seq<Event>, paid: map<RequestId, TxnId>)
    requires UsersOk(b) && ValidRun(b, log) && Settled(b, paid)
    ensures Settled(Replay(b, log), Settle(paid, log))
    decreases |log|
  {
    if log != [] {
      UsersKept(b, log[0]);
      OnTermsKept(b.t, log[0], paid);
      OneToOneKept(b, log[0], paid, RequestPaid, RequestOf(log[0]));
      RequestsSettle(Apply(b, log[0]), log[1..], Noted(paid, log[0], RequestOf(log[0])));
    }
  }

  lemma RequestStep(t: Tables, e: Event, r: RequestId)
    requires TablesAllow(t, e) && r in t.requests
    ensures r in ApplyTables(t, e).requests
    ensures t.requests[r].status != Pending ==> ApplyTables(t, e).requests[r] == t.requests[r]
    ensures ApplyTables(t, e).requests[r].(status := Pending) == t.requests[r].(status := Pending)
  {
  }

  /** A request that is no longer pending keeps its row for ever. */
  lemma {:induction false} RequestStatusFinal(b: Books, log: seq<Event>, r: RequestId)
    requires ValidRun(b, log) && r in b.t.requests
    ensures r in Replay(b, log).t.requests
    ensures b.t.requests[r].status != Pending ==> Replay(b, log).t.requests[r] == b.t.requests[r]
    ensures Replay(b, log).t.requests[r].(status := Pending) == b.t.requests[r].(status := Pending)
    decreases |log|
  {
    if log != [] {
      RequestStep(b.t, log[0], r);
      RequestStatusFinal(Apply(b, log[0]), log[1..], r);
    }
  }

  /** The transfer of each link that has paid. */
  function LinkTransfers(links: map<LinkId, Link>): map<LinkId, TxnId> {
    map l | l in links && links[l].transfer.Some? :: links[l].transfer.value
  }

  function LinkOf(e: Event): Option<LinkId> {
    if e.Paid? && e.pay.via.ByLink? then Some(e.pay.via.link) else None
  }

  lemma LinkTransfersStep(t: Tables, e: Event)
    requires TablesAllow(t, e) && (forall l :: LinkSaneAt(t, l))
    ensures LinkTransfers(ApplyTables(t, e).links) == Noted(LinkTransfers(t.links), e, LinkOf(e))
    ensures LinkOf(e).Some? ==> LinkOf(e).value !in LinkTransfers(t.links)
    ensures forall l :: LinkSaneAt(ApplyTables(t, e), l)
  {
    forall l
      ensures LinkSaneAt(ApplyTables(t, e), l)
    {
      LinkStep(t, e, l);
    }
    if LinkOf(e).Some? {
      assert LinkSaneAt(t, LinkOf(e).value);
    }
    assert LinkTransfers(ApplyTables(t, e).links) == Noted(LinkTransfers(t.links), e, LinkOf(e));
  }

  /** Links that were claimed correspond one to one with `link_paid` double entries. */
  lemma {:induction false} LinksSettle(b: Books, log: seq<Event>)
    requires UsersOk(b) && (forall l :: LinkSaneAt(b.t, l)) && ValidRun(b, log)
    requires OneToOne(b, LinkTransfers(b.t.links), LinkPaid)
    ensures OneToOne(Replay(b, log), LinkTransfers(Replay(b, log).t.links), LinkPaid)
    decreases |log|
  {
    if log != [] {
      UsersKept(b, log[0]);
      LinkTransfersStep(b.t, log[0]);
      OneToOneKept(b, log[0], LinkTransfers(b.t.links), LinkPaid, LinkOf(log[0]));
      LinksSettle(Apply(b, log[0]), log[1..]);
    }
  }
}
