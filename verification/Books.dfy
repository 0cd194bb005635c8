/**
  The atomic state machine of the engine. Every committed effect of a service is one `Event`;
  `Apply` performs it on the tables, on each user's ledger rows and on each user's completed history
  rows. `Enabled` is what the service, holding its locks, has checked when it commits.
*/
module Books {
  import opened Model

  datatype Via = Direct | ByRequest(request: RequestId) | ByLink(link: LinkId, now: Time)

  datatype Payment = Payment(
    via: Via, payer: UserId, payee: UserId, amount: int, id: TxnId, reference: Reference, key: Key)

  datatype Event =
    | Registered(user: UserId, txn: TxnId, reference: Reference)
    | Drew(sender: UserId, day: Day, drawn: int)
    | Blocked(row: TransferRow)
    | Paid(pay: Payment)
    | LinkMade(link: LinkId, creator: UserId, amount: int, expiresAt: Time)
    | LinkLapsed(link: LinkId, now: Time)
    | LinkWithdrawn(link: LinkId)
    | RequestMade(request: RequestId, requester: UserId, debtor: UserId, amount: int)
    | RequestClosed(request: RequestId, status: RequestStatus)

  /** The books: the tables, and per user the ledger rows and the completed history rows in id order. */
  datatype Books = Books(
    t: Tables, rows: Accounts, done: Histories)

  const NoBooks := Books(NoTables, map[], map[])

  // ---------- the rows an event writes ----------

  function FundingRow(user: UserId, txn: TxnId, reference: Reference): LedgerRow {
    LedgerRow(txn, reference, user, None, 1, SEED_BALANCE_PAISA, SEED_BALANCE_PAISA, Funding, None)
  }

  function FundingHistory(user: UserId, txn: TxnId, reference: Reference): HistoryRow {
    HistoryRow(user, Completed, HistoryFunding, Received, SEED_BALANCE_PAISA, SEED_BALANCE_PAISA,
               None, reference, txn, None)
  }

  function DebitKind(via: Via): LedgerKind {
    match via case Direct => TransferSent case ByRequest(_) => RequestPaid case ByLink(_, _) => LinkPaid
  }

  function CreditKind(via: Via): LedgerKind {
    match via case Direct => TransferReceived case ByRequest(_) => RequestPaid case ByLink(_, _) => LinkPaid
  }

  function KindOf(via: Via): HistoryKind {
    match via case Direct => HistoryTransfer case ByRequest(_) => HistoryRequest case ByLink(_, _) => HistoryLink
  }

  function DebitRow(p: Payment, running: int): LedgerRow {
    LedgerRow(p.id, p.reference, p.payer, Some(p.payee), -1, p.amount, running, DebitKind(p.via), Some(p.key))
  }

  function CreditRow(p: Payment, running: int): LedgerRow {
    LedgerRow(p.id, p.reference, p.payee, Some(p.payer), 1, p.amount, running, CreditKind(p.via), Some(p.key))
  }

  function SentHistory(p: Payment, after: int): HistoryRow {
    HistoryRow(p.payer, Completed, KindOf(p.via), Sent, p.amount, after,
               Some(p.payee), p.reference, p.id, Some(p.key))
  }

  function ReceivedHistory(p: Payment, after: int): HistoryRow {
    HistoryRow(p.payee, Completed, KindOf(p.via), Received, p.amount, after,
               Some(p.payer), p.reference, p.id, Some(p.key))
  }

  function CompletedRow(p: Payment): TransferRow {
    TransferRow(p.id, p.reference, p.payer, p.payee, p.amount, Completed, p.key)
  }

  /** The `transfers` row of a transfer over a cap: rejected, or flagged by the daily cap. */
  function RefusedRow(p: Payment, status: Status): TransferRow {
    TransferRow(p.id, p.reference, p.payer, p.payee, p.amount, status, p.key)
  }

  function RefusedHistory(p: Payment, status: Status, balance: int): HistoryRow {
    HistoryRow(p.payer, status, HistoryTransfer, Sent, p.amount, balance, Some(p.payee), p.reference, p.id, Some(p.key))
  }

  /** Who may close a request: the debtor rejects, the requester cancels. */
  function Closer(q: Request, status: RequestStatus): Option<UserId> {
    match status
    case RequestRejected => Some(q.debtor)
    case RequestCancelled => Some(q.requester)
    case _ => None
  }

  // ---------- enabling conditions ----------

  /** What the three payment paths have in common when they commit. */
  predicate CanPay(t: Tables, p: Payment) {
    && p.payer != p.payee && p.payer in t.balances && p.payee in t.balances
    && 0 < p.amount <= t.balances[p.payer].amount
    && p.id !in t.transfers && p.key !in t.keys
  }

  predicate ViaOk(t: Tables, p: Payment) {
    match p.via
    case Direct => p.amount <= PER_TRANSFER_CAP_PAISA
    case ByRequest(r) => r in t.requests && t.requests[r] == Request(p.payee, p.payer, p.amount, Pending)
    case ByLink(l, now) =>
      && l in t.links && t.links[l].status == Active && t.links[l].creator == p.payer
      && t.links[l].amount == p.amount && now <= t.links[l].expiresAt
  }

  ghost predicate FreshTxn(rows: Accounts, txn: TxnId) {
    forall u, k | u in rows && 0 <= k < |rows[u]| :: rows[u][k].txn != txn
  }

  /** The part of `Enabled` that the tables decide. */
  predicate TablesAllow(t: Tables, e: Event) {
    match e
    case Registered(u, txn, _) => u !in t.balances && txn !in t.transfers
    case Drew(_, _, drawn) => 0 < drawn <= PER_TRANSFER_CAP_PAISA
    case Blocked(row) =>
      && row.sender != row.recipient && row.sender in t.balances && row.recipient in t.balances
      && 0 < row.amount && row.status != Completed && row.id !in t.transfers && row.key !in t.keys
    case Paid(p) => CanPay(t, p) && ViaOk(t, p)
    case LinkMade(l, creator, amount, _) => l !in t.links && creator in t.balances && 0 < amount
    case LinkLapsed(l, now) => l in t.links && (t.links[l].expiresAt < now || t.links[l].status == Expired)
    case LinkWithdrawn(l) => l in t.links && t.links[l].status in {Active, Cancelled}
    case RequestMade(r, requester, debtor, amount) =>
      r !in t.requests && requester in t.balances && debtor in t.balances && requester != debtor && 0 < amount
    case RequestClosed(r, status) =>
      r in t.requests && t.requests[r].status == Pending && status in {RequestRejected, RequestCancelled}
  }

  ghost predicate Enabled(b: Books, e: Event) {
    && TablesAllow(b.t, e)
    && (e.Registered? ==> FreshTxn(b.rows, e.txn))
    && (e.Paid? ==> FreshTxn(b.rows, e.pay.id))
  }

  // ---------- effects ----------

  function PayBalances(m: map<UserId, Balance>, p: Payment): map<UserId, Balance>
    requires p.payer in m && p.payee in m
  {
    var debited := Balance(m[p.payer].amount - p.amount, m[p.payer].version + 1);
    var credited := Balance(m[p.payee].amount + p.amount, m[p.payee].version + 1);
    m[p.payer := debited][p.payee := credited]
  }

  function CloseLink(links: map<LinkId, Link>, p: Payment): map<LinkId, Link> {
    match p.via
    case ByLink(l, _) =>
      if l in links
      then links[l := links[l].(status := Claimed, claimer := Some(p.payee), transfer := Some(p.id))]
      else links
    case _ => links
  }

  function CloseRequest(requests: map<RequestId, Request>, p: Payment): map<RequestId, Request> {
    match p.via
    case ByRequest(r) => if r in requests then requests[r := requests[r].(status := Accepted)] else requests
    case _ => requests
  }

  predicate IsClaimed(t: Tables, l: LinkId) {
    l in t.links && t.links[l].status == Claimed
  }

  function ApplyTables(t: Tables, e: Event): Tables
    requires TablesAllow(t, e)
  {
    match e
    case Registered(u, _, _) => t.(users := t.users + [u], balances := t.balances[u := Balance(SEED_BALANCE_PAISA, 0)])
    case Drew(s, d, drawn) => t.(outflow := t.outflow[(s, d) := Outflow(t, s, d) + drawn])
    case Blocked(row) => t.(transfers := t.transfers[row.id := row], keys := t.keys[row.key := row.id])
    case Paid(p) =>
      t.(balances := PayBalances(t.balances, p),
         transfers := t.transfers[p.id := CompletedRow(p)],
         keys := t.keys[p.key := p.id],
         links := CloseLink(t.links, p),
         requests := CloseRequest(t.requests, p))
    case LinkMade(l, creator, amount, expiresAt) =>
      t.(links := t.links[l := Link(creator, amount, Active, None, None, expiresAt)])
    case LinkLapsed(l, _) => t.(links := t.links[l := t.links[l].(status := Expired)])
    case LinkWithdrawn(l) => t.(links := t.links[l := t.links[l].(status := Cancelled)])
    case RequestMade(r, requester, debtor, amount) =>
      t.(requests := t.requests[r := Request(requester, debtor, amount, Pending)])
    case RequestClosed(r, status) => t.(requests := t.requests[r := t.requests[r].(status := status)])
  }

  /** The ledger rows an event writes for user `u`. */
  function Written(t: Tables, e: Event, u: UserId): seq<LedgerRow>
    requires TablesAllow(t, e)
  {
    match e
    case Registered(v, txn, reference) => if u == v then [FundingRow(v, txn, reference)] else []
    case Paid(p) =>
      if u == p.payer then [DebitRow(p, t.balances[p.payer].amount - p.amount)]
      else if u == p.payee then [CreditRow(p, t.balances[p.payee].amount + p.amount)]
      else []
    case _ => []
  }

  /** The completed history rows an event writes for user `u`. */
  function Logged(t: Tables, e: Event, u: UserId): seq<HistoryRow>
    requires TablesAllow(t, e)
  {
    match e
    case Registered(v, txn, reference) => if u == v then [FundingHistory(v, txn, reference)] else []
    case Paid(p) =>
      if u == p.payer then [SentHistory(p, t.balances[p.payer].amount - p.amount)]
      else if u == p.payee then [ReceivedHistory(p, t.balances[p.payee].amount + p.amount)]
      else []
    case _ => []
  }

  function At<T>(m: map<UserId, seq<T>>, u: UserId): seq<T> {
    if u in m then m[u] else []
  }

  function Apply(b: Books, e: Event): Books
    requires TablesAllow(b.t, e)
  {
    var t := ApplyTables(b.t, e);
    Books(t,
          map u | u in t.balances :: At(b.rows, u) + Written(b.t, e, u),
          map u | u in t.balances :: At(b.done, u) + Logged(b.t, e, u))
  }

  // ---------- runs ----------

  ghost predicate ValidRun(b: Books, log: seq<Event>)
    decreases |log|
  {
    log == [] || (Enabled(b, log[0]) && ValidRun(Apply(b, log[0]), log[1..]))
  }

  ghost function Replay(b: Books, log: seq<Event>): Books
    requires ValidRun(b, log)
    decreases |log|
  {
    if log == [] then b else Replay(Apply(b, log[0]), log[1..])
  }

  lemma {:induction false} RunExtends(b: Books, log: seq<Event>, e: Event)
    requires ValidRun(b, log) && Enabled(Replay(b, log), e)
    ensures ValidRun(b, log + [e]) && Replay(b, log + [e]) == Apply(Replay(b, log), e)
    decreases |log|
  {
    if log == [] {
      assert (log + [e])[1..] == [];
    } else {
      RunExtends(Apply(b, log[0]), log[1..], e);
      assert (log + [e])[1..] == log[1..] + [e];
    }
  }
}
