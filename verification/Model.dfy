/**
  The tables of the payment store: one datatype per row of `migrations/0001_init.sql`,
  the constants the services share, and the CHECK constraints as row predicates.
  Identifiers are UUIDs in the database; only their equality and their order are ever used,
  so they are integers here.
*/
module Model {
  datatype Option<+T> = None | Some(value: T)

  type UserId = int
  type TxnId = int
  type Key = int
  type Reference = int
  type LinkId = int
  type RequestId = int
  type Day = int
  type Time = int

  // Amounts are in paisa.
  const SEED_BALANCE_PAISA: int := 10_000_000
  const PER_TRANSFER_CAP_PAISA: int := 5_000_000
  const DAILY_OUTFLOW_CAP_PAISA: int := 20_000_000
  const I64_MAX: int := 0x7fff_ffff_ffff_ffff

  datatype Balance = Balance(amount: int, version: int)

  datatype LedgerKind = Funding | TransferSent | TransferReceived | RequestPaid | LinkPaid

  datatype LedgerRow = LedgerRow(
    txn: TxnId, reference: Reference, user: UserId, counterparty: Option<UserId>,
    direction: int, amount: int, running: int, kind: LedgerKind, key: Option<Key>)
  {
    function Delta(): int { amount * direction }
  }

  datatype Status = Completed | Rejected | Flagged

  datatype Flow = Sent | Received

  datatype HistoryKind = HistoryTransfer | HistoryFunding | HistoryRequest | HistoryLink

  datatype HistoryRow = HistoryRow(
    user: UserId, status: Status, kind: HistoryKind, flow: Flow, amount: int, balanceAfter: int,
    counterparty: Option<UserId>, reference: Reference, entity: TxnId, key: Option<Key>)

  datatype TransferRow = TransferRow(
    id: TxnId, reference: Reference, sender: UserId, recipient: UserId, amount: int, status: Status, key: Key)

  datatype LinkStatus = Active | Claimed | Expired | Cancelled

  datatype Link = Link(
    creator: UserId, amount: int, status: LinkStatus,
    claimer: Option<UserId>, transfer: Option<TxnId>, expiresAt: Time)

  datatype RequestStatus = Pending | Accepted | RequestRejected | RequestCancelled

  datatype Request = Request(requester: UserId, debtor: UserId, amount: int, status: RequestStatus)

  /** The mutable tables, and the Redis counters `daily_outflow:{sender}:{day}`.
      `keys` is the UNIQUE index on `transfers.idempotency_key`. */
  datatype Tables = Tables(
    users: seq<UserId>,
    balances: map<UserId, Balance>,
    transfers: map<TxnId, TransferRow>,
    keys: map<Key, TxnId>,
    links: map<LinkId, Link>,
    requests: map<RequestId, Request>,
    outflow: map<(UserId, Day), int>)

  const NoTables := Tables([], map[], map[], map[], map[], map[], map[])

  function Outflow(t: Tables, sender: UserId, day: Day): int {
    if (sender, day) in t.outflow then t.outflow[(sender, day)] else 0
  }

  predicate Covers(users: seq<UserId>, balances: map<UserId, Balance>) {
    forall i | 0 <= i < |users| :: users[i] in balances
  }

  /** `SELECT COALESCE(SUM(amount_paisa), 0) FROM balances`: every balance row belongs to a listed user. */
  function Total(users: seq<UserId>, balances: map<UserId, Balance>): int {
    if users == [] then 0
    else
      var last := users[|users| - 1];
      Total(users[..|users| - 1], balances) + (if last in balances then balances[last].amount else 0)
  }

  /** Per user, the ledger rows in id order. */
  type Accounts = map<UserId, seq<LedgerRow>>

  /** Per user, the completed history rows in id order. */
  type Histories = map<UserId, seq<HistoryRow>>

  predicate NoDuplicates<T(==)>(s: seq<T>) {
    forall i, j | 0 <= i < j < |s| :: s[i] != s[j]
  }
}
