/**
  The engine as it runs: many requests in flight, each a database transaction that advances one
  statement at a time. Row locks (`FOR UPDATE`) and the uncommitted unique-index entries are held to the
  end; a statement that needs a lock another transaction holds cannot run. Ledger and history rows take
  the next id when they are inserted and become visible when their writer commits. Any transaction may
  abort before any statement (a lost connection, a failed constraint that is not modelled).

  A transaction is named by its position in `txns`; the UUIDs it generates are that fresh number.
*/
module Transactions {
  import opened Model
  import opened Books

  datatype Op =
    | TransferOp(sender: UserId, recipient: UserId, amount: int, key: Key, reference: Reference, day: Day)
    | AcceptOp(actor: UserId, request: RequestId, key: Key, reference: Reference)
    | ClaimOp(actor: UserId, link: LinkId, key: Key, reference: Reference)
    | RegisterOp(user: UserId, reference: Reference)
    | MakeLinkOp(link: LinkId, creator: UserId, amount: int, expiresAt: Time)
    | MakeRequestOp(request: RequestId, requester: UserId, debtor: UserId, amount: int)
    | CancelLinkOp(actor: UserId, link: LinkId)
    | CloseRequestOp(actor: UserId, request: RequestId, status: RequestStatus)
    | ViewLinkOp(link: LinkId)

  /** Where a transaction stands: what its next statement is. */
  datatype Pc =
    | Start
    | Drawing                      // key lookup missed, amount within the per-transfer cap
    | Ready                        // terms fixed (and the request or link row locked)
    | OneLock                      // lower balance row locked and read
    | TwoLocks                     // both balance rows locked, funds checked
    | KeyHeld                      // transfers row inserted
    | DebitIn | CreditIn           // ledger rows inserted
    | SentIn | ReceivedIn          // history rows inserted
    | Refusing                     // over a cap: about to insert the rejected or flagged row
    | RefusalKeyed | RefusalLogged
    | Closing                      // request or link row locked, a status write to commit
    | Stale                        // an unlocked read saw an active, lapsed link
    | FundingIn | FundingLogged    // registration: funding rows inserted
    | Done                         // committed
    | Ended                        // finished or aborted with nothing committed

  /** `pay` holds the terms once they are known, `low` and `high` the locked balances as read,
      `status` why a transfer is refused, `now` the clock read that lapsed a link, `passed` whether the
      transfer drew a daily total within the cap, and `begun` when its database transaction began: what
      `now()` is in the rows it inserts. A transfer begins it after its lookup and its draw. */
  datatype Txn = Txn(
    op: Op, pc: Pc, pay: Payment, low: int, high: int, status: Status, now: Time, passed: bool, begun: Time)

  /** A row in insertion order. `account` is the user whose statement the row belongs to, if any. */
  datatype Slot<T> = Slot(writer: nat, account: Option<UserId>, row: T)

  datatype Sys = Sys(t: Tables, ledger: seq<Slot<LedgerRow>>, history: seq<Slot<HistoryRow>>, txns: seq<Txn>)

  const Boot := Sys(NoTables, [], [], [])

  datatype Resource =
    | RequestRow(request: RequestId) | LinkRow(link: LinkId) | BalanceRow(user: UserId)
    | UserRow(newUser: UserId) | KeyEntry(key: Key)

  predicate InFlight(x: Txn) { x.pc != Done && x.pc != Ended }

  // ---------- locks ----------

  function Lower(p: Payment): UserId { if p.payer < p.payee then p.payer else p.payee }
  function Upper(p: Payment): UserId { if p.payer < p.payee then p.payee else p.payer }

  function RowLock(op: Op): set<Resource> {
    match op
    case AcceptOp(_, r, _, _) => {RequestRow(r)}
    case CloseRequestOp(_, r, _) => {RequestRow(r)}
    case ClaimOp(_, l, _, _) => {LinkRow(l)}
    case CancelLinkOp(_, l) => {LinkRow(l)}
    case _ => {}
  }

  function Holds(x: Txn): set<Resource> {
    match x.pc
    case Ready => RowLock(x.op)
    case Closing => RowLock(x.op)
    case OneLock => RowLock(x.op) + {BalanceRow(Lower(x.pay))}
    case TwoLocks => RowLock(x.op) + {BalanceRow(Lower(x.pay)), BalanceRow(Upper(x.pay))}
    case KeyHeld => PayingLocks(x)
    case DebitIn => PayingLocks(x)
    case CreditIn => PayingLocks(x)
    case SentIn => PayingLocks(x)
    case ReceivedIn => PayingLocks(x)
    case RefusalKeyed => {KeyEntry(x.pay.key)}
    case RefusalLogged => {KeyEntry(x.pay.key)}
    case FundingIn => NewUserLock(x.op)
    case FundingLogged => NewUserLock(x.op)
    case _ => {}
  }

  function PayingLocks(x: Txn): set<Resource> {
    RowLock(x.op) + {BalanceRow(Lower(x.pay)), BalanceRow(Upper(x.pay)), KeyEntry(x.pay.key)}
  }

  function NewUserLock(op: Op): set<Resource> {
    if op.RegisterOp? then {UserRow(op.user)} else {}
  }

  /** The lock the next statement must get. */
  function Wants(x: Txn): Option<Resource> {
    match x.pc
    case Start =>
      (match x.op
       case AcceptOp(_, r, _, _) => Some(RequestRow(r))
       case CloseRequestOp(_, r, _) => Some(RequestRow(r))
       case ClaimOp(_, l, _, _) => Some(LinkRow(l))
       case CancelLinkOp(_, l) => Some(LinkRow(l))
       case RegisterOp(u, _) => Some(UserRow(u))
       case _ => None)
    case Ready => Some(BalanceRow(Lower(x.pay)))
    case OneLock => Some(BalanceRow(Upper(x.pay)))
    case TwoLocks => Some(KeyEntry(x.pay.key))
    case Refusing => Some(KeyEntry(x.pay.key))
    case Stale => if x.op.ViewLinkOp? then Some(LinkRow(x.op.link)) else None
    case _ => None
  }

  /** The lock transaction `i` needs next is not held by another. */
  predicate Free(s: Sys, i: nat)
    requires i < |s.txns|
  {
    Wants(s.txns[i]).Some? ==> forall j | 0 <= j < |s.txns| && j != i :: Wants(s.txns[i]).value !in Holds(s.txns[j])
  }

  // ---------- one statement ----------

  /** What a statement does: move on, insert a row, or make an event visible to everyone. */
  datatype Effect =
    | Move(next: Txn)
    | InsertLedger(next: Txn, entry: LedgerRow)
    | InsertHistory(next: Txn, account: Option<UserId>, item: HistoryRow)
    | Emit(next: Txn, event: Event)

  function PayerBalance(x: Txn): int { if x.pay.payer < x.pay.payee then x.low else x.high }
  function PayeeBalance(x: Txn): int { if x.pay.payer < x.pay.payee then x.high else x.low }

  function End(x: Txn): Effect { Move(x.(pc := Ended)) }

  function Statement(t: Tables, x: Txn, i: nat, now: Time): Effect {
    match x.pc
    case Start => First(t, x, i, now)
    case Drawing => Draw(t, x, now)
    case Ready =>
      if Lower(x.pay) in t.balances then Move(x.(pc := OneLock, low := t.balances[Lower(x.pay)].amount)) else End(x)
    case OneLock =>
      if Upper(x.pay) in t.balances then
        var y := x.(pc := TwoLocks, high := t.balances[Upper(x.pay)].amount);
        if PayerBalance(y) < x.pay.amount then End(x) else Move(y)
      else End(x)
    case TwoLocks => if x.pay.key in t.keys then End(x) else Move(x.(pc := KeyHeld))
    case KeyHeld => InsertLedger(x.(pc := DebitIn), DebitRow(x.pay, PayerBalance(x) - x.pay.amount))
    case DebitIn => InsertLedger(x.(pc := CreditIn), CreditRow(x.pay, PayeeBalance(x) + x.pay.amount))
    case CreditIn =>
      InsertHistory(x.(pc := SentIn), Some(x.pay.payer), SentHistory(x.pay, PayerBalance(x) - x.pay.amount))
    case SentIn =>
      InsertHistory(x.(pc := ReceivedIn), Some(x.pay.payee), ReceivedHistory(x.pay, PayeeBalance(x) + x.pay.amount))
    case ReceivedIn => Emit(x.(pc := Done), Paid(x.pay))
    case Refusing =>
      if x.pay.key !in t.keys && x.pay.payer in t.balances && x.pay.payee in t.balances
      then Move(x.(pc := RefusalKeyed)) else End(x)
    case RefusalKeyed =>
      var balance := if x.pay.payer in t.balances then t.balances[x.pay.payer].amount else 0;
      InsertHistory(x.(pc := RefusalLogged), None, RefusedHistory(x.pay, x.status, balance))
    case RefusalLogged => Emit(x.(pc := Done), Blocked(RefusedRow(x.pay, x.status)))
    case Closing => Emit(x.(pc := Done), ClosingEvent(x))
    case Stale => if x.op.ViewLinkOp? then Emit(x.(pc := Done), LinkLapsed(x.op.link, x.now)) else End(x)
    case FundingIn =>
      if x.op.RegisterOp? then
        InsertHistory(x.(pc := FundingLogged), Some(x.op.user), FundingHistory(x.op.user, i, x.op.reference))
      else End(x)
    case FundingLogged =>
      if x.op.RegisterOp? then Emit(x.(pc := Done), Registered(x.op.user, i, x.op.reference)) else End(x)
    case Done => Move(x)
    case Ended => Move(x)
  }

  function ClosingEvent(x: Txn): Event {
    match x.op
    case CloseRequestOp(_, r, status) => RequestClosed(r, status)
    case CancelLinkOp(_, l) => LinkWithdrawn(l)
    case ClaimOp(_, l, _, _) => LinkLapsed(l, x.now)
    case _ => LinkLapsed(0, 0)
  }

  /** The Redis INCR of `daily_outflow`, and the cap test on what it returns. */
  function Draw(t: Tables, x: Txn, now: Time): Effect {
    if x.op.TransferOp? then
      var within := Outflow(t, x.op.sender, x.op.day) + x.op.amount <= DAILY_OUTFLOW_CAP_PAISA;
      Emit(if within then x.(pc := Ready, passed := true, begun := now)
           else x.(pc := Refusing, status := Flagged, begun := now),
           Drew(x.op.sender, x.op.day, x.op.amount))
    else End(x)
  }

  /** The first statement: the key lookup, the row lock with its checks, or a whole insert. */
  function First(t: Tables, x: Txn, i: nat, now: Time): Effect {
    match x.op
    case TransferOp(_, _, amount, key, _, _) =>
      if key in t.keys then End(x)
      else if amount > PER_TRANSFER_CAP_PAISA then Move(x.(pc := Refusing, status := Rejected, begun := now))
      else Move(x.(pc := Drawing))
    case AcceptOp(actor, r, key, reference) =>
      if r in t.requests && t.requests[r].status == Pending && t.requests[r].debtor == actor then
        var q := t.requests[r];
        Move(x.(pc := Ready, pay := Payment(ByRequest(r), q.debtor, q.requester, q.amount, i, reference, key)))
      else End(x)
    case ClaimOp(actor, l, key, reference) =>
      if l !in t.links || t.links[l].status == Claimed then End(x)
      else if t.links[l].status == Expired || t.links[l].expiresAt < now then Move(x.(pc := Closing, now := now))
      else if t.links[l].status == Cancelled || t.links[l].creator == actor then End(x)
      else
        var k := t.links[l];
        Move(x.(pc := Ready, pay := Payment(ByLink(l, now), k.creator, actor, k.amount, i, reference, key)))
    case RegisterOp(u, reference) =>
      if u in t.balances then End(x) else InsertLedger(x.(pc := FundingIn), FundingRow(u, i, reference))
    case MakeLinkOp(l, creator, amount, expiresAt) =>
      if l !in t.links && creator in t.balances && 0 < amount
      then Emit(x.(pc := Done), LinkMade(l, creator, amount, expiresAt)) else End(x)
    case MakeRequestOp(r, requester, debtor, amount) =>
      if r !in t.requests && requester in t.balances && debtor in t.balances && requester != debtor && 0 < amount
      then Emit(x.(pc := Done), RequestMade(r, requester, debtor, amount)) else End(x)
    case CancelLinkOp(actor, l) =>
      if l in t.links && t.links[l].creator == actor && t.links[l].status in {Active, Cancelled}
      then Move(x.(pc := Closing)) else End(x)
    case CloseRequestOp(actor, r, status) =>
      if r in t.requests && t.requests[r].status == Pending && Closer(t.requests[r], status) == Some(actor)
      then Move(x.(pc := Closing)) else End(x)
    case ViewLinkOp(l) =>
      if l in t.links && t.links[l].status == Active && t.links[l].expiresAt < now
      then Move(x.(pc := Stale, now := now)) else End(x)
  }

  // ---------- the machine ----------

  datatype Act = Begin(op: Op, now: Time) | Step(i: nat, now: Time) | Abort(i: nat)

  /** What the handlers have checked before the transaction starts. */
  predicate Valid(op: Op) {
    op.TransferOp? ==> op.sender != op.recipient && 0 < op.amount
  }

  predicate Can(s: Sys, act: Act) {
    match act
    case Begin(op, _) => Valid(op)
    case Step(i, _) => i < |s.txns| && InFlight(s.txns[i]) && Free(s, i)
    case Abort(i) => i < |s.txns| && InFlight(s.txns[i])
  }

  function NewTxn(op: Op, i: nat, now: Time): Txn {
    var pay := if op.TransferOp? then Payment(Direct, op.sender, op.recipient, op.amount, i, op.reference, op.key)
               else Payment(Direct, 0, 0, 0, i, 0, 0);
    Txn(op, Start, pay, 0, 0, Completed, 0, false, now)
  }

  /** The event that becomes visible with this action, if one does. */
  function Emitted(s: Sys, act: Act): seq<Event>
    requires Can(s, act)
  {
    match act
    case Step(i, now) =>
      var f := Statement(s.t, s.txns[i], i, now);
      if f.Emit? && TablesAllow(s.t, f.event) then [f.event] else []
    case _ => []
  }

  /** A write the tables' constraints refuse ends its transaction. */
  function Next(s: Sys, act: Act): Sys
    requires Can(s, act)
  {
    match act
    case Begin(op, now) => s.(txns := s.txns + [NewTxn(op, |s.txns|, now)])
    case Abort(i) => s.(txns := s.txns[i := s.txns[i].(pc := Ended)])
    case Step(i, now) =>
      match Statement(s.t, s.txns[i], i, now)
      case Move(y) => s.(txns := s.txns[i := y])
      case InsertLedger(y, entry) =>
        s.(txns := s.txns[i := y], ledger := s.ledger + [Slot(i, Some(entry.user), entry)])
      case InsertHistory(y, account, item) =>
        s.(txns := s.txns[i := y], history := s.history + [Slot(i, account, item)])
      case Emit(y, e) =>
        if TablesAllow(s.t, e) then s.(txns := s.txns[i := y], t := ApplyTables(s.t, e))
        else s.(txns := s.txns[i := s.txns[i].(pc := Ended)])
  }

  predicate CanRun(s: Sys, acts: seq<Act>)
    decreases |acts|
  {
    acts == [] || (Can(s, acts[0]) && CanRun(Next(s, acts[0]), acts[1..]))
  }

  function Run(s: Sys, acts: seq<Act>): Sys
    requires CanRun(s, acts)
    decreases |acts|
  {
    if acts == [] then s else Run(Next(s, acts[0]), acts[1..])
  }

  /** The committed events of a run, in commit order (with each counter increment where it happened). */
  function LogOf(s: Sys, acts: seq<Act>): seq<Event>
    requires CanRun(s, acts)
    decreases |acts|
  {
    if acts == [] then [] else Emitted(s, acts[0]) + LogOf(Next(s, acts[0]), acts[1..])
  }

  // ---------- what is visible ----------

  function Commits(txns: seq<Txn>): set<nat> {
    set i: nat | i < |txns| && txns[i].pc == Done
  }

  /** The rows of user `u`'s statement written by the transactions in `c`, in id order. */
  function Seen<T>(slots: seq<Slot<T>>, c: set<nat>, u: UserId): seq<T> {
    if slots == [] then []
    else
      var last := slots[|slots| - 1];
      Seen(slots[..|slots| - 1], c, u) + (if last.writer in c && last.account == Some(u) then [last.row] else [])
  }
}
