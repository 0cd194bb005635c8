/**
  The lock discipline at work: no resource has two holders, and what a transaction has read and checked
  under its locks is still true at its next statement, whatever the others commit in between.
*/
module Locking {
  import opened Model
  import opened Books
  import opened Transactions
  import opened Invariants

  ghost predicate Exclusive(txns: seq<Txn>) {
    forall i, j | 0 <= i < j < |txns| :: Holds(txns[i]) !! Holds(txns[j])
  }

  /** Terms of a payment as far as one transaction fixes them. */
  ghost predicate TermsOk(t: Tables, p: Payment, i: nat) {
    p.payer != p.payee && 0 < p.amount && p.id == i && ViaOk(t, p)
  }

  /** The payment is for the operation: the row it settles is the row locked, the debtor pays, the claimer
      is paid, and key and reference are the caller's. */
  ghost predicate ViaLocked(x: Txn) {
    match x.pay.via
    case Direct =>
      && x.op.TransferOp? && x.pay.payer == x.op.sender && x.pay.payee == x.op.recipient
      && x.pay.amount == x.op.amount && x.pay.key == x.op.key && x.pay.reference == x.op.reference
    case ByRequest(r) =>
      && x.op.AcceptOp? && x.op.request == r && x.pay.payer == x.op.actor
      && x.pay.key == x.op.key && x.pay.reference == x.op.reference
    case ByLink(l, _) =>
      && x.op.ClaimOp? && x.op.link == l && x.pay.payee == x.op.actor
      && x.pay.key == x.op.key && x.pay.reference == x.op.reference
  }

  ghost predicate LowRead(t: Tables, x: Txn) {
    Lower(x.pay) in t.balances && t.balances[Lower(x.pay)].amount == x.low
  }

  ghost predicate HighRead(t: Tables, x: Txn) {
    Upper(x.pay) in t.balances && t.balances[Upper(x.pay)].amount == x.high && x.pay.amount <= PayerBalance(x)
  }

  ghost predicate DirectTerms(x: Txn, i: nat) {
    && x.op.TransferOp? && x.op.sender != x.op.recipient && 0 < x.op.amount
    && x.pay == Payment(Direct, x.op.sender, x.op.recipient, x.op.amount, i, x.op.reference, x.op.key)
  }

  /** Rejected for the per-transfer cap, or within it and flagged for the day's. */
  ghost predicate OverCap(x: Txn) {
    x.op.TransferOp? && x.status == if x.op.amount > PER_TRANSFER_CAP_PAISA then Rejected else Flagged
  }

  ghost predicate RefusedOk(t: Tables, x: Txn) {
    x.pay.payer in t.balances && x.pay.payee in t.balances && x.pay.key !in t.keys
  }

  ghost predicate ClosingOk(t: Tables, x: Txn) {
    match x.op
    case ClaimOp(_, l, _, _) =>
      l in t.links && t.links[l].status != Claimed && (t.links[l].status == Expired || t.links[l].expiresAt < x.now)
    case CancelLinkOp(actor, l) =>
      l in t.links && t.links[l].status in {Active, Cancelled} && t.links[l].creator == actor
    case CloseRequestOp(actor, r, status) =>
      r in t.requests && t.requests[r].status == Pending && Closer(t.requests[r], status) == Some(actor)
    case _ => false
  }

  /** What transaction `i` relies on before its next statement. */
  ghost predicate TxnOk(t: Tables, x: Txn, i: nat) {
    match x.pc
    case Start => x.op.TransferOp? ==> DirectTerms(x, i)
    case Drawing => DirectTerms(x, i) && x.op.amount <= PER_TRANSFER_CAP_PAISA
    case Ready => TermsOk(t, x.pay, i) && ViaLocked(x)
    case OneLock => TermsOk(t, x.pay, i) && ViaLocked(x) && LowRead(t, x)
    case TwoLocks => TermsOk(t, x.pay, i) && ViaLocked(x) && LowRead(t, x) && HighRead(t, x)
    case KeyHeld => PayingOk(t, x, i)
    case DebitIn => PayingOk(t, x, i)
    case CreditIn => PayingOk(t, x, i)
    case SentIn => PayingOk(t, x, i)
    case ReceivedIn => PayingOk(t, x, i)
    case Refusing => DirectTerms(x, i) && OverCap(x)
    case RefusalKeyed => DirectTerms(x, i) && OverCap(x) && RefusedOk(t, x)
    case RefusalLogged => DirectTerms(x, i) && OverCap(x) && RefusedOk(t, x)
    case Closing => ClosingOk(t, x)
    case Stale => x.op.ViewLinkOp? && x.op.link in t.links && t.links[x.op.link].expiresAt < x.now
    case FundingIn => x.op.RegisterOp? && x.op.user !in t.balances
    case FundingLogged => x.op.RegisterOp? && x.op.user !in t.balances
    case Done => true
    case Ended => true
  }

  ghost predicate PayingOk(t: Tables, x: Txn, i: nat) {
    TermsOk(t, x.pay, i) && ViaLocked(x) && LowRead(t, x) && HighRead(t, x) && x.pay.key !in t.keys
  }

  /** Only committed transactions have rows in `transfers`. */
  ghost predicate IdsOk(t: Tables, txns: seq<Txn>) {
    forall id | id in t.transfers :: 0 <= id < |txns| && txns[id].pc == Done
  }

  ghost predicate AllTxnsOk(t: Tables, txns: seq<Txn>) {
    forall i: nat | i < |txns| :: TxnOk(t, txns[i], i)
  }

  lemma DocsKept(t: Tables, e: Event)
    requires DocsOk(t) && TablesAllow(t, e)
    ensures DocsOk(ApplyTables(t, e))
  {
  }

  // ---------- frames ----------

  /** `b` has the same rows as `a` behind the locks `h`. */
  ghost predicate AgreeOn(a: Tables, b: Tables, h: set<Resource>) {
    && (forall u | BalanceRow(u) in h && u in a.balances :: u in b.balances && b.balances[u] == a.balances[u])
    && (forall u | UserRow(u) in h :: u in b.balances <==> u in a.balances)
    && (forall k | KeyEntry(k) in h :: k in b.keys <==> k in a.keys)
    && (forall l | LinkRow(l) in h && l in a.links :: l in b.links && b.links[l] == a.links[l])
    && (forall r | RequestRow(r) in h && r in a.requests :: r in b.requests && b.requests[r] == a.requests[r])
  }

  /** What no lock is needed for: accounts stay, links stay with their expiry. */
  ghost predicate Grows(a: Tables, b: Tables) {
    && a.balances.Keys <= b.balances.Keys
    && (forall l | l in a.links :: l in b.links && b.links[l].expiresAt == a.links[l].expiresAt)
  }

  function Touches(e: Event): set<Resource> {
    match e
    case Registered(u, _, _) => {UserRow(u)}
    case Blocked(row) => {KeyEntry(row.key)}
    case Paid(p) => {BalanceRow(p.payer), BalanceRow(p.payee), KeyEntry(p.key)} + ViaTouches(p.via)
    case LinkLapsed(l, _) => {LinkRow(l)}
    case LinkWithdrawn(l) => {LinkRow(l)}
    case RequestClosed(r, _) => {RequestRow(r)}
    case _ => {}
  }

  function ViaTouches(via: Via): set<Resource> {
    match via case Direct => {} case ByRequest(r) => {RequestRow(r)} case ByLink(l, _) => {LinkRow(l)}
  }

  lemma EventFrame(t: Tables, e: Event, h: set<Resource>)
    requires TablesAllow(t, e) && Touches(e) !! h
    ensures AgreeOn(t, ApplyTables(t, e), h) && Grows(t, ApplyTables(t, e))
  {
  }

  lemma Stable(a: Tables, b: Tables, x: Txn, i: nat)
    requires TxnOk(a, x, i) && AgreeOn(a, b, Holds(x)) && Grows(a, b)
    ensures TxnOk(b, x, i)
  {
    match x.pc {
      case Ready => ViaStable(a, b, x);
      case OneLock => ViaStable(a, b, x); ReadsStable(a, b, x, Holds(x));
      case TwoLocks => ViaStable(a, b, x); ReadsStable(a, b, x, Holds(x));
      case KeyHeld => PayingStable(a, b, x, i);
      case DebitIn => PayingStable(a, b, x, i);
      case CreditIn => PayingStable(a, b, x, i);
      case SentIn => PayingStable(a, b, x, i);
      case ReceivedIn => PayingStable(a, b, x, i);
      case RefusalKeyed => assert KeyEntry(x.pay.key) in Holds(x);
      case RefusalLogged => assert KeyEntry(x.pay.key) in Holds(x);
      case Closing => ClosingStable(a, b, x);
      case FundingIn => assert UserRow(x.op.user) in Holds(x);
      case FundingLogged => assert UserRow(x.op.user) in Holds(x);
      case _ =>
    }
  }

  lemma ViaStable(a: Tables, b: Tables, x: Txn)
    requires ViaLocked(x) && ViaOk(a, x.pay) && AgreeOn(a, b, RowLock(x.op))
    ensures ViaOk(b, x.pay)
  {
    match x.pay.via
    case Direct =>
    case ByRequest(r) => assert RequestRow(r) in RowLock(x.op);
    case ByLink(l, _) => assert LinkRow(l) in RowLock(x.op);
  }

  lemma ReadsStable(a: Tables, b: Tables, x: Txn, h: set<Resource>)
    requires AgreeOn(a, b, h) && BalanceRow(Lower(x.pay)) in h && LowRead(a, x)
    ensures LowRead(b, x)
    ensures BalanceRow(Upper(x.pay)) in h && HighRead(a, x) ==> HighRead(b, x)
  {
  }

  lemma PayingStable(a: Tables, b: Tables, x: Txn, i: nat)
    requires PayingOk(a, x, i) && AgreeOn(a, b, PayingLocks(x))
    ensures PayingOk(b, x, i)
  {
    ViaStable(a, b, x);
    ReadsStable(a, b, x, PayingLocks(x));
    assert KeyEntry(x.pay.key) in PayingLocks(x);
  }

  lemma ClosingStable(a: Tables, b: Tables, x: Txn)
    requires ClosingOk(a, x) && AgreeOn(a, b, RowLock(x.op))
    ensures ClosingOk(b, x)
  {
    match x.op
    case ClaimOp(_, l, _, _) => assert LinkRow(l) in RowLock(x.op);
    case CancelLinkOp(_, l) => assert LinkRow(l) in RowLock(x.op);
    case CloseRequestOp(_, r, _) => assert RequestRow(r) in RowLock(x.op);
    case _ =>
  }

  // ---------- one statement ----------

  /** A statement takes no lock but the one it wants. */
  lemma LocksTaken(t: Tables, x: Txn, i: nat, now: Time)
    requires TxnOk(t, x, i)
    ensures Holds(Statement(t, x, i, now).next) <= Holds(x) + (if Wants(x).Some? then {Wants(x).value} else {})
  {
    if x.pc == Start { FirstLocks(t, x, i, now); }
  }

  lemma FirstLocks(t: Tables, x: Txn, i: nat, now: Time)
    requires x.pc == Start
    ensures Holds(First(t, x, i, now).next) <= if Wants(x).Some? then {Wants(x).value} else {}
  {
  }

  /** A commit writes only behind the transaction's locks (or the lock it has just waited for), and the
      tables accept it. */
  lemma EmitsAllowed(t: Tables, x: Txn, i: nat, now: Time)
    requires TxnOk(t, x, i) && i !in t.transfers && Statement(t, x, i, now).Emit?
    ensures TablesAllow(t, Statement(t, x, i, now).event)
    ensures Touches(Statement(t, x, i, now).event) <= Holds(x) + (if Wants(x).Some? then {Wants(x).value} else {})
  {
    if x.pc == ReceivedIn { PayAllowed(t, x, i); }
  }

  lemma PayAllowed(t: Tables, x: Txn, i: nat)
    requires PayingOk(t, x, i) && i !in t.transfers
    ensures TablesAllow(t, Paid(x.pay)) && Touches(Paid(x.pay)) <= PayingLocks(x)
  {
  }

  lemma FirstOk(t: Tables, x: Txn, i: nat, now: Time)
    requires x.pc == Start && TxnOk(t, x, i) && DocsOk(t)
    ensures !First(t, x, i, now).Emit? ==> TxnOk(t, First(t, x, i, now).next, i)
    ensures First(t, x, i, now).Emit? ==> First(t, x, i, now).next.pc == Done
  {
    match x.op {
      case AcceptOp(_, _, _, _) => AcceptStarts(t, x, i, now);
      case ClaimOp(_, _, _, _) => ClaimStarts(t, x, i, now);
      case CloseRequestOp(_, _, _) => ClosingStarts(t, x, i, now);
      case CancelLinkOp(_, _) => ClosingStarts(t, x, i, now);
      case ViewLinkOp(_) => ClosingStarts(t, x, i, now);
      case _ =>
    }
  }

  lemma AcceptStarts(t: Tables, x: Txn, i: nat, now: Time)
    requires x.pc == Start && x.op.AcceptOp? && DocsOk(t)
    ensures First(t, x, i, now).Move? && TxnOk(t, First(t, x, i, now).next, i)
  {
  }

  lemma ClaimStarts(t: Tables, x: Txn, i: nat, now: Time)
    requires x.pc == Start && x.op.ClaimOp? && DocsOk(t)
    ensures First(t, x, i, now).Move? && TxnOk(t, First(t, x, i, now).next, i)
  {
  }

  lemma ClosingStarts(t: Tables, x: Txn, i: nat, now: Time)
    requires x.pc == Start && (x.op.CloseRequestOp? || x.op.CancelLinkOp? || x.op.ViewLinkOp?)
    ensures First(t, x, i, now).Move? && TxnOk(t, First(t, x, i, now).next, i)
  {
  }

  lemma DrawOk(t: Tables, x: Txn, i: nat, now: Time)
    requires x.pc == Drawing && TxnOk(t, x, i)
    ensures Draw(t, x, now).Emit? && TablesAllow(t, Draw(t, x, now).event)
    ensures TxnOk(ApplyTables(t, Draw(t, x, now).event), Draw(t, x, now).next, i)
  {
  }

  lemma FirstLockNext(t: Tables, x: Txn, i: nat, now: Time)
    requires x.pc == Ready && TxnOk(t, x, i)
    ensures Statement(t, x, i, now).Move? && TxnOk(t, Statement(t, x, i, now).next, i)
  {
  }

  lemma SecondLockNext(t: Tables, x: Txn, i: nat, now: Time)
    requires x.pc == OneLock && TxnOk(t, x, i)
    ensures Statement(t, x, i, now).Move? && TxnOk(t, Statement(t, x, i, now).next, i)
  {
  }

  lemma KeyNext(t: Tables, x: Txn, i: nat, now: Time)
    requires x.pc == TwoLocks && TxnOk(t, x, i)
    ensures Statement(t, x, i, now).Move? && TxnOk(t, Statement(t, x, i, now).next, i)
  {
  }

  lemma WritingNext(t: Tables, x: Txn, i: nat, now: Time)
    requires x.pc in {KeyHeld, DebitIn, CreditIn, SentIn, ReceivedIn} && TxnOk(t, x, i)
    ensures if Statement(t, x, i, now).Emit? then Statement(t, x, i, now).next.pc == Done
            else TxnOk(t, Statement(t, x, i, now).next, i)
  {
  }

  /** What the transaction relies on next holds once its statement has run. */
  lemma NextOk(t: Tables, x: Txn, i: nat, now: Time)
    requires TxnOk(t, x, i) && DocsOk(t)
    ensures !Statement(t, x, i, now).Emit? ==> TxnOk(t, Statement(t, x, i, now).next, i)
    ensures x.pc != Drawing && Statement(t, x, i, now).Emit? ==> Statement(t, x, i, now).next.pc == Done
  {
    if x.pc == Start {
      FirstOk(t, x, i, now);
    } else if x.pc == Drawing {
      DrawOk(t, x, i, now);
    } else if x.pc == Ready {
      FirstLockNext(t, x, i, now);
    } else if x.pc == OneLock {
      SecondLockNext(t, x, i, now);
    } else if x.pc == TwoLocks {
      KeyNext(t, x, i, now);
    } else if x.pc in {KeyHeld, DebitIn, CreditIn, SentIn, ReceivedIn} {
      WritingNext(t, x, i, now);
    }
  }

  // ---------- the whole machine ----------

  ghost predicate LockInv(s: Sys) {
    Exclusive(s.txns) && AllTxnsOk(s.t, s.txns) && IdsOk(s.t, s.txns) && DocsOk(s.t)
  }

  lemma BootLocked()
    ensures LockInv(Boot)
  {
  }

  lemma OthersDisjoint(s: Sys, i: nat, j: nat, r: set<Resource>)
    requires Exclusive(s.txns) && i < |s.txns| && j < |s.txns| && i != j && Free(s, i)
    requires r <= Holds(s.txns[i]) + (if Wants(s.txns[i]).Some? then {Wants(s.txns[i]).value} else {})
    ensures r !! Holds(s.txns[j])
  {
    assert if i < j then Holds(s.txns[i]) !! Holds(s.txns[j]) else Holds(s.txns[j]) !! Holds(s.txns[i]);
  }

  lemma ExclusiveKept(s: Sys, i: nat, y: Txn)
    requires Exclusive(s.txns) && i < |s.txns| && Free(s, i)
    requires Holds(y) <= Holds(s.txns[i]) + (if Wants(s.txns[i]).Some? then {Wants(s.txns[i]).value} else {})
    ensures Exclusive(s.txns[i := y])
  {
    var txns := s.txns[i := y];
    forall j, k | 0 <= j < k < |txns|
      ensures Holds(txns[j]) !! Holds(txns[k])
    {
      if j == i { OthersDisjoint(s, i, k, Holds(y)); }
      if k == i { OthersDisjoint(s, i, j, Holds(y)); }
    }
  }

  lemma OthersStable(s: Sys, i: nat, e: Event, j: nat)
    requires LockInv(s) && i < |s.txns| && j < |s.txns| && i != j && Free(s, i) && TablesAllow(s.t, e)
    requires Touches(e) <= Holds(s.txns[i]) + (if Wants(s.txns[i]).Some? then {Wants(s.txns[i]).value} else {})
    ensures TxnOk(ApplyTables(s.t, e), s.txns[j], j)
  {
    OthersDisjoint(s, i, j, Touches(e));
    EventFrame(s.t, e, Holds(s.txns[j]));
    Stable(s.t, ApplyTables(s.t, e), s.txns[j], j);
  }

  /** The `transfers` row an event inserts. */
  function RowOf(e: Event): Option<TransferRow> {
    match e case Paid(p) => Some(CompletedRow(p)) case Blocked(row) => Some(row) case _ => None
  }

  /** The only transfer row a statement commits is its own transaction's, and then the transaction is done. */
  lemma OwnRowOnly(t: Tables, x: Txn, i: nat, now: Time)
    requires TxnOk(t, x, i) && InFlight(x) && Statement(t, x, i, now).Emit?
    ensures var f := Statement(t, x, i, now);
            RowOf(f.event).Some? ==> RowOf(f.event).value.id == i && f.next.pc == Done
  {
  }

  lemma TransfersAfter(t: Tables, e: Event)
    requires TablesAllow(t, e)
    ensures ApplyTables(t, e).transfers
            == if RowOf(e).Some? then t.transfers[RowOf(e).value.id := RowOf(e).value] else t.transfers
  {
  }

  lemma IdsAfter(t: Tables, x: Txn, i: nat, now: Time, txns: seq<Txn>)
    requires TxnOk(t, x, i) && IdsOk(t, txns) && i < |txns| && txns[i] == x && InFlight(x)
    requires Statement(t, x, i, now).Emit? && TablesAllow(t, Statement(t, x, i, now).event)
    ensures IdsOk(ApplyTables(t, Statement(t, x, i, now).event), txns[i := Statement(t, x, i, now).next])
  {
    OwnRowOnly(t, x, i, now);
    TransfersAfter(t, Statement(t, x, i, now).event);
  }

  lemma StepAllowed(s: Sys, i: nat, now: Time)
    requires LockInv(s) && Can(s, Step(i, now))
    ensures var f := Statement(s.t, s.txns[i], i, now); f.Emit? ==> TablesAllow(s.t, f.event) && i !in s.t.transfers
  {
    if Statement(s.t, s.txns[i], i, now).Emit? {
      EmitsAllowed(s.t, s.txns[i], i, now);
    }
  }

  /** A commit keeps the tables' constraints and what every transaction relies on. */
  lemma EmitLocked(s: Sys, i: nat, now: Time)
    requires LockInv(s) && Can(s, Step(i, now)) && Statement(s.t, s.txns[i], i, now).Emit?
    ensures var f, s' := Statement(s.t, s.txns[i], i, now), Next(s, Step(i, now));
            && s'.txns == s.txns[i := f.next] && DocsOk(s'.t) && IdsOk(s'.t, s'.txns)
            && TxnOk(s'.t, f.next, i)
  {
    var x := s.txns[i];
    StepAllowed(s, i, now);
    NextOk(s.t, x, i, now);
    IdsAfter(s.t, x, i, now, s.txns);
    DocsKept(s.t, Statement(s.t, x, i, now).event);
    if x.pc == Drawing { DrawOk(s.t, x, i, now); }
  }

  lemma EmitKeepsOthers(s: Sys, i: nat, now: Time)
    requires LockInv(s) && Can(s, Step(i, now)) && Statement(s.t, s.txns[i], i, now).Emit?
    ensures forall j: nat | j < |s.txns| && j != i :: TxnOk(Next(s, Step(i, now)).t, s.txns[j], j)
  {
    var e := Statement(s.t, s.txns[i], i, now).event;
    StepAllowed(s, i, now);
    EmitsAllowed(s.t, s.txns[i], i, now);
    forall j: nat | j < |s.txns| && j != i
      ensures TxnOk(ApplyTables(s.t, e), s.txns[j], j)
    {
      OthersStable(s, i, e, j);
    }
  }

  lemma StepLocked(s: Sys, i: nat, now: Time)
    requires LockInv(s) && Can(s, Step(i, now))
    ensures LockInv(Next(s, Step(i, now)))
  {
    var f := Statement(s.t, s.txns[i], i, now);
    LocksTaken(s.t, s.txns[i], i, now);
    ExclusiveKept(s, i, f.next);
    if f.Emit? {
      EmitLocked(s, i, now);
      EmitKeepsOthers(s, i, now);
    } else {
      NextOk(s.t, s.txns[i], i, now);
    }
  }

  lemma LockInvKept(s: Sys, act: Act)
    requires LockInv(s) && Can(s, act)
    ensures LockInv(Next(s, act))
  {
    match act
    case Step(i, now) => StepLocked(s, i, now);
    case Begin(_, _) =>
    case Abort(i) => EndingKeepsExclusive(s, i);
  }

  lemma EndingKeepsExclusive(s: Sys, i: nat)
    requires Exclusive(s.txns) && i < |s.txns|
    ensures Exclusive(s.txns[i := s.txns[i].(pc := Ended)])
  {
  }
}
