/**
  The running system against the services one at a time. A transaction that commits, commits what its own
  service commits when it is called at that moment and nothing else runs; a transaction that ends with nothing
  committed ends where its service, called at that moment, commits nothing. The exception is the viewer of a
  link, which writes without looking again.
*/
module Served {
  import opened Model
  import opened Books
  import opened Money
  import opened Transactions
  import opened Locking
  import opened Outcomes
  import opened Refusals
  import opened Schedules
  import opened Services

  /** What is committed: the tables, and the ledger and history in id order. */
  function StoreOf(s: Sys): Store {
    Store(s.t, CommittedLedger(s), CommittedHistory(s))
  }

  /** The time a call goes by: the clock read of its first statement. */
  function ReadAt(x: Txn, now: Time): Time {
    if x.pc == Start then now
    else if x.pc != Closing && x.pc != Stale && x.pay.via.ByLink? then x.pay.via.now
    else x.now
  }

  /** The call a transaction serves; amounts come in as text, so the three that parse one are apart. */
  function CallOf(x: Txn, i: nat, now: Time): Option<Call> {
    match x.op
    case AcceptOp(actor, r, key, reference) => Some(DoAccept(actor, r, key, i, reference))
    case ClaimOp(actor, l, key, reference) => Some(DoClaim(actor, l, key, i, reference, ReadAt(x, now)))
    case RegisterOp(u, reference) => Some(DoRegister(u, i, reference))
    case CancelLinkOp(actor, l) => Some(DoCancelLink(actor, l))
    case CloseRequestOp(actor, r, status) => Some(DoClose(actor, r, status))
    case ViewLinkOp(l) => Some(DoView(l, ReadAt(x, now)))
    case _ => None
  }

  // ---------- ids are new to the ledger ----------

  lemma FreshHere(s: Sys, i: nat)
    requires Reachable(s) && i !in Commits(s.txns)
    ensures FreshInLedger(CommittedLedger(s), i)
  {
    ReachableFiled(s);
    var ledger := CommittedLedger(s);
    forall k | 0 <= k < |ledger|
      ensures ledger[k].txn != i
    {
      var j := VisibleFrom(s.ledger, Commits(s.txns), ledger[k]);
      assert Signed(s.txns, s.ledger[j]);
    }
  }

  // ---------- payments ----------

  function MovedBy(p: Payment): Outcome {
    Outcome([Paid(p)], Moved(ReceiptOf(CompletedRow(p))))
  }

  lemma SettleMoves(st: Store, p: Payment, reply: Reply)
    requires CanPay(st.t, p) && FreshInLedger(st.ledger, p.id)
    ensures Settle(st, p, reply) == Outcome([Paid(p)], reply)
  {
  }

  lemma AcceptServed(st: Store, x: Txn, i: nat)
    requires x.op.AcceptOp? && PayingOk(st.t, x, i) && i !in st.t.transfers && FreshInLedger(st.ledger, i)
    ensures Accept(st, x.op.actor, x.op.request, x.op.key, i, x.op.reference) == MovedBy(x.pay)
  {
    SettleMoves(st, x.pay, Moved(ReceiptOf(CompletedRow(x.pay))));
  }

  lemma ClaimServed(st: Store, x: Txn, i: nat)
    requires x.op.ClaimOp? && PayingOk(st.t, x, i) && i !in st.t.transfers && FreshInLedger(st.ledger, i)
    ensures x.pay.via.ByLink?
    ensures Claim(st, x.op.actor, x.op.link, x.op.key, i, x.op.reference, x.pay.via.now) == MovedBy(x.pay)
  {
    SettleMoves(st, x.pay, Moved(ReceiptOf(CompletedRow(x.pay))));
  }

  /** A transaction about to commit a payment: the tables say it can, and its id is new. */
  lemma AboutToPay(s: Sys, i: nat)
    requires Reachable(s) && i < |s.txns| && s.txns[i].pc == ReceivedIn
    ensures PayingOk(s.t, s.txns[i], i) && i !in s.t.transfers && FreshInLedger(CommittedLedger(s), i)
  {
    ReachableLocked(s);
    assert TxnOk(s.t, s.txns[i], i);
    FreshHere(s, i);
  }

  lemma ReachableLocked(s: Sys)
    requires Reachable(s)
    ensures LockInv(s)
  {
    var b, log := BooksOf(s);
  }

  /** Every committed payment is what its own service, called at that moment, commits and replies: the debtor
      pays an accepted request, the actor is paid by a claimed link, and a transfer pays on its own terms. */
  lemma PaymentServed(s: Sys, i: nat)
    requires Reachable(s) && i < |s.txns| && s.txns[i].pc == ReceivedIn
    ensures var x := s.txns[i];
            match x.op
            case AcceptOp(actor, r, key, reference) => Accept(StoreOf(s), actor, r, key, i, reference) == MovedBy(x.pay)
            case ClaimOp(actor, l, key, reference) =>
              x.pay.via.ByLink? && Claim(StoreOf(s), actor, l, key, i, reference, x.pay.via.now) == MovedBy(x.pay)
            case TransferOp(sender, recipient, amount, key, reference, _) =>
              && x.pay == Payment(Direct, sender, recipient, amount, i, reference, key)
              && Settle(StoreOf(s), x.pay, Moved(ReceiptOf(CompletedRow(x.pay)))) == MovedBy(x.pay)
            case _ => false
  {
    AboutToPay(s, i);
    var x := s.txns[i];
    if x.op.AcceptOp? {
      AcceptServed(StoreOf(s), x, i);
    } else if x.op.ClaimOp? {
      ClaimServed(StoreOf(s), x, i);
    } else {
      SettleMoves(StoreOf(s), x.pay, Moved(ReceiptOf(CompletedRow(x.pay))));
    }
  }

  // ---------- everything else that commits ----------

  lemma ClosingServed(st: Store, x: Txn, i: nat, now: Time)
    requires x.pc == Closing && ClosingOk(st.t, x)
    ensures CallOf(x, i, now).Some? && Serve(st, CallOf(x, i, now).value).events == [ClosingEvent(x)]
  {
  }

  lemma RegistrationServed(st: Store, x: Txn, i: nat)
    requires x.pc == FundingLogged && TxnOk(st.t, x, i) && i !in st.t.transfers && FreshInLedger(st.ledger, i)
    ensures x.op.RegisterOp?
    ensures Register(st, x.op.user, i, x.op.reference)
            == Outcome([Registered(x.op.user, i, x.op.reference)], Registration)
  {
  }

  /** A viewer about to write does what the service would do now exactly when the link is still active: the
      write without a lock is the one place where the running system departs from its services. */
  lemma ViewerServedIff(s: Sys, i: nat, now: Time)
    requires Reachable(s) && i < |s.txns| && s.txns[i].pc == Stale
    ensures var x := s.txns[i];
            && x.op.ViewLinkOp? && x.op.link in s.t.links
            && (Serve(StoreOf(s), CallOf(x, i, now).value).events == [Statement(s.t, x, i, now).event]
                <==> s.t.links[x.op.link].status == Active)
  {
    ReachableLocked(s);
    assert TxnOk(s.t, s.txns[i], i);
  }

  /** Whatever else runs, an event that a transaction commits is the one event its own service commits when it
      is called at that moment on what is committed. */
  lemma CommitServed(s: Sys, i: nat, now: Time)
    requires Reachable(s) && Can(s, Step(i, now)) && Statement(s.t, s.txns[i], i, now).Emit?
    requires CallOf(s.txns[i], i, now).Some? && s.txns[i].pc != Stale
    ensures Serve(StoreOf(s), CallOf(s.txns[i], i, now).value).events == [Statement(s.t, s.txns[i], i, now).event]
  {
    ReachableLocked(s);
    var x := s.txns[i];
    assert TxnOk(s.t, x, i);
    FreshHere(s, i);
    if x.pc == ReceivedIn {
      PaymentServed(s, i);
    } else if x.pc == Closing {
      ClosingServed(StoreOf(s), x, i, now);
    } else {
      RegistrationServed(StoreOf(s), x, i);
    }
  }

  // ---------- ending with nothing committed ----------

  /** The statement ends the transaction without a commit. */
  predicate Ends(t: Tables, x: Txn, i: nat, now: Time) {
    Statement(t, x, i, now).Move? && Statement(t, x, i, now).next.pc == Ended
  }

  lemma AcceptEnds(st: Store, x: Txn, i: nat, now: Time)
    requires x.op.AcceptOp? && InFlight(x) && TxnOk(st.t, x, i) && Ends(st.t, x, i, now)
    ensures Accept(st, x.op.actor, x.op.request, x.op.key, i, x.op.reference).events == []
  {
  }

  lemma ClaimEnds(st: Store, x: Txn, i: nat, now: Time)
    requires x.op.ClaimOp? && InFlight(x) && TxnOk(st.t, x, i) && Ends(st.t, x, i, now)
    ensures Claim(st, x.op.actor, x.op.link, x.op.key, i, x.op.reference, ReadAt(x, now)).events == []
  {
  }

  lemma OthersEnd(st: Store, x: Txn, i: nat, now: Time)
    requires CallOf(x, i, now).Some? && !x.op.AcceptOp? && !x.op.ClaimOp?
    requires InFlight(x) && TxnOk(st.t, x, i) && Ends(st.t, x, i, now)
    ensures Serve(st, CallOf(x, i, now).value).events == []
  {
  }

  /** A transaction that a statement ends with nothing committed ends where its service, called at that moment,
      commits nothing. */
  lemma EndServed(s: Sys, i: nat, now: Time)
    requires Reachable(s) && Can(s, Step(i, now)) && Ends(s.t, s.txns[i], i, now) && CallOf(s.txns[i], i, now).Some?
    ensures Serve(StoreOf(s), CallOf(s.txns[i], i, now).value).events == []
  {
    ReachableLocked(s);
    var x := s.txns[i];
    assert TxnOk(s.t, x, i);
    if x.op.AcceptOp? {
      AcceptEnds(StoreOf(s), x, i, now);
    } else if x.op.ClaimOp? {
      ClaimEnds(StoreOf(s), x, i, now);
    } else {
      OthersEnd(StoreOf(s), x, i, now);
    }
  }

  // ---------- direct transfers, which parse an amount and draw before they lock ----------

  function TransferCall(x: Txn, i: nat, text: string): Call
    requires x.op.TransferOp?
  {
    DoTransfer(x.op.sender, x.op.recipient, text, x.op.key, i, x.op.reference, x.op.day)
  }

  /** Stage by stage a transfer commits what its service commits there: the draw first, then the payment or the
      refusal with the status the caps give it. */
  lemma TransferServed(s: Sys, i: nat, now: Time, text: string)
    requires Reachable(s) && Can(s, Step(i, now)) && Statement(s.t, s.txns[i], i, now).Emit?
    requires s.txns[i].op.TransferOp? && ParsePositive(text) == Ok(s.txns[i].op.amount)
    ensures var x, st, e := s.txns[i], StoreOf(s), Statement(s.t, s.txns[i], i, now).event;
            match x.pc
            case Drawing =>
              x.op.key !in s.t.keys ==>
                && Serve(st, TransferCall(x, i, text)).events != []
                && Serve(st, TransferCall(x, i, text)).events[0] == e
            case ReceivedIn => Settle(st, x.pay, Moved(ReceiptOf(CompletedRow(x.pay)))).events == [e]
            case _ =>
              if x.status == Rejected
              then Serve(st, TransferCall(x, i, text)) == Outcome([e], Unprocessable)
              else Refuse(st, RefusedRow(x.pay, Flagged), Held(ReceiptOf(RefusedRow(x.pay, Flagged)))).events == [e]
  {
    ReachableLocked(s);
    var x := s.txns[i];
    assert TxnOk(s.t, x, i);
    if x.pc == ReceivedIn { PaymentServed(s, i); }
  }

  /** And it ends with nothing but its draw where the service would go no further. */
  lemma TransferEnds(s: Sys, i: nat, now: Time, text: string)
    requires Reachable(s) && Can(s, Step(i, now)) && Ends(s.t, s.txns[i], i, now)
    requires s.txns[i].op.TransferOp? && ParsePositive(text) == Ok(s.txns[i].op.amount)
    ensures var x, st := s.txns[i], StoreOf(s);
            match x.pc
            case Start => Serve(st, TransferCall(x, i, text)).events == []
            case Refusing =>
              if x.op.key in s.t.keys then Serve(st, TransferCall(x, i, text)).events == []
              else Refuse(st, RefusedRow(x.pay, x.status), Unprocessable).events == []
            case _ => Settle(st, x.pay, Moved(ReceiptOf(CompletedRow(x.pay)))).events == []
  {
    ReachableLocked(s);
    assert TxnOk(s.t, s.txns[i], i);
  }

  /** The day's counter takes the amount, and the transfer goes on to the money exactly when the total is within
      twenty million paisa and nobody has used the key; the amount has passed the per-transfer cap. */
  lemma DrawDecides(s: Sys, i: nat, now: Time)
    requires Reachable(s) && Can(s, Step(i, now)) && s.txns[i].pc == Drawing
    ensures s.txns[i].op.TransferOp?
    ensures var op, s' := s.txns[i].op, Next(s, Step(i, now));
            && 1 <= op.amount <= 5_000_000
            && Outflow(s'.t, op.sender, op.day) == Outflow(s.t, op.sender, op.day) + op.amount
            && (s'.txns[i].pc == Ready <==> Outflow(s.t, op.sender, op.day) + op.amount <= 20_000_000)
            && (s'.txns[i].pc != Ready ==> s'.txns[i].pc == Refusing && s'.txns[i].status == Flagged)
  {
    ReachableLocked(s);
    assert TxnOk(s.t, s.txns[i], i);
    StepAllowed(s, i, now);
  }

  /** A rejected or flagged row shows the sender's balance as it is when the row is written, and names the
      recipient. */
  lemma RefusalShowsBalance(s: Sys, i: nat, now: Time)
    requires Reachable(s) && Can(s, Step(i, now)) && s.txns[i].pc == RefusalKeyed
    ensures s.txns[i].op.TransferOp? && s.txns[i].op.sender in s.t.balances
    ensures var op, s' := s.txns[i].op, Next(s, Step(i, now));
            var status := if op.amount > 5_000_000 then Rejected else Flagged;
            s'.history == s.history
              + [Slot(i, None, HistoryRow(op.sender, status, HistoryTransfer, Sent, op.amount,
                                          s.t.balances[op.sender].amount, Some(op.recipient), op.reference, i,
                                          Some(op.key)))]
  {
    ReachableLocked(s);
    assert TxnOk(s.t, s.txns[i], i);
  }

  // ---------- requests and links that are made ----------

  /** Making a request: it commits what the service commits, and the row has the caller as requester. */
  lemma MakeRequestServed(s: Sys, i: nat, now: Time, text: string)
    requires Reachable(s) && Can(s, Step(i, now)) && s.txns[i].pc == Start && s.txns[i].op.MakeRequestOp?
    requires ParsePositive(text) == Ok(s.txns[i].op.amount)
    ensures var op, s' := s.txns[i].op, Next(s, Step(i, now));
            && Serve(StoreOf(s), DoMakeRequest(op.requester, op.debtor, text, op.request)).events
               == Emitted(s, Step(i, now))
            && (Emitted(s, Step(i, now)) != [] ==>
                  s'.t.requests == s.t.requests[op.request := Request(op.requester, op.debtor, op.amount, Pending)])
  {
  }

  /** Making a link, whose expiry is the time of the call and the time to live asked for. */
  lemma MakeLinkServed(s: Sys, i: nat, now: Time, text: string, ttl: int, at: Time)
    requires Reachable(s) && Can(s, Step(i, now)) && s.txns[i].pc == Start && s.txns[i].op.MakeLinkOp?
    requires ParsePositive(text) == Ok(s.txns[i].op.amount)
    requires 60 <= ttl <= 86_400 && s.txns[i].op.expiresAt == at + ttl
    ensures var op, s' := s.txns[i].op, Next(s, Step(i, now));
            && Serve(StoreOf(s), DoMakeLink(op.creator, text, ttl, op.link, at)).events == Emitted(s, Step(i, now))
            && (Emitted(s, Step(i, now)) != [] ==>
                  s'.t.links == s.t.links[op.link := Link(op.creator, op.amount, Active, None, None, at + ttl)])
  {
  }

  /** In every interleaving a request is rejected by its debtor and cancelled by its requester, while it is
      pending, and gets the status asked for. */
  lemma ClosedByItsParty(s: Sys, i: nat, now: Time)
    requires Reachable(s) && Can(s, Step(i, now)) && s.txns[i].pc == Closing && s.txns[i].op.CloseRequestOp?
    ensures s.txns[i].op.request in s.t.requests
    ensures var op := s.txns[i].op;
            var q := s.t.requests[op.request];
            && q.status == Pending && op.status in {RequestRejected, RequestCancelled}
            && (op.status == RequestRejected ==> op.actor == q.debtor)
            && (op.status == RequestCancelled ==> op.actor == q.requester)
            && Next(s, Step(i, now)).t.requests
               == s.t.requests[op.request := Request(q.requester, q.debtor, q.amount, op.status)]
  {
    ReachableLocked(s);
    assert TxnOk(s.t, s.txns[i], i);
    StepAllowed(s, i, now);
  }
}
