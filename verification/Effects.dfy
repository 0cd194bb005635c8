/**
  What a reply promises. Whatever a service replies, these laws say what is in the tables afterwards, row by
  row and column by column: whose balances moved and by how much, which ledger and history rows were written
  and whom they name, and which rows stayed as they were. Amounts and limits are written out as numbers.
*/
module Effects {
  import opened Model
  import opened Books
  import opened Money
  import opened Services
  import opened Retries

  /** The store after a call. */
  function After(s: Store, c: Call): Store
    requires Allowed(s.t, Serve(s, c).events)
  {
    Commit(s, Serve(s, c).events)
  }

  /** The call carried something out, rather than repeating an earlier reply. */
  predicate MovesMoney(s: Store, c: Call) {
    Allowed(s.t, Serve(s, c).events) && Serve(s, c).reply.Moved? && Serve(s, c).events != []
  }

  // ---------- money that moved ----------

  lemma MovedShape(s: Store, c: Call) returns (p: Payment)
    requires MovesMoney(s, c)
    ensures c.DoTransfer? || c.DoAccept? || c.DoClaim?
    ensures CanPay(s.t, p) && ViaOk(s.t, p) && p.key == c.key && p.id == c.id && p.reference == c.reference
    ensures Serve(s, c).reply.receipt == ReceiptOf(CompletedRow(p))
    ensures c.DoTransfer? ==>
              && p.via == Direct && p.payer == c.sender && p.payee == c.recipient
              && ParsePositive(c.text) == Ok(p.amount)
              && Serve(s, c).events == [Drew(p.payer, c.day, p.amount), Paid(p)]
    ensures c.DoAccept? ==>
              p.via == ByRequest(c.request) && p.payer == c.actor && Serve(s, c).events == [Paid(p)]
    ensures c.DoClaim? ==>
              p.via == ByLink(c.link, c.now) && p.payee == c.actor && Serve(s, c).events == [Paid(p)]
  {
    match c {
      case DoTransfer(a, b, text, key, id, reference, day) =>
        p := Payment(Direct, a, b, ParsePositive(text).paisa, id, reference, key);
        TransferShape(s, p, day);
      case DoAccept(actor, r, key, id, reference) =>
        var q := s.t.requests[r];
        p := Payment(ByRequest(r), q.debtor, q.requester, q.amount, id, reference, key);
      case DoClaim(actor, l, key, id, reference, now) =>
        var link := s.t.links[l];
        p := Payment(ByLink(l, now), link.creator, actor, link.amount, id, reference, key);
      case _ =>
        p := Payment(Direct, 0, 0, 0, 0, 0, 0);
    }
  }

  /** The tables a payment leaves, and the rows it appends, from the tables it finds. */
  lemma MovedStore(s: Store, c: Call, p: Payment)
    requires MovesMoney(s, c) && CanPay(s.t, p)
    requires Serve(s, c).events == if c.DoTransfer? then [Drew(p.payer, c.day, p.amount), Paid(p)] else [Paid(p)]
    requires c.DoTransfer? ==> p.via == Direct
    ensures TablesAllow(s.t, Paid(p))
    ensures var paid := Post1(s, Paid(p));
            After(s, c) == if c.DoTransfer?
                           then paid.(t := paid.t.(outflow := s.t.outflow[(p.payer, c.day) :=
                                                     Outflow(s.t, p.payer, c.day) + p.amount]))
                           else paid
  {
    CommitShort(s, Serve(s, c).events);
    if c.DoTransfer? {
      var drawn := Post1(s, Drew(p.payer, c.day, p.amount));
      assert After(s, c) == Post1(drawn, Paid(p));
    }
  }

  /** Whose money moves, and how much. */
  lemma MovedParties(s: Store, c: Call)
    requires MovesMoney(s, c)
    ensures c.DoTransfer? || c.DoAccept? || c.DoClaim?
    ensures var r := Serve(s, c).reply.receipt; r.id == c.id && r.reference == c.reference && r.status == Completed
    ensures var r := Serve(s, c).reply.receipt;
            match c
            case DoTransfer(sender, recipient, text, _, _, _, _) =>
              r.sender == sender && r.recipient == recipient && ParsePositive(text) == Ok(r.amount)
            case DoAccept(actor, request, _, _, _) =>
              && request in s.t.requests && s.t.requests[request].status == Pending
              && r.sender == s.t.requests[request].debtor == actor && r.recipient == s.t.requests[request].requester
              && r.amount == s.t.requests[request].amount
            case DoClaim(actor, link, _, _, _, now) =>
              && link in s.t.links && s.t.links[link].status == Active && now <= s.t.links[link].expiresAt
              && r.sender == s.t.links[link].creator && r.recipient == actor && r.amount == s.t.links[link].amount
            case _ => false
  {
    var p := MovedShape(s, c);
  }

  /** The sender has exactly the amount less, the recipient exactly the amount more, and nobody else anything
      else; both versions go up by one. */
  lemma MovedBalances(s: Store, c: Call)
    requires MovesMoney(s, c)
    ensures var r, b := Serve(s, c).reply.receipt, s.t.balances;
            && r.sender != r.recipient && r.sender in b && r.recipient in b && 1 <= r.amount <= b[r.sender].amount
            && After(s, c).t.users == s.t.users
            && After(s, c).t.balances
               == b[r.sender := Balance(b[r.sender].amount - r.amount, b[r.sender].version + 1)]
                   [r.recipient := Balance(b[r.recipient].amount + r.amount, b[r.recipient].version + 1)]
  {
    var p := MovedShape(s, c);
    MovedStore(s, c, p);
  }

  /** The two ledger rows: the debit first, each naming the other party, with the balance it leaves. */
  lemma MovedLedger(s: Store, c: Call)
    requires MovesMoney(s, c)
    ensures c.DoTransfer? || c.DoAccept? || c.DoClaim?
    ensures var r, b := Serve(s, c).reply.receipt, s.t.balances;
            var (sent, received) :=
              if c.DoTransfer? then (TransferSent, TransferReceived)
              else if c.DoAccept? then (RequestPaid, RequestPaid) else (LinkPaid, LinkPaid);
            && r.sender in b && r.recipient in b
            && After(s, c).ledger == s.ledger
               + [LedgerRow(r.id, r.reference, r.sender, Some(r.recipient), -1, r.amount,
                            b[r.sender].amount - r.amount, sent, Some(c.key)),
                  LedgerRow(r.id, r.reference, r.recipient, Some(r.sender), 1, r.amount,
                            b[r.recipient].amount + r.amount, received, Some(c.key))]
  {
    var p := MovedShape(s, c);
    MovedStore(s, c, p);
  }

  /** The two history rows, likewise. */
  lemma MovedHistory(s: Store, c: Call)
    requires MovesMoney(s, c)
    ensures c.DoTransfer? || c.DoAccept? || c.DoClaim?
    ensures var r, b := Serve(s, c).reply.receipt, s.t.balances;
            var kind := if c.DoTransfer? then HistoryTransfer else if c.DoAccept? then HistoryRequest else HistoryLink;
            && r.sender in b && r.recipient in b
            && After(s, c).history == s.history
               + [HistoryRow(r.sender, Completed, kind, Sent, r.amount, b[r.sender].amount - r.amount,
                             Some(r.recipient), r.reference, r.id, Some(c.key)),
                  HistoryRow(r.recipient, Completed, kind, Received, r.amount, b[r.recipient].amount + r.amount,
                             Some(r.sender), r.reference, r.id, Some(c.key))]
  {
    var p := MovedShape(s, c);
    MovedStore(s, c, p);
  }

  /** The other tables: the transfer and its key are recorded, the request or link is settled, a direct transfer
      is counted, and every other row stays. */
  lemma MovedDocuments(s: Store, c: Call)
    requires MovesMoney(s, c)
    ensures c.DoTransfer? || c.DoAccept? || c.DoClaim?
    ensures c.DoAccept? ==> c.request in s.t.requests
    ensures c.DoClaim? ==> c.link in s.t.links
    ensures var r, t, t' := Serve(s, c).reply.receipt, s.t, After(s, c).t;
            && t'.transfers
               == t.transfers[r.id := TransferRow(r.id, r.reference, r.sender, r.recipient, r.amount, Completed, c.key)]
            && r.id !in t.transfers && c.key !in t.keys && t'.keys == t.keys[c.key := r.id]
            && t'.requests == (if c.DoAccept?
                               then t.requests[c.request := t.requests[c.request].(status := Accepted)] else t.requests)
            && t'.links == (if c.DoClaim?
                            then t.links[c.link := t.links[c.link].(status := Claimed, claimer := Some(r.recipient),
                                                                    transfer := Some(r.id))] else t.links)
            && t'.outflow == if c.DoTransfer?
                             then t.outflow[(r.sender, c.day) := Outflow(t, r.sender, c.day) + r.amount] else t.outflow
  {
    var p := MovedShape(s, c);
    MovedStore(s, c, p);
  }

  // ---------- a transfer over a cap ----------

  /** A direct transfer that recorded a refusal: rejected for its amount, or flagged for the day's total. */
  predicate Refuses(s: Store, c: Call) {
    && Allowed(s.t, Serve(s, c).events) && c.DoTransfer? && !Serve(s, c).reply.Moved?
    && |Serve(s, c).events| >= 1 && Serve(s, c).events[|Serve(s, c).events| - 1].Blocked?
  }

  /** A refused transfer leaves one transfer row and one history row, which shows the sender's balance as it is
      and names the recipient; no balance, ledger row, request or link changes, and only a flagged one has
      been counted. */
  lemma RefusalRecorded(s: Store, c: Call)
    requires Refuses(s, c)
    ensures exists n :: ParsePositive(c.text) == Ok(n)
    ensures var n, after := ParsePositive(c.text).paisa, After(s, c);
            var status := if n > 5_000_000 then Rejected else Flagged;
            && c.sender in s.t.balances && c.recipient in s.t.balances && c.sender != c.recipient
            && after.t.users == s.t.users && after.t.balances == s.t.balances && after.ledger == s.ledger
            && after.t.requests == s.t.requests && after.t.links == s.t.links
            && after.t.transfers
               == s.t.transfers[c.id := TransferRow(c.id, c.reference, c.sender, c.recipient, n, status, c.key)]
            && after.t.keys == s.t.keys[c.key := c.id]
            && after.t.outflow == (if n > 5_000_000 then s.t.outflow
                                   else s.t.outflow[(c.sender, c.day) := Outflow(s.t, c.sender, c.day) + n])
            && after.history == s.history
               + [HistoryRow(c.sender, status, HistoryTransfer, Sent, n, s.t.balances[c.sender].amount,
                             Some(c.recipient), c.reference, c.id, Some(c.key))]
  {
    TransferCases(s, c);
    CommitShort(s, Serve(s, c).events);
  }

  lemma TransferCases(s: Store, c: Call)
    requires c.DoTransfer? && Serve(s, c).events != []
    ensures ParsePositive(c.text).Ok? && c.sender != c.recipient && c.key !in s.t.keys
    ensures var n := ParsePositive(c.text).paisa;
            var p := Payment(Direct, c.sender, c.recipient, n, c.id, c.reference, c.key);
            Serve(s, c) == TransferAnew(s, p, c.day)
  {
  }

  // ---------- the other services ----------

  /** A registration adds one user with ten million paisa and the rows that fund it. */
  lemma RegistrationFunds(s: Store, c: Call)
    requires c.DoRegister? && Serve(s, c).reply.Registration?
    ensures Allowed(s.t, Serve(s, c).events) && c.user !in s.t.balances
    ensures After(s, c) == Store(
              s.t.(users := s.t.users + [c.user], balances := s.t.balances[c.user := Balance(10_000_000, 0)]),
              s.ledger + [LedgerRow(c.txn, c.reference, c.user, None, 1, 10_000_000, 10_000_000, Funding, None)],
              s.history + [HistoryRow(c.user, Completed, HistoryFunding, Received, 10_000_000, 10_000_000,
                                      None, c.reference, c.txn, None)])
  {
    CommitShort(s, Serve(s, c).events);
  }

  /** A closed request has the status asked for and keeps its terms, and nothing else changes. */
  lemma ClosingWrites(s: Store, c: Call)
    requires c.DoClose? && Serve(s, c).reply.RequestIs?
    ensures Allowed(s.t, Serve(s, c).events) && c.request in s.t.requests
    ensures var q := s.t.requests[c.request];
            var closed := Request(q.requester, q.debtor, q.amount, c.status);
            && Serve(s, c).reply.request == closed
            && After(s, c) == s.(t := s.t.(requests := s.t.requests[c.request := closed]))
  {
    CommitShort(s, Serve(s, c).events);
  }

  /** A cancelled link keeps everything but its status, and nothing else changes. */
  lemma CancellingWrites(s: Store, c: Call)
    requires c.DoCancelLink? && Serve(s, c).reply.LinkIs?
    ensures Allowed(s.t, Serve(s, c).events) && c.link in s.t.links
    ensures var k := s.t.links[c.link];
            var cancelled := Link(k.creator, k.amount, Cancelled, k.claimer, k.transfer, k.expiresAt);
            && Serve(s, c).reply.link == cancelled
            && After(s, c) == s.(t := s.t.(links := s.t.links[c.link := cancelled]))
  {
    CommitShort(s, Serve(s, c).events);
  }

  /** A view shows the link as it is stored afterwards: expired if it was active past its expiry, and otherwise
      as it was; nothing else changes. */
  lemma ViewingShows(s: Store, c: Call)
    requires c.DoView? && Serve(s, c).reply.LinkIs?
    ensures Allowed(s.t, Serve(s, c).events) && c.link in s.t.links
    ensures var k := s.t.links[c.link];
            var shown := if k.status == Active && k.expiresAt < c.now
                         then Link(k.creator, k.amount, Expired, k.claimer, k.transfer, k.expiresAt) else k;
            && Serve(s, c).reply.link == shown
            && After(s, c) == s.(t := s.t.(links := s.t.links[c.link := shown]))
  {
    CommitShort(s, Serve(s, c).events);
    assert s.t.links[c.link := s.t.links[c.link]] == s.t.links;
  }

  /** A claim that finds the link lapsed leaves it expired, and nothing else changes. */
  lemma LapseWrites(s: Store, c: Call)
    requires c.DoClaim? && Serve(s, c).reply.Gone?
    ensures Allowed(s.t, Serve(s, c).events) && c.link in s.t.links
    ensures var k := s.t.links[c.link];
            After(s, c) == s.(t := s.t.(links := s.t.links[c.link :=
              Link(k.creator, k.amount, Expired, k.claimer, k.transfer, k.expiresAt)]))
  {
    CommitShort(s, Serve(s, c).events);
  }

  /** A created request has the caller as requester and the other as debtor, and nothing else changes. */
  lemma RequestWritten(s: Store, c: Call)
    requires c.DoMakeRequest? && Serve(s, c).reply.RequestIs? && Allowed(s.t, Serve(s, c).events)
    ensures exists n :: ParsePositive(c.text) == Ok(n)
    ensures var made := Request(c.requester, c.debtor, ParsePositive(c.text).paisa, Pending);
            && c.request !in s.t.requests && Serve(s, c).reply.request == made
            && After(s, c) == s.(t := s.t.(requests := s.t.requests[c.request := made]))
  {
    CommitShort(s, Serve(s, c).events);
  }

  /** A created link is the caller's, active, unclaimed, and expires `ttl` seconds from now. */
  lemma LinkWritten(s: Store, c: Call)
    requires c.DoMakeLink? && Serve(s, c).reply.LinkIs? && Allowed(s.t, Serve(s, c).events)
    ensures exists n :: ParsePositive(c.text) == Ok(n)
    ensures var made := Link(c.creator, ParsePositive(c.text).paisa, Active, None, None, c.now + c.ttl);
            && c.link !in s.t.links && Serve(s, c).reply.link == made
            && After(s, c) == s.(t := s.t.(links := s.t.links[c.link := made]))
  {
    CommitShort(s, Serve(s, c).events);
  }

  /** Every other reply - an error, a replay, a repeated claim - changes nothing, unless a draw on the day's
      counter of a direct transfer that then lacks the money, a balance row or fresh ids. */
  lemma OtherwiseNothing(s: Store, c: Call)
    requires Allowed(s.t, Serve(s, c).events) && !MovesMoney(s, c) && !Refuses(s, c)
    requires !Serve(s, c).reply.Registration? && !Serve(s, c).reply.RequestIs? && !Serve(s, c).reply.LinkIs?
    requires !Serve(s, c).reply.Gone?
    ensures After(s, c) == s || (c.DoTransfer? && ParsePositive(c.text).Ok? &&
              After(s, c) == s.(t := s.t.(outflow :=
                s.t.outflow[(c.sender, c.day) := Outflow(s.t, c.sender, c.day) + ParsePositive(c.text).paisa])))
  {
    CommitShort(s, Serve(s, c).events);
    if c.DoTransfer? && Serve(s, c).events != [] { OnlyDrew(s, c); } else { NothingElse(s, c); }
  }

  lemma OnlyDrew(s: Store, c: Call)
    requires Allowed(s.t, Serve(s, c).events) && !MovesMoney(s, c) && !Refuses(s, c)
    requires c.DoTransfer? && Serve(s, c).events != []
    ensures ParsePositive(c.text).Ok? && Serve(s, c).events == [Drew(c.sender, c.day, ParsePositive(c.text).paisa)]
  {
    TransferCases(s, c);
    TransferShape(s, Payment(Direct, c.sender, c.recipient, ParsePositive(c.text).paisa, c.id, c.reference, c.key),
                  c.day);
  }

  lemma NothingElse(s: Store, c: Call)
    requires !MovesMoney(s, c) && Allowed(s.t, Serve(s, c).events)
    requires !Serve(s, c).reply.Registration? && !Serve(s, c).reply.RequestIs? && !Serve(s, c).reply.LinkIs?
    requires !Serve(s, c).reply.Gone?
    ensures c.DoTransfer? || Serve(s, c).events == []
  {
  }
}
