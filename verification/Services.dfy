/**
  The services one call at a time: for each, the events it commits and the reply it gives, as a function
  of the tables it finds. `Commit` performs the events on the flat tables.
*/
module Services {
  import opened Model
  import opened Books
  import opened Money
  import opened Invariants

  /** The store as stored: the tables, and the ledger and history in id order. */
  datatype Store = Store(t: Tables, ledger: seq<LedgerRow>, history: seq<HistoryRow>)

  /** `TransferResponse`: what a caller is told about a transfer. */
  datatype Receipt = Receipt(
    id: TxnId, reference: Reference, sender: UserId, recipient: UserId, amount: int, status: Status)

  function ReceiptOf(row: TransferRow): Receipt {
    Receipt(row.id, row.reference, row.sender, row.recipient, row.amount, row.status)
  }

  datatype Reply =
    | Moved(receipt: Receipt)                   // the money moved, or a claim was repeated
    | Held(receipt: Receipt)                    // flagged, nothing moved
    | Replayed(receipt: Receipt)                // the stored outcome of the same transfer request
    | LinkIs(link: Link)
    | RequestIs(request: Request)
    | Registration
    | BadRequest | Forbidden | NotFound | Conflict | Gone | Unprocessable
    | Refused                                   // a database constraint refused the write

  // ---------- committing events on the flat tables ----------

  function LedgerOf(t: Tables, e: Event): seq<LedgerRow>
    requires TablesAllow(t, e)
  {
    match e
    case Registered(u, txn, reference) => [FundingRow(u, txn, reference)]
    case Paid(p) => [Debit(t, p), Credit(t, p)]
    case _ => []
  }

  function HistoryOf(t: Tables, e: Event): seq<HistoryRow>
    requires TablesAllow(t, e)
  {
    match e
    case Registered(u, txn, reference) => [FundingHistory(u, txn, reference)]
    case Paid(p) => [SentBy(t, p), ReceivedBy(t, p)]
    case Blocked(row) =>
      var p := Payment(Direct, row.sender, row.recipient, row.amount, row.id, row.reference, row.key);
      [RefusedHistory(p, row.status, t.balances[row.sender].amount)]
    case _ => []
  }

  function Post1(s: Store, e: Event): Store
    requires TablesAllow(s.t, e)
  {
    Store(ApplyTables(s.t, e), s.ledger + LedgerOf(s.t, e), s.history + HistoryOf(s.t, e))
  }

  predicate Allowed(t: Tables, es: seq<Event>)
    decreases |es|
  {
    es == [] || (TablesAllow(t, es[0]) && Allowed(ApplyTables(t, es[0]), es[1..]))
  }

  function Commit(s: Store, es: seq<Event>): Store
    requires Allowed(s.t, es)
    decreases |es|
  {
    if es == [] then s else Commit(Post1(s, es[0]), es[1..])
  }

  /** `txn_id` is not in the ledger: `uq_ledger_txn_direction` accepts its rows. */
  predicate FreshInLedger(ledger: seq<LedgerRow>, txn: TxnId) {
    forall k | 0 <= k < |ledger| :: ledger[k].txn != txn
  }

  // ---------- the services ----------

  datatype Outcome = Outcome(events: seq<Event>, reply: Reply)

  function Quietly(reply: Reply): Outcome { Outcome([], reply) }

  function Register(s: Store, u: UserId, txn: TxnId, reference: Reference): Outcome {
    if u in s.t.balances || txn in s.t.transfers || !FreshInLedger(s.ledger, txn) then Quietly(Refused)
    else Outcome([Registered(u, txn, reference)], Registration)
  }

  /** The movement shared by the three payment paths, once the terms are settled. */
  function Settle(s: Store, p: Payment, reply: Reply): Outcome {
    if p.payer !in s.t.balances || p.payee !in s.t.balances then Quietly(NotFound)
    else if s.t.balances[p.payer].amount < p.amount then Quietly(Unprocessable)
    else if p.id in s.t.transfers || p.key in s.t.keys || !FreshInLedger(s.ledger, p.id) then Quietly(Refused)
    else Outcome([Paid(p)], reply)
  }

  function Refuse(s: Store, row: TransferRow, reply: Reply): Outcome {
    if row.id in s.t.transfers || row.sender !in s.t.balances || row.recipient !in s.t.balances then Quietly(Refused)
    else Outcome([Blocked(row)], reply)
  }

  function Transfer(s: Store, sender: UserId, recipient: UserId, text: string, key: Key,
                    id: TxnId, reference: Reference, day: Day): Outcome {
    match ParsePositive(text)
    case Err(_) => Quietly(BadRequest)
    case Ok(amount) =>
      if sender == recipient then Quietly(BadRequest)
      else if key in s.t.keys then
        if s.t.keys[key] in s.t.transfers then Retry(s.t.transfers[s.t.keys[key]], sender, recipient, amount)
        else Quietly(Conflict)
      else TransferAnew(s, Payment(Direct, sender, recipient, amount, id, reference, key), day)
  }

  function Retry(row: TransferRow, sender: UserId, recipient: UserId, amount: int): Outcome {
    if row.sender == sender && row.recipient == recipient && row.amount == amount then Quietly(Replayed(ReceiptOf(row)))
    else Quietly(Conflict)
  }

  /** A key never seen: the per-transfer cap, then the daily counter, then the money. */
  function TransferAnew(s: Store, p: Payment, day: Day): Outcome {
    if p.amount > PER_TRANSFER_CAP_PAISA then Refuse(s, RefusedRow(p, Rejected), Unprocessable)
    else
      var next := if Outflow(s.t, p.payer, day) + p.amount > DAILY_OUTFLOW_CAP_PAISA
                  then Refuse(s, RefusedRow(p, Flagged), Held(ReceiptOf(RefusedRow(p, Flagged))))
                  else Settle(s, p, Moved(ReceiptOf(CompletedRow(p))));
      Outcome([Drew(p.payer, day, p.amount)] + next.events, next.reply)
  }

  function Accept(s: Store, actor: UserId, r: RequestId, key: Key, id: TxnId, reference: Reference): Outcome {
    if r !in s.t.requests then Quietly(NotFound)
    else
      var q := s.t.requests[r];
      if q.status != Pending then Quietly(Conflict)
      else if actor != q.debtor then Quietly(Forbidden)
      else
        var p := Payment(ByRequest(r), q.debtor, q.requester, q.amount, id, reference, key);
        Settle(s, p, Moved(ReceiptOf(CompletedRow(p))))
  }

  function CloseRequest(s: Store, actor: UserId, r: RequestId, status: RequestStatus): Outcome {
    if r !in s.t.requests then Quietly(NotFound)
    else if s.t.requests[r].status != Pending then Quietly(Conflict)
    else if Closer(s.t.requests[r], status) != Some(actor) then Quietly(Forbidden)
    else Outcome([RequestClosed(r, status)], RequestIs(s.t.requests[r].(status := status)))
  }

  function Claim(s: Store, actor: UserId, l: LinkId, key: Key, id: TxnId, reference: Reference, now: Time): Outcome {
    if l !in s.t.links then Quietly(NotFound)
    else
      var link := s.t.links[l];
      if link.status == Claimed then
        if link.claimer == Some(actor) then Quietly(ClaimReplay(s.t, l, actor, reference)) else Quietly(Conflict)
      else if link.status == Expired || link.expiresAt < now then Outcome([LinkLapsed(l, now)], Gone)
      else if link.status == Cancelled then Quietly(Conflict)
      else if link.creator == actor then Quietly(BadRequest)
      else
        var p := Payment(ByLink(l, now), link.creator, actor, link.amount, id, reference, key);
        Settle(s, p, Moved(ReceiptOf(CompletedRow(p))))
  }

  /** The reply to the claimer's own retry. When the link names no transfer the code falls back on the link
      id, and when that transfer is missing on a newly drawn reference. */
  function ClaimReplay(t: Tables, l: LinkId, actor: UserId, drawn: Reference): Reply
    requires l in t.links
  {
    var link := t.links[l];
    var id := if link.transfer.Some? then link.transfer.value else l;
    var reference := if id in t.transfers then t.transfers[id].reference else drawn;
    Moved(Receipt(id, reference, link.creator, actor, link.amount, Completed))
  }

  function CancelLink(s: Store, actor: UserId, l: LinkId): Outcome {
    if l !in s.t.links then Quietly(NotFound)
    else if actor != s.t.links[l].creator then Quietly(Forbidden)
    else if s.t.links[l].status == Claimed then Quietly(Conflict)
    else if s.t.links[l].status == Expired then Quietly(Gone)
    else Outcome([LinkWithdrawn(l)], LinkIs(s.t.links[l].(status := Cancelled)))
  }

  function ViewLink(s: Store, l: LinkId, now: Time): Outcome {
    if l !in s.t.links then Quietly(NotFound)
    else if s.t.links[l].status == Active && s.t.links[l].expiresAt < now then
      Outcome([LinkLapsed(l, now)], LinkIs(s.t.links[l].(status := Expired)))
    else Quietly(LinkIs(s.t.links[l]))
  }

  const MIN_LINK_TTL_SECS: int := 60
  const MAX_LINK_TTL_SECS: int := 86400

  function MakeLink(s: Store, creator: UserId, text: string, ttl: int, l: LinkId, now: Time): Outcome {
    match ParsePositive(text)
    case Err(_) => Quietly(BadRequest)
    case Ok(amount) =>
      if !(MIN_LINK_TTL_SECS <= ttl <= MAX_LINK_TTL_SECS) then Quietly(BadRequest)
      else if l in s.t.links || creator !in s.t.balances then Quietly(Refused)
      else
        var link := Link(creator, amount, Active, None, None, now + ttl);
        Outcome([LinkMade(l, creator, amount, now + ttl)], LinkIs(link))
  }

  function MakeRequest(s: Store, requester: UserId, debtor: UserId, text: string, r: RequestId): Outcome {
    match ParsePositive(text)
    case Err(_) => Quietly(BadRequest)
    case Ok(amount) =>
      if requester == debtor then Quietly(BadRequest)
      else if r in s.t.requests || requester !in s.t.balances || debtor !in s.t.balances then Quietly(Refused)
      else Outcome([RequestMade(r, requester, debtor, amount)], RequestIs(Request(requester, debtor, amount, Pending)))
  }

  /** A call, with the ids, references and clock readings the service draws for itself. */
  datatype Call =
    | DoRegister(user: UserId, txn: TxnId, reference: Reference)
    | DoTransfer(sender: UserId, recipient: UserId, text: string, key: Key, id: TxnId, reference: Reference, day: Day)
    | DoAccept(actor: UserId, request: RequestId, key: Key, id: TxnId, reference: Reference)
    | DoClose(actor: UserId, request: RequestId, status: RequestStatus)
    | DoClaim(actor: UserId, link: LinkId, key: Key, id: TxnId, reference: Reference, now: Time)
    | DoCancelLink(actor: UserId, link: LinkId)
    | DoView(link: LinkId, now: Time)
    | DoMakeLink(creator: UserId, text: string, ttl: int, link: LinkId, now: Time)
    | DoMakeRequest(requester: UserId, debtor: UserId, text: string, request: RequestId)

  function Serve(s: Store, c: Call): Outcome {
    match c
    case DoRegister(u, txn, reference) => Register(s, u, txn, reference)
    case DoTransfer(a, b, text, key, id, reference, day) => Transfer(s, a, b, text, key, id, reference, day)
    case DoAccept(actor, r, key, id, reference) => Accept(s, actor, r, key, id, reference)
    case DoClose(actor, r, status) => CloseRequest(s, actor, r, status)
    case DoClaim(actor, l, key, id, reference, now) => Claim(s, actor, l, key, id, reference, now)
    case DoCancelLink(actor, l) => CancelLink(s, actor, l)
    case DoView(l, now) => ViewLink(s, l, now)
    case DoMakeLink(creator, text, ttl, l, now) => MakeLink(s, creator, text, ttl, l, now)
    case DoMakeRequest(requester, debtor, text, r) => MakeRequest(s, requester, debtor, text, r)
  }
}
