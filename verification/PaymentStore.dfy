/**
  The services as they are written: methods that update the tables in place, statement by statement. Each
  is proved to commit exactly the events, and give exactly the reply, of its function in `Services`.
*/
module PaymentStore {
  import opened Model
  import opened Books
  import opened Money
  import opened Invariants
  import opened Services
  import opened Sequential

  // ---------- carrying out an outcome ----------

  /** `after` is `before` with the outcome's events committed. */
  ghost predicate Does(before: Store, o: Outcome, after: Store) {
    Allowed(before.t, o.events) && after == Commit(before, o.events)
  }

  lemma DoesOne(before: Store, e: Event, reply: Reply, after: Store)
    requires TablesAllow(before.t, e) && after == Post1(before, e)
    ensures Does(before, Outcome([e], reply), after)
  {
    assert [e][1..] == [];
  }

  lemma DoesTwo(before: Store, d: Event, e: Event, reply: Reply, after: Store)
    requires TablesAllow(before.t, d) && TablesAllow(Post1(before, d).t, e) && after == Post1(Post1(before, d), e)
    ensures Does(before, Outcome([d] + [e], reply), after)
  {
    assert ([d] + [e])[1..] == [e];
    DoesOne(Post1(before, d), e, reply, after);
  }

  /** The schema's CHECKs and unique index, as far as a service relies on them. */
  ghost predicate SchemaOk(t: Tables) {
    DocsOk(t) && KeysOk(t)
  }

  lemma SchemaKept(t: Tables, e: Event)
    requires SchemaOk(t) && TablesAllow(t, e)
    ensures SchemaOk(ApplyTables(t, e))
  {
  }

  lemma {:induction false} SchemaKeptBy(before: Store, es: seq<Event>)
    requires SchemaOk(before.t) && Allowed(before.t, es)
    ensures SchemaOk(Commit(before, es).t)
    decreases |es|
  {
    if es != [] {
      SchemaKept(before.t, es[0]);
      SchemaKeptBy(Post1(before, es[0]), es[1..]);
    }
  }

  /** Carrying out what `Serve` says keeps a sound store sound, so every theorem about call sequences is
      about this class. */
  lemma ServedIsSound(before: Store, c: Call, after: Store)
    requires Sound(before) && Does(before, Serve(before, c), after)
    ensures Sound(after)
  {
    CallKeepsSound(before, c);
  }

  class Engine {
    var users: seq<UserId>
    var balances: map<UserId, Balance>
    var transfers: map<TxnId, TransferRow>
    var keys: map<Key, TxnId>
    var links: map<LinkId, Link>
    var requests: map<RequestId, Request>
    var outflow: map<(UserId, Day), int>
    var ledger: seq<LedgerRow>
    var history: seq<HistoryRow>

    function State(): Store
      reads this
    {
      Store(Tables(users, balances, transfers, keys, links, requests, outflow), ledger, history)
    }

    ghost predicate Valid()
      reads this
    {
      SchemaOk(State().t)
    }

    constructor ()
      ensures Valid() && State() == EmptyStore
    {
      users, balances, transfers, keys := [], map[], map[], map[];
      links, requests, outflow, ledger, history := map[], map[], map[], [], [];
    }

    /** `SELECT ... WHERE user_id IN (..) ORDER BY user_id ASC FOR UPDATE`. */
    function LockedRows(first: UserId, second: UserId): seq<(UserId, int)>
      reads this
    {
      (if first in balances then [(first, balances[first].amount)] else [])
      + (if second in balances then [(second, balances[second].amount)] else [])
    }

    /** The locked balances of the two parties, when both rows exist. */
    method LockBalances(payer: UserId, payee: UserId) returns (found: Option<(int, int)>)
      requires payer != payee
      ensures found == if payer in balances && payee in balances
                       then Some((balances[payer].amount, balances[payee].amount)) else None
    {
      var first, second := payee, payer;
      if payer < payee {
        first, second := payer, payee;
      }
      var rows := LockedRows(first, second);
      if |rows| < 2 {
        return None;
      }
      var payerBalance: Option<int>, payeeBalance: Option<int> := None, None;
      for k := 0 to |rows|
        invariant payerBalance == if exists j :: 0 <= j < k && rows[j].0 == payer
                                  then Some(balances[payer].amount) else None
        invariant payeeBalance == if exists j :: 0 <= j < k && rows[j].0 == payee
                                  then Some(balances[payee].amount) else None
      {
        if rows[k].0 == payer {
          payerBalance := Some(rows[k].1);
        } else if rows[k].0 == payee {
          payeeBalance := Some(rows[k].1);
        }
      }
      assert rows[0].0 == first && rows[1].0 == second;
      match payerBalance {
        case None => return None;
        case Some(a) =>
          match payeeBalance {
            case None => return None;
            case Some(b) => return Some((a, b));
          }
      }
    }

    /** Debits and credits the balances, inserts the transfer, the double entry and the two history rows. */
    method MoveMoney(p: Payment, payerBalance: int, payeeBalance: int)
      requires CanPay(State().t, p)
      requires payerBalance == balances[p.payer].amount && payeeBalance == balances[p.payee].amount
      modifies this`balances, this`transfers, this`keys, this`ledger, this`history
      ensures balances == PayBalances(old(balances), p)
      ensures transfers == old(transfers)[p.id := CompletedRow(p)] && keys == old(keys)[p.key := p.id]
      ensures ledger == old(ledger) + [Debit(old(State().t), p), Credit(old(State().t), p)]
      ensures history == old(history) + [SentBy(old(State().t), p), ReceivedBy(old(State().t), p)]
    {
      var newPayer := payerBalance - p.amount;
      var newPayee := payeeBalance + p.amount;
      balances := balances[p.payer := Balance(newPayer, balances[p.payer].version + 1)];
      balances := balances[p.payee := Balance(newPayee, balances[p.payee].version + 1)];
      transfers := transfers[p.id := TransferRow(p.id, p.reference, p.payer, p.payee, p.amount, Completed, p.key)];
      keys := keys[p.key := p.id];
      ledger := ledger + [DebitRow(p, newPayer)];
      ledger := ledger + [CreditRow(p, newPayee)];
      history := history + [SentHistory(p, newPayer)];
      history := history + [ReceivedHistory(p, newPayee)];
    }

    method RegisterUser(u: UserId, txn: TxnId, reference: Reference) returns (reply: Reply)
      requires Valid()
      modifies this
      ensures Valid()
      ensures var o := Register(old(State()), u, txn, reference);
              reply == o.reply && Does(old(State()), o, State())
    {
      ghost var s := State();
      if u in balances || txn in transfers || !FreshInLedger(ledger, txn) {
        return Refused;
      }
      users := users + [u];
      balances := balances[u := Balance(SEED_BALANCE_PAISA, 0)];
      ledger := ledger + [LedgerRow(txn, reference, u, None, 1, SEED_BALANCE_PAISA, SEED_BALANCE_PAISA, Funding, None)];
      history := history + [FundingHistory(u, txn, reference)];
      reply := Registration;
      DoesOne(s, Registered(u, txn, reference), reply, State());
      SchemaKept(s.t, Registered(u, txn, reference));
    }

    /** Records a transfer over a cap: no money moves, the key is used. */
    method RecordRefusal(p: Payment, status: Status) returns (ok: bool)
      requires p.payer != p.payee && 0 < p.amount && status != Completed && p.key !in keys
      modifies this`transfers, this`keys, this`history
      ensures var o := Refuse(old(State()), RefusedRow(p, status), Unprocessable);
              && ok == (o.events == [Blocked(RefusedRow(p, status))])
              && (ok ==> TablesAllow(old(State()).t, Blocked(RefusedRow(p, status)))
                         && State() == Post1(old(State()), Blocked(RefusedRow(p, status))))
              && (!ok ==> o.events == [] && State() == old(State()))
    {
      if p.id in transfers || p.payer !in balances || p.payee !in balances {
        return false;
      }
      transfers := transfers[p.id := RefusedRow(p, status)];
      keys := keys[p.key := p.id];
      var balance := balances[p.payer].amount;
      history := history + [RefusedHistory(p, status, balance)];
      return true;
    }

    method ProcessTransfer(sender: UserId, recipient: UserId, text: string, key: Key,
                           id: TxnId, reference: Reference, day: Day)
      returns (reply: Reply)
      requires Valid()
      modifies this
      ensures Valid()
      ensures var o := Transfer(old(State()), sender, recipient, text, key, id, reference, day);
              reply == o.reply && Does(old(State()), o, State())
    {
      var parsed := ParsePositive(text);
      if parsed.Err? {
        return BadRequest;
      }
      var amount := parsed.paisa;
      if sender == recipient {
        return BadRequest;
      }
      if key in keys {
        var row := transfers[keys[key]];
        if row.sender == sender && row.recipient == recipient && row.amount == amount {
          return Replayed(ReceiptOf(row));
        } else {
          return Reply.Conflict;
        }
      }
      reply := TransferNew(Payment(Direct, sender, recipient, amount, id, reference, key), day);
    }

    /** The rest of `process_transfer`, for a key never seen: caps, counter, money. */
    method TransferNew(p: Payment, day: Day) returns (reply: Reply)
      requires Valid() && p.via == Direct && p.payer != p.payee && 0 < p.amount && p.key !in keys
      modifies this
      ensures Valid()
      ensures var o := TransferAnew(old(State()), p, day); reply == o.reply && Does(old(State()), o, State())
    {
      ghost var s := State();
      if p.amount > PER_TRANSFER_CAP_PAISA {
        var ok := RecordRefusal(p, Rejected);
        reply := if ok then Unprocessable else Refused;
        if ok {
          DoesOne(s, Blocked(RefusedRow(p, Rejected)), reply, State());
          SchemaKept(s.t, Blocked(RefusedRow(p, Rejected)));
        }
        return;
      }
      ghost var drew := Drew(p.payer, day, p.amount);
      outflow := outflow[(p.payer, day) := Outflow(State().t, p.payer, day) + p.amount];
      var newDailyTotal := outflow[(p.payer, day)];
      ghost var drawn := State();
      assert drawn == Post1(s, drew);
      SchemaKept(s.t, drew);
      DoesOne(s, drew, Refused, drawn);
      if newDailyTotal > DAILY_OUTFLOW_CAP_PAISA {
        var ok := RecordRefusal(p, Flagged);
        reply := if ok then Held(ReceiptOf(RefusedRow(p, Flagged))) else Refused;
        if ok {
          DoesTwo(s, drew, Blocked(RefusedRow(p, Flagged)), reply, State());
          SchemaKept(drawn.t, Blocked(RefusedRow(p, Flagged)));
        }
      } else {
        reply := PayDirect(p);
        if Settle(drawn, p, Moved(ReceiptOf(CompletedRow(p)))).events != [] {
          DoesTwo(s, drew, Paid(p), reply, State());
          SchemaKept(drawn.t, Paid(p));
        }
      }
      assert Settle(drawn, p, Moved(ReceiptOf(CompletedRow(p)))) == Settle(s, p, Moved(ReceiptOf(CompletedRow(p))));
      assert [drew] + [] == [drew];
    }

    /** The locked part of `process_transfer`. */
    method PayDirect(p: Payment) returns (reply: Reply)
      requires p.via == Direct && p.payer != p.payee && 0 < p.amount <= PER_TRANSFER_CAP_PAISA
      modifies this`balances, this`transfers, this`keys, this`ledger, this`history
      ensures var o := Settle(old(State()), p, Moved(ReceiptOf(CompletedRow(p))));
              && reply == o.reply
              && (o.events == [] ==> State() == old(State()))
              && (o.events != [] ==>
                    && o.events == [Paid(p)] && TablesAllow(old(State()).t, Paid(p))
                    && State() == Post1(old(State()), Paid(p)))
    {
      var locked := LockBalances(p.payer, p.payee);
      if locked.None? {
        return NotFound;
      }
      if locked.value.0 < p.amount {
        return Unprocessable;
      }
      if p.id in transfers || p.key in keys || !FreshInLedger(ledger, p.id) {
        return Refused;
      }
      MoveMoney(p, locked.value.0, locked.value.1);
      reply := Moved(ReceiptOf(CompletedRow(p)));
    }

    method AcceptRequest(actor: UserId, r: RequestId, key: Key, id: TxnId, reference: Reference) returns (reply: Reply)
      requires Valid()
      modifies this
      ensures Valid()
      ensures var o := Accept(old(State()), actor, r, key, id, reference);
              reply == o.reply && Does(old(State()), o, State())
    {
      ghost var s := State();
      if r !in requests {
        return NotFound;
      }
      var q := requests[r];
      if q.status != Pending {
        return Reply.Conflict;
      }
      if actor != q.debtor {
        return Forbidden;
      }
      var locked := LockBalances(q.debtor, q.requester);
      if locked.None? {
        return NotFound;
      }
      if locked.value.0 < q.amount {
        return Unprocessable;
      }
      if id in transfers || key in keys || !FreshInLedger(ledger, id) {
        return Refused;
      }
      var p := Payment(ByRequest(r), q.debtor, q.requester, q.amount, id, reference, key);
      MoveMoney(p, locked.value.0, locked.value.1);
      requests := requests[r := q.(status := Accepted)];
      reply := Moved(ReceiptOf(CompletedRow(p)));
      DoesOne(s, Paid(p), reply, State());
      SchemaKept(s.t, Paid(p));
    }

    /** `reject_request` and `cancel_request`. */
    method CloseRequest(actor: UserId, r: RequestId, status: RequestStatus) returns (reply: Reply)
      requires Valid()
      requires status in {RequestRejected, RequestCancelled}
      modifies this
      ensures Valid()
      ensures var o := Services.CloseRequest(old(State()), actor, r, status);
              reply == o.reply && Does(old(State()), o, State())
    {
      ghost var s := State();
      if r !in requests {
        return NotFound;
      }
      var q := requests[r];
      if q.status != Pending {
        return Reply.Conflict;
      }
      if actor != (if status == RequestRejected then q.debtor else q.requester) {
        return Forbidden;
      }
      requests := requests[r := q.(status := status)];
      reply := RequestIs(requests[r]);
      DoesOne(s, RequestClosed(r, status), reply, State());
      SchemaKept(s.t, RequestClosed(r, status));
    }

    method ClaimLink(actor: UserId, l: LinkId, key: Key, id: TxnId, reference: Reference, now: Time)
      returns (reply: Reply)
      requires Valid()
      modifies this
      ensures Valid()
      ensures var o := Claim(old(State()), actor, l, key, id, reference, now);
              reply == o.reply && Does(old(State()), o, State())
    {
      ghost var s := State();
      if l !in links {
        return NotFound;
      }
      var link := links[l];
      if link.status == Claimed {
        if link.claimer != Some(actor) {
          return Reply.Conflict;
        }
        var found := if link.transfer.Some? then link.transfer.value else l;
        var stored := if found in transfers then transfers[found].reference else reference;
        return Moved(Receipt(found, stored, link.creator, actor, link.amount, Completed));
      }
      if link.status == Expired || link.expiresAt < now {
        links := links[l := link.(status := Expired)];
        DoesOne(s, LinkLapsed(l, now), Gone, State());
        SchemaKept(s.t, LinkLapsed(l, now));
        return Gone;
      }
      if link.status == Cancelled {
        return Reply.Conflict;
      }
      if link.creator == actor {
        return BadRequest;
      }
      var p := Payment(ByLink(l, now), link.creator, actor, link.amount, id, reference, key);
      reply := PayLink(p, l);
      if Settle(s, p, Moved(ReceiptOf(CompletedRow(p)))).events != [] {
        DoesOne(s, Paid(p), reply, State());
        SchemaKept(s.t, Paid(p));
      }
    }

    /** The part of `claim_link` that moves the money and closes the link. */
    method PayLink(p: Payment, l: LinkId) returns (reply: Reply)
      requires p.via.ByLink? && p.via.link == l && ViaOk(State().t, p) && p.payer != p.payee && 0 < p.amount
      modifies this`balances, this`transfers, this`keys, this`links, this`ledger, this`history
      ensures var o := Settle(old(State()), p, Moved(ReceiptOf(CompletedRow(p))));
              && reply == o.reply
              && (o.events == [] ==> State() == old(State()))
              && (o.events != [] ==>
                    && o.events == [Paid(p)] && TablesAllow(old(State()).t, Paid(p))
                    && State() == Post1(old(State()), Paid(p)))
    {
      var locked := LockBalances(p.payer, p.payee);
      if locked.None? {
        return NotFound;
      }
      if locked.value.0 < p.amount {
        return Unprocessable;
      }
      if p.id in transfers || p.key in keys || !FreshInLedger(ledger, p.id) {
        return Refused;
      }
      MoveMoney(p, locked.value.0, locked.value.1);
      links := links[l := links[l].(status := Claimed, claimer := Some(p.payee), transfer := Some(p.id))];
      reply := Moved(ReceiptOf(CompletedRow(p)));
    }

    method CancelLink(actor: UserId, l: LinkId) returns (reply: Reply)
      requires Valid()
      modifies this
      ensures Valid()
      ensures var o := Services.CancelLink(old(State()), actor, l);
              reply == o.reply && Does(old(State()), o, State())
    {
      ghost var s := State();
      if l !in links {
        return NotFound;
      }
      var link := links[l];
      if actor != link.creator {
        return Forbidden;
      }
      if link.status == Claimed {
        return Reply.Conflict;
      }
      if link.status == Expired {
        return Gone;
      }
      links := links[l := link.(status := Cancelled)];
      reply := LinkIs(links[l]);
      DoesOne(s, LinkWithdrawn(l), reply, State());
      SchemaKept(s.t, LinkWithdrawn(l));
    }

    /** `get_link_by_token`, when no other call comes between its read and its write. */
    method GetLinkByToken(l: LinkId, now: Time) returns (reply: Reply)
      requires Valid()
      modifies this
      ensures Valid()
      ensures var o := ViewLink(old(State()), l, now);
              reply == o.reply && Does(old(State()), o, State())
    {
      ghost var s := State();
      if l !in links {
        return NotFound;
      }
      var link := links[l];
      if link.status == Active && link.expiresAt < now {
        link := link.(status := Expired);
        links := links[l := link];
        DoesOne(s, LinkLapsed(l, now), LinkIs(link), State());
        SchemaKept(s.t, LinkLapsed(l, now));
      }
      reply := LinkIs(link);
    }

    method CreateLink(creator: UserId, text: string, ttl: int, l: LinkId, now: Time) returns (reply: Reply)
      requires Valid()
      modifies this
      ensures Valid()
      ensures var o := MakeLink(old(State()), creator, text, ttl, l, now);
              reply == o.reply && Does(old(State()), o, State())
    {
      ghost var s := State();
      var parsed := ParsePositive(text);
      if parsed.Err? || !(MIN_LINK_TTL_SECS <= ttl <= MAX_LINK_TTL_SECS) {
        return BadRequest;
      }
      if l in links || creator !in balances {
        return Refused;
      }
      links := links[l := Link(creator, parsed.paisa, Active, None, None, now + ttl)];
      reply := LinkIs(links[l]);
      DoesOne(s, LinkMade(l, creator, parsed.paisa, now + ttl), reply, State());
      SchemaKept(s.t, LinkMade(l, creator, parsed.paisa, now + ttl));
    }

    method CreateRequest(requester: UserId, debtor: UserId, text: string, r: RequestId) returns (reply: Reply)
      requires Valid()
      modifies this
      ensures Valid()
      ensures var o := MakeRequest(old(State()), requester, debtor, text, r);
              reply == o.reply && Does(old(State()), o, State())
    {
      ghost var s := State();
      var parsed := ParsePositive(text);
      if parsed.Err? || requester == debtor {
        return BadRequest;
      }
      if r in requests || requester !in balances || debtor !in balances {
        return Refused;
      }
      requests := requests[r := Request(requester, debtor, parsed.paisa, Pending)];
      reply := RequestIs(requests[r]);
      DoesOne(s, RequestMade(r, requester, debtor, parsed.paisa), reply, State());
      SchemaKept(s.t, RequestMade(r, requester, debtor, parsed.paisa));
    }
  }
}
