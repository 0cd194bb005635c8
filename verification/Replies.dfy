/**
  Exactly when each service gives each reply, from the rows a caller could look up before the call. The replies
  of one service exclude each other and leave no case out.
*/
module Replies {
  import opened Model
  import opened Money
  import opened Services

  /** The unique indexes accept a payment with this id and key. */
  predicate Fresh(s: Store, id: TxnId, key: Key) {
    id !in s.t.transfers && key !in s.t.keys && FreshInLedger(s.ledger, id)
  }

  predicate BothHere(s: Store, u: UserId, v: UserId) {
    u in s.t.balances && v in s.t.balances
  }

  // ---------- requests ----------

  /** The debtor of a pending request, with the money, pays; everyone else is told why not. */
  lemma AcceptReplies(s: Store, actor: UserId, r: RequestId, key: Key, id: TxnId, reference: Reference)
    ensures var o := Serve(s, DoAccept(actor, r, key, id, reference));
            if r !in s.t.requests then o.reply == NotFound && o.events == []
            else
              var q := s.t.requests[r];
              && (o.reply == Reply.Conflict <==> q.status != Pending)
              && (o.reply == Forbidden <==> q.status == Pending && actor != q.debtor)
              && (o.reply == NotFound <==>
                    q.status == Pending && actor == q.debtor && !BothHere(s, q.debtor, q.requester))
              && (o.reply == Unprocessable <==>
                    && q.status == Pending && actor == q.debtor && BothHere(s, q.debtor, q.requester)
                    && s.t.balances[q.debtor].amount < q.amount)
              && (o.reply == Refused <==>
                    && q.status == Pending && actor == q.debtor && BothHere(s, q.debtor, q.requester)
                    && q.amount <= s.t.balances[q.debtor].amount && !Fresh(s, id, key))
              && (o.reply.Moved? <==>
                    && q.status == Pending && actor == q.debtor && BothHere(s, q.debtor, q.requester)
                    && q.amount <= s.t.balances[q.debtor].amount && Fresh(s, id, key))
              && (o.events != [] <==> o.reply.Moved?)
  {
  }

  /** Only the debtor rejects and only the requester cancels, and only while the request is pending. */
  lemma ClosingReplies(s: Store, actor: UserId, r: RequestId)
    ensures var rejecting := Serve(s, DoClose(actor, r, RequestRejected));
            var cancelling := Serve(s, DoClose(actor, r, RequestCancelled));
            if r !in s.t.requests then rejecting == cancelling == Outcome([], NotFound)
            else
              var q := s.t.requests[r];
              && (rejecting.reply == Reply.Conflict <==> q.status != Pending)
              && (cancelling.reply == Reply.Conflict <==> q.status != Pending)
              && (rejecting.reply == Forbidden <==> q.status == Pending && actor != q.debtor)
              && (cancelling.reply == Forbidden <==> q.status == Pending && actor != q.requester)
              && (rejecting.reply.RequestIs? <==> q.status == Pending && actor == q.debtor)
              && (cancelling.reply.RequestIs? <==> q.status == Pending && actor == q.requester)
              && (rejecting.events != [] <==> q.status == Pending && actor == q.debtor)
              && (cancelling.events != [] <==> q.status == Pending && actor == q.requester)
  {
  }

  lemma RequestReplies(s: Store, requester: UserId, debtor: UserId, text: string, r: RequestId)
    ensures var o := Serve(s, DoMakeRequest(requester, debtor, text, r));
            && (o.reply == BadRequest <==> ParsePositive(text).Err? || requester == debtor)
            && (o.reply == Refused <==>
                  && ParsePositive(text).Ok? && requester != debtor
                  && (r in s.t.requests || !BothHere(s, requester, debtor)))
            && (o.reply.RequestIs? <==>
                  && ParsePositive(text).Ok? && requester != debtor
                  && r !in s.t.requests && BothHere(s, requester, debtor))
            && (o.events != [] <==> o.reply.RequestIs?)
  {
  }

  // ---------- links ----------

  /** The claimed test comes before the lapse test, and that before the cancelled test; a link that passes all
      three pays the claimer if the creator has the money. */
  lemma ClaimReplies(s: Store, actor: UserId, l: LinkId, key: Key, id: TxnId, reference: Reference, now: Time)
    ensures var o := Serve(s, DoClaim(actor, l, key, id, reference, now));
            if l !in s.t.links then o.reply == NotFound && o.events == []
            else
              var k := s.t.links[l];
              var open := k.status == Active && now <= k.expiresAt;
              && (o.reply == Gone <==> k.status != Claimed && (k.status == Expired || k.expiresAt < now))
              && (o.reply == Reply.Conflict <==>
                    (k.status == Claimed && k.claimer != Some(actor)) || (k.status == Cancelled && now <= k.expiresAt))
              && (o.reply == BadRequest <==> open && k.creator == actor)
              && (o.reply == NotFound <==> open && k.creator != actor && !BothHere(s, k.creator, actor))
              && (o.reply == Unprocessable <==>
                    && open && k.creator != actor && BothHere(s, k.creator, actor)
                    && s.t.balances[k.creator].amount < k.amount)
              && (o.reply == Refused <==>
                    && open && k.creator != actor && BothHere(s, k.creator, actor)
                    && k.amount <= s.t.balances[k.creator].amount && !Fresh(s, id, key))
              && (o.reply.Moved? <==>
                    || (k.status == Claimed && k.claimer == Some(actor))
                    || (&& open && k.creator != actor && BothHere(s, k.creator, actor)
                        && k.amount <= s.t.balances[k.creator].amount && Fresh(s, id, key)))
              && (o.events == [] <==> !o.reply.Gone? && (o.reply.Moved? ==> k.status == Claimed))
  {
  }

  /** The creator cancels a link that is active or cancelled. */
  lemma CancelReplies(s: Store, actor: UserId, l: LinkId)
    ensures var o := Serve(s, DoCancelLink(actor, l));
            if l !in s.t.links then o == Outcome([], NotFound)
            else
              var k := s.t.links[l];
              && (o.reply == Forbidden <==> actor != k.creator)
              && (o.reply == Reply.Conflict <==> actor == k.creator && k.status == Claimed)
              && (o.reply == Gone <==> actor == k.creator && k.status == Expired)
              && (o.reply.LinkIs? <==> actor == k.creator && k.status in {Active, Cancelled})
              && (o.events != [] <==> o.reply.LinkIs?)
  {
  }

  lemma LinkReplies(s: Store, creator: UserId, text: string, ttl: int, l: LinkId, now: Time)
    ensures var o := Serve(s, DoMakeLink(creator, text, ttl, l, now));
            && (o.reply == BadRequest <==> ParsePositive(text).Err? || ttl < 60 || ttl > 86_400)
            && (o.reply == Refused <==>
                  ParsePositive(text).Ok? && 60 <= ttl <= 86_400 && (l in s.t.links || creator !in s.t.balances))
            && (o.reply.LinkIs? <==>
                  ParsePositive(text).Ok? && 60 <= ttl <= 86_400 && l !in s.t.links && creator in s.t.balances)
            && (o.events != [] <==> o.reply.LinkIs?)
  {
  }

  // ---------- transfers ----------

  /** A direct transfer under a key that nobody used: the per-transfer cap, then the day's total, then the two
      balances, then the funds. */
  lemma TransferReplies(s: Store, sender: UserId, recipient: UserId, text: string, key: Key,
                        id: TxnId, reference: Reference, day: Day, n: int)
    requires ParsePositive(text) == Ok(n) && sender != recipient && key !in s.t.keys
    ensures var o := Serve(s, DoTransfer(sender, recipient, text, key, id, reference, day));
            var here := BothHere(s, sender, recipient);
            var overDay := Outflow(s.t, sender, day) + n > 20_000_000;
            var recordable := id !in s.t.transfers && here;
            && (o.reply.Held? <==> n <= 5_000_000 && overDay && recordable)
            && (o.reply.Moved? <==>
                  && n <= 5_000_000 && !overDay && here && n <= s.t.balances[sender].amount && Fresh(s, id, key))
            && (o.reply == Unprocessable <==>
                  || (n > 5_000_000 && recordable)
                  || (n <= 5_000_000 && !overDay && here && s.t.balances[sender].amount < n))
            && (o.reply == NotFound <==> n <= 5_000_000 && !overDay && !here)
            && (o.reply == Refused <==>
                  || ((n > 5_000_000 || overDay) && !recordable)
                  || (n <= 5_000_000 && !overDay && here && n <= s.t.balances[sender].amount && !Fresh(s, id, key)))
            && (o.events == [] <==> n > 5_000_000 && !recordable)
  {
  }

  /** Bad text and a transfer to oneself are refused before anything is looked up; a used key replays the same
      transfer and conflicts with any other. */
  lemma EarlyTransferReplies(s: Store, sender: UserId, recipient: UserId, text: string, key: Key,
                             id: TxnId, reference: Reference, day: Day)
    ensures var o := Serve(s, DoTransfer(sender, recipient, text, key, id, reference, day));
            && (o.reply == BadRequest <==> ParsePositive(text).Err? || sender == recipient)
            && (ParsePositive(text).Ok? && sender != recipient && key in s.t.keys && s.t.keys[key] in s.t.transfers ==>
                  var row, n := s.t.transfers[s.t.keys[key]], ParsePositive(text).paisa;
                  o == if row.sender == sender && row.recipient == recipient && row.amount == n
                       then Outcome([], Replayed(Receipt(row.id, row.reference, sender, recipient, n, row.status)))
                       else Outcome([], Reply.Conflict))
            && (key !in s.t.keys ==> !o.reply.Replayed? && o.reply != Reply.Conflict)
  {
  }

  /** A registration needs a new user and a new id. */
  lemma RegisterReplies(s: Store, u: UserId, txn: TxnId, reference: Reference)
    ensures var o := Serve(s, DoRegister(u, txn, reference));
            && (o.reply == Registration <==>
                  u !in s.t.balances && txn !in s.t.transfers && FreshInLedger(s.ledger, txn))
            && (o.reply != Registration ==> o == Outcome([], Refused))
  {
  }

  lemma ViewReplies(s: Store, l: LinkId, now: Time)
    ensures var o := Serve(s, DoView(l, now));
            && (o.reply == NotFound <==> l !in s.t.links) && (o.reply.LinkIs? <==> l in s.t.links)
            && (o.events != [] <==> l in s.t.links && s.t.links[l].status == Active && s.t.links[l].expiresAt < now)
  {
  }
}
