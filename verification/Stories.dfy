/**
  What happens from one call to a later one, with any other calls in between: a transfer moves the amount its
  text names; a request is paid by the one it was sent to, to the one who sent it; a link pays whoever claims
  it in time, and nobody after that.
*/
module Stories {
  import opened Model
  import opened Books
  import opened Money
  import opened Services
  import opened Sequential
  import opened Retries
  import opened Effects
  import opened Replies
  import G = Guarantees

  /** Exactly `n` paisa have gone from one balance to another, and no other balance has changed. */
  ghost predicate Moves(before: Store, after: Store, payer: UserId, payee: UserId, n: int) {
    && payer != payee && payer in before.t.balances && payee in before.t.balances
    && after.t.balances.Keys == before.t.balances.Keys
    && forall u | u in before.t.balances ::
         after.t.balances[u].amount
         == before.t.balances[u].amount + (if u == payer then -n else if u == payee then n else 0)
  }

  lemma ReceiptMoves(s: Store, c: Call)
    requires MovesMoney(s, c)
    ensures var r := Serve(s, c).reply.receipt; Moves(s, After(s, c), r.sender, r.recipient, r.amount)
  {
    MovedBalances(s, c);
  }

  // ---------- transfers ----------

  /** A transfer under a new key moves the amount its text means, from the caller to the recipient, exactly when
      that amount is within the caps and the caller has it. */
  lemma TransferMovesText(s: Store, sender: UserId, recipient: UserId, text: string, key: Key,
                          id: TxnId, reference: Reference, day: Day, n: int)
    requires Sound(s) && key !in s.t.keys && (ParsePositive(text) == Ok(n) || ParsePositive(text).Err?)
    ensures var c := DoTransfer(sender, recipient, text, key, id, reference, day);
            && Allowed(s.t, Serve(s, c).events)
            && (Serve(s, c).reply.Moved? <==>
                  && ParsePositive(text) == Ok(n) && n <= 5_000_000 && sender != recipient
                  && Outflow(s.t, sender, day) + n <= 20_000_000
                  && BothHere(s, sender, recipient) && n <= s.t.balances[sender].amount && Fresh(s, id, key))
            && (Serve(s, c).reply.Moved? ==> Moves(s, After(s, c), sender, recipient, n))
            && (!Serve(s, c).reply.Moved? ==> After(s, c).t.balances == s.t.balances)
  {
    var c := DoTransfer(sender, recipient, text, key, id, reference, day);
    CallKeepsSound(s, c);
    EarlyTransferReplies(s, sender, recipient, text, key, id, reference, day);
    if ParsePositive(text).Ok? && sender != recipient {
      TransferReplies(s, sender, recipient, text, key, id, reference, day, n);
    }
    if Serve(s, c).reply.Moved? {
      MovedParties(s, c);
      ReceiptMoves(s, c);
    } else {
      SoundDocs(s);
      ServeAccepted(s, c);
      AllOrNothing(s, c);
    }
  }

  /** With the amount written in paisa. */
  lemma TransferMovesPaisa(s: Store, sender: UserId, recipient: UserId, n: int, key: Key,
                           id: TxnId, reference: Reference, day: Day)
    requires Sound(s) && key !in s.t.keys
    ensures var c := DoTransfer(sender, recipient, Display(n), key, id, reference, day);
            && Allowed(s.t, Serve(s, c).events)
            && (Serve(s, c).reply.Moved? <==>
                  && 1 <= n <= 5_000_000 && sender != recipient && Outflow(s.t, sender, day) + n <= 20_000_000
                  && BothHere(s, sender, recipient) && n <= s.t.balances[sender].amount && Fresh(s, id, key))
            && (Serve(s, c).reply.Moved? ==> Moves(s, After(s, c), sender, recipient, n))
            && (!Serve(s, c).reply.Moved? ==> After(s, c).t.balances == s.t.balances)
  {
    PositiveRoundTrip(n);
    TransferMovesText(s, sender, recipient, Display(n), key, id, reference, day, n);
  }

  /** With the amount written in taka and poisha: a hundred times as much. */
  lemma TransferMovesTaka(s: Store, sender: UserId, recipient: UserId, taka: nat, poisha: nat, key: Key,
                          id: TxnId, reference: Reference, day: Day)
    requires Sound(s) && key !in s.t.keys && poisha < 100 && 1 <= 100 * taka + poisha <= 10_000_000_000
    ensures var c := DoTransfer(sender, recipient, TakaText(taka, poisha), key, id, reference, day);
            && Allowed(s.t, Serve(s, c).events)
            && (Serve(s, c).reply.Moved? ==> Moves(s, After(s, c), sender, recipient, 100 * taka + poisha))
  {
    TakaRoundTrip(taka, poisha);
    TransferMovesText(s, sender, recipient, TakaText(taka, poisha), key, id, reference, day, 100 * taka + poisha);
  }

  // ---------- requests ----------

  /** The calls that settle request `r` of requester `a` to debtor `b`. */
  predicate SettlesRequest(c: Call, r: RequestId, a: UserId, b: UserId) {
    || (c.DoAccept? && c.request == r && c.actor == b)
    || (c.DoClose? && c.request == r && c.status == RequestRejected && c.actor == b)
    || (c.DoClose? && c.request == r && c.status == RequestCancelled && c.actor == a)
  }

  predicate SparesRequest(t: Tables, e: Event, r: RequestId) {
    && TablesAllow(t, e) && !(e.Paid? && e.pay.via == ByRequest(r))
    && !(e.RequestClosed? && e.request == r) && !(e.RequestMade? && e.request == r)
  }

  lemma SparedRequest(t: Tables, e: Event, r: RequestId)
    requires SparesRequest(t, e, r) && r in t.requests
    ensures r in ApplyTables(t, e).requests && ApplyTables(t, e).requests[r] == t.requests[r]
  {
  }

  lemma EventsSpareRequest(s: Store, c: Call, r: RequestId)
    requires Allowed(s.t, Serve(s, c).events) && r in s.t.requests
    requires !SettlesRequest(c, r, s.t.requests[r].requester, s.t.requests[r].debtor)
    ensures forall e <- Serve(s, c).events ::
              && !(e.Paid? && e.pay.via == ByRequest(r)) && !(e.RequestClosed? && e.request == r)
              && !(e.RequestMade? && e.request == r)
  {
    if c.DoTransfer? {
      if Serve(s, c).events != [] { TransferCases(s, c); }
    } else if c.DoAccept? {
      AcceptReplies(s, c.actor, c.request, c.key, c.id, c.reference);
    } else if c.DoClose? {
      ClosingReplies(s, c.actor, c.request);
    }
  }

  lemma CallSparesRequest(s: Store, c: Call, r: RequestId)
    requires Allowed(s.t, Serve(s, c).events) && |Serve(s, c).events| <= 2 && r in s.t.requests
    requires !SettlesRequest(c, r, s.t.requests[r].requester, s.t.requests[r].debtor)
    ensures r in After(s, c).t.requests && After(s, c).t.requests[r] == s.t.requests[r]
  {
    var es := Serve(s, c).events;
    EventsSpareRequest(s, c, r);
    CommitShort(s, es);
    if |es| >= 1 { SparedRequest(s.t, es[0], r); }
    if |es| == 2 { SparedRequest(ApplyTables(s.t, es[0]), es[1], r); }
  }

  lemma CallKeepsTerms(s: Store, c: Call, r: RequestId)
    requires Allowed(s.t, Serve(s, c).events) && |Serve(s, c).events| <= 2 && r in s.t.requests
    ensures var q, t' := s.t.requests[r], After(s, c).t;
            && r in t'.requests && t'.requests[r].requester == q.requester && t'.requests[r].debtor == q.debtor
            && t'.requests[r].amount == q.amount
  {
    var es := Serve(s, c).events;
    CommitShort(s, es);
    if |es| >= 1 { G.RequestStep(s.t, es[0], r); }
    if |es| == 2 { G.RequestStep(ApplyTables(s.t, es[0]), es[1], r); }
  }

  /** A request keeps its parties and its amount through any calls, and stays as it is until its debtor accepts
      or rejects it or its requester cancels it. */
  lemma {:induction false} RequestKept(s: Store, calls: seq<Call>, r: RequestId)
    requires Sound(s) && r in s.t.requests
    ensures var q, t' := s.t.requests[r], ServeAll(s, calls).t;
            && r in t'.requests && t'.requests[r].requester == q.requester && t'.requests[r].debtor == q.debtor
            && t'.requests[r].amount == q.amount
            && ((forall c <- calls :: !SettlesRequest(c, r, q.requester, q.debtor)) ==> t'.requests[r] == q)
    decreases |calls|
  {
    if calls != [] {
      SoundDocs(s);
      ServeAccepted(s, calls[0]);
      CallKeepsSound(s, calls[0]);
      CallKeepsTerms(s, calls[0], r);
      if !SettlesRequest(calls[0], r, s.t.requests[r].requester, s.t.requests[r].debtor) {
        CallSparesRequest(s, calls[0], r);
      }
      RequestKept(After(s, calls[0]), calls[1..], r);
      assert forall c <- calls[1..] :: c in calls;
    }
  }

  /** Who asked whom for what, whatever happened since. */
  lemma RequestRemembered(s: Store, a: UserId, b: UserId, n: int, r: RequestId, calls: seq<Call>)
    requires Sound(s) && Serve(s, DoMakeRequest(a, b, Display(n), r)).reply.RequestIs?
    ensures var make := DoMakeRequest(a, b, Display(n), r);
            && Allowed(s.t, Serve(s, make).events) && Sound(After(s, make))
            && r in ServeAll(After(s, make), calls).t.requests
            && 1 <= n <= 10_000_000_000 && a != b
            && var q := ServeAll(After(s, make), calls).t.requests[r];
               && q.requester == a && q.debtor == b && q.amount == n
               && ((forall c <- calls :: !SettlesRequest(c, r, a, b)) ==> q.status == Pending)
  {
    var make := DoMakeRequest(a, b, Display(n), r);
    PositiveRoundTrip(n);
    RequestReplies(s, a, b, Display(n), r);
    CallKeepsSound(s, make);
    RequestWritten(s, make);
    RequestKept(After(s, make), calls, r);
  }

  /** When `a` has asked `b` for `n` paisa, accepting moves exactly `n` from `b` to `a`; it does so exactly when
      `b` is the one who accepts, the request is still pending and `b` has the money; and by anyone else it
      commits nothing. */
  lemma RequestPaidByDebtor(s: Store, a: UserId, b: UserId, n: int, r: RequestId, calls: seq<Call>,
                            actor: UserId, key: Key, id: TxnId, reference: Reference)
    requires Sound(s) && Serve(s, DoMakeRequest(a, b, Display(n), r)).reply.RequestIs?
    ensures var make, accept := DoMakeRequest(a, b, Display(n), r), DoAccept(actor, r, key, id, reference);
            && Allowed(s.t, Serve(s, make).events) && Sound(After(s, make))
            && var later := ServeAll(After(s, make), calls);
               && r in later.t.requests && Allowed(later.t, Serve(later, accept).events)
               && (actor != b ==> Serve(later, accept).events == [])
               && (Serve(later, accept).reply.Moved? <==>
                     && actor == b && later.t.requests[r].status == Pending && BothHere(later, b, a)
                     && n <= later.t.balances[b].amount && Fresh(later, id, key))
               && (Serve(later, accept).reply.Moved? ==> Moves(later, After(later, accept), b, a, n))
  {
    var make, accept := DoMakeRequest(a, b, Display(n), r), DoAccept(actor, r, key, id, reference);
    RequestRemembered(s, a, b, n, r, calls);
    var later := ServeAll(After(s, make), calls);
    CallKeepsSound(later, accept);
    AcceptReplies(later, actor, r, key, id, reference);
    if Serve(later, accept).reply.Moved? {
      MovedParties(later, accept);
      ReceiptMoves(later, accept);
    }
  }

  /** And `b` alone can reject it, `a` alone cancel it. */
  lemma RequestClosedByItsParties(s: Store, a: UserId, b: UserId, n: int, r: RequestId, calls: seq<Call>, actor: UserId)
    requires Sound(s) && Serve(s, DoMakeRequest(a, b, Display(n), r)).reply.RequestIs?
    ensures var make := DoMakeRequest(a, b, Display(n), r);
            && Allowed(s.t, Serve(s, make).events) && Sound(After(s, make))
            && var later := ServeAll(After(s, make), calls);
               && r in later.t.requests
               && (later.t.requests[r].status == Pending ==>
                     && (Serve(later, DoClose(actor, r, RequestRejected)).events != [] <==> actor == b)
                     && (Serve(later, DoClose(actor, r, RequestCancelled)).events != [] <==> actor == a))
               && (later.t.requests[r].status != Pending ==>
                     && Serve(later, DoClose(actor, r, RequestRejected)).events == []
                     && Serve(later, DoClose(actor, r, RequestCancelled)).events == [])
  {
    RequestRemembered(s, a, b, n, r, calls);
    ClosingReplies(ServeAll(After(s, DoMakeRequest(a, b, Display(n), r)), calls), actor, r);
  }

  // ---------- links ----------

  /** The calls that change link `l` of creator `u` that is active until `deadline`. */
  predicate ChangesLink(c: Call, l: LinkId, u: UserId, deadline: Time) {
    || (c.DoClaim? && c.link == l)
    || (c.DoCancelLink? && c.link == l && c.actor == u)
    || (c.DoView? && c.link == l && deadline < c.now)
  }

  lemma LinkTermsStep(t: Tables, e: Event, l: LinkId)
    requires TablesAllow(t, e) && l in t.links
    ensures l in ApplyTables(t, e).links
    ensures var k, k' := t.links[l], ApplyTables(t, e).links[l];
            k'.creator == k.creator && k'.amount == k.amount && k'.expiresAt == k.expiresAt
  {
  }

  lemma CallKeepsLink(s: Store, c: Call, l: LinkId)
    requires Allowed(s.t, Serve(s, c).events) && |Serve(s, c).events| <= 2 && l in s.t.links
    ensures var k, t' := s.t.links[l], After(s, c).t;
            && l in t'.links && t'.links[l].creator == k.creator && t'.links[l].amount == k.amount
            && t'.links[l].expiresAt == k.expiresAt
  {
    var es := Serve(s, c).events;
    CommitShort(s, es);
    if |es| >= 1 { LinkTermsStep(s.t, es[0], l); }
    if |es| == 2 { LinkTermsStep(ApplyTables(s.t, es[0]), es[1], l); }
  }

  lemma EventsSpareLink(s: Store, c: Call, l: LinkId)
    requires Allowed(s.t, Serve(s, c).events) && l in s.t.links
    requires !ChangesLink(c, l, s.t.links[l].creator, s.t.links[l].expiresAt)
    ensures var es := Serve(s, c).events;
            && (|es| >= 1 ==> Spares(s.t, es[0], l))
            && (|es| == 2 ==> es[0].Drew? && Spares(ApplyTables(s.t, es[0]), es[1], l))
            && |es| <= 2
  {
    if c.DoTransfer? && Serve(s, c).events != [] { TransferCases(s, c); }
  }

  lemma CallSparesLink(s: Store, c: Call, l: LinkId)
    requires Allowed(s.t, Serve(s, c).events) && l in s.t.links
    requires !ChangesLink(c, l, s.t.links[l].creator, s.t.links[l].expiresAt)
    ensures l in After(s, c).t.links && After(s, c).t.links[l] == s.t.links[l]
  {
    var es := Serve(s, c).events;
    EventsSpareLink(s, c, l);
    CommitShort(s, es);
    if |es| >= 1 { SparedLink(s.t, es[0], l); }
    if |es| == 2 { SparedLink(ApplyTables(s.t, es[0]), es[1], l); }
  }

  /** A link keeps its creator, amount and expiry through any calls, and stays as it is until somebody claims it,
      its creator cancels it, or it is looked at past its expiry. */
  lemma {:induction false} LinkKept(s: Store, calls: seq<Call>, l: LinkId)
    requires Sound(s) && l in s.t.links
    ensures var k, t' := s.t.links[l], ServeAll(s, calls).t;
            && l in t'.links && t'.links[l].creator == k.creator && t'.links[l].amount == k.amount
            && t'.links[l].expiresAt == k.expiresAt
            && ((forall c <- calls :: !ChangesLink(c, l, k.creator, k.expiresAt)) ==> t'.links[l] == k)
    decreases |calls|
  {
    if calls != [] {
      SoundDocs(s);
      ServeAccepted(s, calls[0]);
      CallKeepsSound(s, calls[0]);
      CallKeepsLink(s, calls[0], l);
      if !ChangesLink(calls[0], l, s.t.links[l].creator, s.t.links[l].expiresAt) {
        CallSparesLink(s, calls[0], l);
      }
      LinkKept(After(s, calls[0]), calls[1..], l);
      assert forall c <- calls[1..] :: c in calls;
    }
  }

  lemma LinkRemembered(s: Store, u: UserId, n: int, ttl: int, l: LinkId, now: Time, calls: seq<Call>)
    requires Sound(s) && Serve(s, DoMakeLink(u, Display(n), ttl, l, now)).reply.LinkIs?
    ensures var make := DoMakeLink(u, Display(n), ttl, l, now);
            && Allowed(s.t, Serve(s, make).events) && Sound(After(s, make))
            && l in ServeAll(After(s, make), calls).t.links
            && 1 <= n <= 10_000_000_000 && 60 <= ttl <= 86_400
            && var k := ServeAll(After(s, make), calls).t.links[l];
               && k.creator == u && k.amount == n && k.expiresAt == now + ttl
               && ((forall c <- calls :: !ChangesLink(c, l, u, now + ttl)) ==> k.status == Active)
  {
    var make := DoMakeLink(u, Display(n), ttl, l, now);
    PositiveRoundTrip(n);
    LinkReplies(s, u, Display(n), ttl, l, now);
    CallKeepsSound(s, make);
    LinkWritten(s, make);
    LinkKept(After(s, make), calls, l);
  }

  /** A link over `n` paisa made at `now` for `ttl` seconds, still active when `v` claims it at `at`: it pays
      exactly when `at` is not past `now + ttl` and the creator has the money, it moves exactly `n` from the
      creator to `v`, and past `now + ttl` it is gone. */
  lemma LinkPaysInTime(s: Store, u: UserId, n: int, ttl: int, l: LinkId, now: Time, calls: seq<Call>,
                       v: UserId, key: Key, id: TxnId, reference: Reference, at: Time)
    requires Sound(s) && Serve(s, DoMakeLink(u, Display(n), ttl, l, now)).reply.LinkIs?
    ensures var make, claim := DoMakeLink(u, Display(n), ttl, l, now), DoClaim(v, l, key, id, reference, at);
            && Allowed(s.t, Serve(s, make).events) && Sound(After(s, make))
            && var later := ServeAll(After(s, make), calls);
               && l in later.t.links && Allowed(later.t, Serve(later, claim).events)
               && (later.t.links[l].status == Active ==>
                     && (Serve(later, claim).reply == Gone <==> now + ttl < at)
                     && (Serve(later, claim).reply.Moved? <==>
                           && at <= now + ttl && v != u && BothHere(later, u, v)
                           && n <= later.t.balances[u].amount && Fresh(later, id, key))
                     && (Serve(later, claim).reply.Moved? ==> Moves(later, After(later, claim), u, v, n)))
  {
    var make, claim := DoMakeLink(u, Display(n), ttl, l, now), DoClaim(v, l, key, id, reference, at);
    LinkRemembered(s, u, n, ttl, l, now, calls);
    var later := ServeAll(After(s, make), calls);
    CallKeepsSound(later, claim);
    ClaimReplies(later, v, l, key, id, reference, at);
    if later.t.links[l].status == Active && Serve(later, claim).reply.Moved? {
      MovedParties(later, claim);
      ReceiptMoves(later, claim);
    }
  }
}
