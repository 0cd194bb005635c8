/**
  One call at a time: every service commits a valid run of the books, so every invariant holds after any
  sequence of calls; and repeating a call that was carried out changes nothing and tells the caller the same.
*/
module Sequential {
  import opened Model
  import opened Ledger
  import opened Books
  import opened Invariants
  import opened Money
  import opened Reconcile
  import opened Statements
  import opened Services

  ghost predicate Represents(s: Store, b: Books) {
    && s.t == b.t
    && (forall u :: RowsOf(s.ledger, u) == At(b.rows, u))
    && (forall u :: CompletedOf(s.history, u) == At(b.done, u))
  }

  // ---------- one event on the flat tables ----------

  lemma TwoRows(ledger: seq<LedgerRow>, x: LedgerRow, y: LedgerRow, u: UserId)
    requires x.user != y.user
    ensures RowsOf(ledger + [x, y], u)
            == RowsOf(ledger, u) + (if u == x.user then [x] else if u == y.user then [y] else [])
  {
    assert ledger + [x, y] == ledger + [x] + [y];
    RowsOfAppend(ledger, x, u);
    RowsOfAppend(ledger + [x], y, u);
  }

  lemma TwoCompleted(history: seq<HistoryRow>, x: HistoryRow, y: HistoryRow, u: UserId)
    requires x.user != y.user && x.status == y.status == Completed
    ensures CompletedOf(history + [x, y], u)
            == CompletedOf(history, u) + (if u == x.user then [x] else if u == y.user then [y] else [])
  {
    assert history + [x, y] == history + [x] + [y];
    CompletedOfAppend(history, x, u);
    CompletedOfAppend(history + [x], y, u);
  }

  lemma PostedRows(s: Store, e: Event, u: UserId)
    requires TablesAllow(s.t, e)
    ensures RowsOf(Post1(s, e).ledger, u) == RowsOf(s.ledger, u) + Written(s.t, e, u)
    ensures CompletedOf(Post1(s, e).history, u) == CompletedOf(s.history, u) + Logged(s.t, e, u)
  {
    if e.Paid? {
      TwoRows(s.ledger, Debit(s.t, e.pay), Credit(s.t, e.pay), u);
      TwoCompleted(s.history, SentBy(s.t, e.pay), ReceivedBy(s.t, e.pay), u);
    } else if e.Registered? {
      RowsOfAppend(s.ledger, FundingRow(e.user, e.txn, e.reference), u);
      CompletedOfAppend(s.history, FundingHistory(e.user, e.txn, e.reference), u);
    } else {
      assert s.ledger + [] == s.ledger && s.history + [] == s.history;
      if e.Blocked? { CompletedOfAppend(s.history, HistoryOf(s.t, e)[0], u); }
    }
  }

  lemma FreshInBooks(s: Store, b: Books, txn: TxnId)
    requires Represents(s, b) && FreshInLedger(s.ledger, txn)
    ensures FreshTxn(b.rows, txn)
  {
    var rows: Accounts := b.rows;
    forall u, k | u in rows && 0 <= k < |rows[u]|
      ensures rows[u][k].txn != txn
    {
      assert RowsOf(s.ledger, u) == At(b.rows, u);
      RowsOfIn(s.ledger, u, k);
    }
  }

  lemma RepresentsAfter(s: Store, b: Books, e: Event)
    requires Represents(s, b) && UsersOk(b) && TablesAllow(s.t, e)
    ensures Represents(Post1(s, e), Apply(b, e)) && UsersOk(Apply(b, e))
  {
    var s', b' := Post1(s, e), Apply(b, e);
    forall u
      ensures RowsOf(s'.ledger, u) == At(b'.rows, u) && CompletedOf(s'.history, u) == At(b'.done, u)
    {
      PostedRows(s, e, u);
      AtAfter(b, e, u);
    }
    UsersKept(b, e);
  }

  // ---------- one call ----------

  /** An event the ledger's unique index accepts as well. */
  predicate Acceptable(s: Store, e: Event) {
    && TablesAllow(s.t, e)
    && (e.Paid? ==> FreshInLedger(s.ledger, e.pay.id))
    && (e.Registered? ==> FreshInLedger(s.ledger, e.txn))
  }

  lemma SettleAccepted(s: Store, p: Payment, reply: Reply)
    requires p.payer != p.payee && 0 < p.amount && ViaOk(s.t, p)
    ensures var o := Settle(s, p, reply); o.events == [] || (o.events == [Paid(p)] && Acceptable(s, Paid(p)))
  {
  }

  /** A service commits at most two events, each acceptable where it is committed. */
  lemma ServeAccepted(s: Store, c: Call)
    requires DocsOk(s.t)
    ensures var es := Serve(s, c).events;
            && |es| <= 2
            && (|es| >= 1 ==> Acceptable(s, es[0]))
            && (|es| == 2 ==> es[0].Drew? && Acceptable(Post1(s, es[0]), es[1]))
  {
    match c {
      case DoTransfer(a, b, text, key, id, reference, day) => TransferAccepted(s, a, b, text, key, id, reference, day);
      case DoAccept(actor, r, key, id, reference) =>
        if r in s.t.requests {
          var q := s.t.requests[r];
          if q.status == Pending && actor == q.debtor {
            var p := Payment(ByRequest(r), q.debtor, q.requester, q.amount, id, reference, key);
            SettleAccepted(s, p, Moved(ReceiptOf(CompletedRow(p))));
          }
        }
      case DoClaim(actor, l, key, id, reference, now) => ClaimAccepted(s, actor, l, key, id, reference, now);
      case DoMakeLink(_, text, _, _, _) => ParsePaisaExact(text);
      case DoMakeRequest(_, _, text, _) => ParsePaisaExact(text);
      case _ =>
    }
  }

  lemma ClaimAccepted(s: Store, actor: UserId, l: LinkId, key: Key, id: TxnId, reference: Reference, now: Time)
    requires DocsOk(s.t)
    ensures var es := Claim(s, actor, l, key, id, reference, now).events;
            |es| <= 1 && (|es| == 1 ==> Acceptable(s, es[0]))
  {
    if l in s.t.links {
      var link := s.t.links[l];
      if link.status == Active && now <= link.expiresAt && link.creator != actor {
        var p := Payment(ByLink(l, now), link.creator, actor, link.amount, id, reference, key);
        SettleAccepted(s, p, Moved(ReceiptOf(CompletedRow(p))));
      }
    }
  }

  lemma TransferAccepted(s: Store, sender: UserId, recipient: UserId, text: string, key: Key,
                         id: TxnId, reference: Reference, day: Day)
    ensures var es := Transfer(s, sender, recipient, text, key, id, reference, day).events;
            && |es| <= 2
            && (|es| >= 1 ==> Acceptable(s, es[0]))
            && (|es| == 2 ==> es[0].Drew? && Acceptable(Post1(s, es[0]), es[1]))
  {
    if ParsePositive(text).Ok? && sender != recipient && key !in s.t.keys {
      var p := Payment(Direct, sender, recipient, ParsePositive(text).paisa, id, reference, key);
      if p.amount <= PER_TRANSFER_CAP_PAISA {
        SettleAccepted(s, p, Moved(ReceiptOf(CompletedRow(p))));
        var drawn := Post1(s, Drew(sender, day, p.amount));
        assert drawn.ledger == s.ledger;
      }
    }
  }

  lemma EventRuns(s: Store, b: Books, e: Event)
    requires Represents(s, b) && UsersOk(b) && Acceptable(s, e)
    ensures Enabled(b, e) && Represents(Post1(s, e), Apply(b, e)) && UsersOk(Apply(b, e))
  {
    if e.Paid? { FreshInBooks(s, b, e.pay.id); }
    if e.Registered? { FreshInBooks(s, b, e.txn); }
    RepresentsAfter(s, b, e);
  }

  lemma OneEvent(s: Store, b: Books, e: Event)
    requires Enabled(b, e) && s.t == b.t
    ensures ValidRun(b, [e]) && Replay(b, [e]) == Apply(b, e)
    ensures Allowed(s.t, [e]) && Commit(s, [e]) == Post1(s, e)
  {
    var none: seq<Event> := [];
    assert [e][1..] == none;
    assert ValidRun(Apply(b, e), none) && Replay(Apply(b, e), none) == Apply(b, e);
    assert Allowed(ApplyTables(s.t, e), none) && Commit(Post1(s, e), none) == Post1(s, e);
  }

  lemma TwoEvents(s: Store, b: Books, d: Event, e: Event)
    requires Enabled(b, d) && s.t == b.t && Enabled(Apply(b, d), e)
    ensures ValidRun(b, [d, e]) && Replay(b, [d, e]) == Apply(Apply(b, d), e)
    ensures Allowed(s.t, [d, e]) && Commit(s, [d, e]) == Post1(Post1(s, d), e)
  {
    assert [d, e][1..] == [e];
    OneEvent(Post1(s, d), Apply(b, d), e);
  }

  /** What a service commits is a valid run of the books the store represents. */
  lemma EventsRun(s: Store, b: Books, es: seq<Event>)
    requires Represents(s, b) && UsersOk(b) && |es| <= 2
    requires |es| >= 1 ==> Acceptable(s, es[0])
    requires |es| == 2 ==> es[0].Drew? && Acceptable(Post1(s, es[0]), es[1])
    ensures Allowed(s.t, es) && ValidRun(b, es) && Represents(Commit(s, es), Replay(b, es))
  {
    if |es| >= 1 {
      EventRuns(s, b, es[0]);
      if |es| == 1 {
        assert es == [es[0]];
        OneEvent(s, b, es[0]);
      } else {
        assert es == [es[0], es[1]];
        EventRuns(Post1(s, es[0]), Apply(b, es[0]), es[1]);
        TwoEvents(s, b, es[0], es[1]);
      }
    }
  }

  /** Every call keeps the store a picture of some books that satisfy every invariant. */
  lemma CallRuns(s: Store, b: Books, c: Call)
    requires Represents(s, b) && Inv(b)
    ensures Allowed(s.t, Serve(s, c).events) && ValidRun(b, Serve(s, c).events)
    ensures Represents(Commit(s, Serve(s, c).events), Replay(b, Serve(s, c).events))
    ensures Inv(Replay(b, Serve(s, c).events))
  {
    InvDocs(b);
    ServeAccepted(s, c);
    EventsRun(s, b, Serve(s, c).events);
    InvAlways(b, Serve(s, c).events);
  }

  // ---------- any sequence of calls ----------

  ghost predicate Sound(s: Store) {
    exists b :: Represents(s, b) && Inv(b)
  }

  const EmptyStore := Store(NoTables, [], [])

  lemma EmptyIsSound()
    ensures Sound(EmptyStore)
  {
    InvInitially();
    assert Represents(EmptyStore, NoBooks);
  }

  lemma CallKeepsSound(s: Store, c: Call)
    requires Sound(s)
    ensures Allowed(s.t, Serve(s, c).events) && Sound(Commit(s, Serve(s, c).events))
  {
    var b :| Represents(s, b) && Inv(b);
    CallRuns(s, b, c);
  }

  /** The store after a sequence of calls, from a sound store. */
  ghost function ServeAll(s: Store, calls: seq<Call>): (r: Store)
    requires Sound(s)
    ensures Sound(r)
    decreases |calls|
  {
    if calls == [] then s
    else
      CallKeepsSound(s, calls[0]);
      ServeAll(Commit(s, Serve(s, calls[0]).events), calls[1..])
  }

  /** After any calls, one at a time, the auditor finds the store clean. */
  lemma SequentialAuditClean(s: Store)
    requires Sound(s)
    ensures StoreConsistent(s.t.users, s.t.balances, s.ledger) && NoDuplicates(s.t.users)
  {
    var b :| Represents(s, b) && Inv(b);
    forall i | 0 <= i < |s.t.users|
      ensures AccountConsistent(RowsOf(s.ledger, s.t.users[i]), s.t.balances[s.t.users[i]].amount)
    {
      var u := s.t.users[i];
      var rows := b.rows[u];
      assert RowsOf(s.ledger, u) == At(b.rows, u);
      assert AccountOk(b.t.balances[u], rows);
      ChainedIffPrefixSum(rows);
      var last: nat := |rows| - 1;
      assert rows[last].running == PrefixSum(rows, last + 1);
    }
  }
}
