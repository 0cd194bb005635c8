/** Repeating a call, after anything else has happened in between. */
module Retries {
  import opened Model
  import opened Books
  import opened Money
  import opened Invariants
  import opened Services
  import opened Sequential

  /** Recorded transfers and their keys stay as they are. */
  ghost predicate Keeps(a: Tables, b: Tables) {
    && (forall id | id in a.transfers :: id in b.transfers && b.transfers[id] == a.transfers[id])
    && (forall k | k in a.keys :: k in b.keys && b.keys[k] == a.keys[k])
  }

  lemma {:induction false} EventsKeep(s: Store, es: seq<Event>)
    requires Allowed(s.t, es)
    ensures Keeps(s.t, Commit(s, es).t)
    decreases |es|
  {
    if es != [] {
      EventsKeep(Post1(s, es[0]), es[1..]);
    }
  }

  lemma {:induction false} CallsKeep(s: Store, calls: seq<Call>)
    requires Sound(s)
    ensures Keeps(s.t, ServeAll(s, calls).t)
    decreases |calls|
  {
    if calls != [] {
      CallKeepsSound(s, calls[0]);
      var es := Serve(s, calls[0]).events;
      EventsKeep(s, es);
      CallsKeep(Commit(s, es), calls[1..]);
    }
  }

  lemma SoundKeys(s: Store, key: Key)
    requires Sound(s) && key in s.t.keys
    ensures s.t.keys[key] in s.t.transfers && s.t.transfers[s.t.keys[key]].key == key
  {
  }

  /** The transfer a key has recorded. */
  function RecordOf(s: Store, key: Key): Option<TransferRow> {
    if key in s.t.keys && s.t.keys[key] in s.t.transfers then Some(s.t.transfers[s.t.keys[key]]) else None
  }

  /** Once a key is recorded, a transfer request under it commits nothing - no row, no counter - whatever has
      happened since: it returns the stored outcome when sender, recipient and amount match, and conflicts
      otherwise. */
  lemma RetryOfRecordedKey(s: Store, calls: seq<Call>, c: Call)
    requires Sound(s) && c.DoTransfer? && c.key in s.t.keys
    requires c.sender != c.recipient && ParsePositive(c.text).Ok?
    ensures RecordOf(s, c.key).Some?
    ensures var row := RecordOf(s, c.key).value;
            Serve(ServeAll(s, calls), c) ==
            if row.sender == c.sender && row.recipient == c.recipient && row.amount == ParsePositive(c.text).paisa
            then Outcome([], Replayed(ReceiptOf(row))) else Outcome([], Reply.Conflict)
  {
    SoundKeys(s, c.key);
    CallsKeep(s, calls);
    RecordStays(s.t, ServeAll(s, calls).t, c.key);
    RecordServed(ServeAll(s, calls), c);
  }

  lemma RecordStays(a: Tables, b: Tables, key: Key)
    requires Keeps(a, b) && key in a.keys && a.keys[key] in a.transfers
    ensures key in b.keys && b.keys[key] == a.keys[key] && b.keys[key] in b.transfers
    ensures b.transfers[b.keys[key]] == a.transfers[a.keys[key]]
  {
  }

  lemma RecordServed(s: Store, c: Call)
    requires c.DoTransfer? && RecordOf(s, c.key).Some?
    requires c.sender != c.recipient && ParsePositive(c.text).Ok?
    ensures var row := RecordOf(s, c.key).value;
            Serve(s, c) ==
            if row.sender == c.sender && row.recipient == c.recipient && row.amount == ParsePositive(c.text).paisa
            then Outcome([], Replayed(ReceiptOf(row))) else Outcome([], Reply.Conflict)
  {
  }

  /** What a transfer under a new key can commit, with the reply that goes with it. */
  lemma TransferShape(s: Store, p: Payment, day: Day)
    ensures var o := TransferAnew(s, p, day);
            || (o.events == [] && !o.reply.Moved? && !o.reply.Held?)
            || (o.events == [Drew(p.payer, day, p.amount)] && !o.reply.Moved? && !o.reply.Held?)
            || o == Outcome([Blocked(RefusedRow(p, Rejected))], Unprocessable)
            || o == Outcome([Drew(p.payer, day, p.amount), Blocked(RefusedRow(p, Flagged))],
                            Held(ReceiptOf(RefusedRow(p, Flagged))))
            || o == Outcome([Drew(p.payer, day, p.amount), Paid(p)], Moved(ReceiptOf(CompletedRow(p))))
  {
  }

  lemma RecordAfter(s: Store, es: seq<Event>, p: Payment, status: Status)
    requires Allowed(s.t, es) && 1 <= |es| <= 2 && (|es| == 2 ==> es[0].Drew?)
    requires es[|es| - 1] == if status == Completed then Paid(p) else Blocked(RefusedRow(p, status))
    ensures RecordOf(Commit(s, es), p.key) == Some(RefusedRow(p, status))
  {
    CommitShort(s, es);
  }

  /** The first request under a key records exactly what it replies: moved, held, or refused over the cap. */
  lemma FirstRequestRecords(s: Store, p: Payment, day: Day)
    requires p.key !in s.t.keys && Allowed(s.t, TransferAnew(s, p, day).events)
    ensures var o := TransferAnew(s, p, day);
            var record := RecordOf(Commit(s, o.events), p.key);
            && (o.reply.Moved? || o.reply.Held? ==> record.Some? && ReceiptOf(record.value) == o.reply.receipt)
            && (record.Some? ==>
                  && record.value.sender == p.payer && record.value.recipient == p.payee
                  && record.value.amount == p.amount)
  {
    var o := TransferAnew(s, p, day);
    TransferShape(s, p, day);
    CommitShort(s, o.events);
    if o.events != [] {
      var last := o.events[|o.events| - 1];
      if last.Paid? { RecordAfter(s, o.events, p, Completed); }
      if last.Blocked? { RecordAfter(s, o.events, p, last.row.status); }
    }
  }

  lemma CommitShort(s: Store, es: seq<Event>)
    requires Allowed(s.t, es) && |es| <= 2
    ensures |es| == 0 ==> Commit(s, es) == s
    ensures |es| == 1 ==> Commit(s, es) == Post1(s, es[0])
    ensures |es| == 2 ==> TablesAllow(ApplyTables(s.t, es[0]), es[1]) && Commit(s, es) == Post1(Post1(s, es[0]), es[1])
  {
    if |es| == 1 { assert es[1..] == []; }
    if |es| == 2 { assert es[1..] == [es[1]]; assert es[1..][1..] == []; }
  }

  // ---------- links ----------

  lemma SoundDocs(s: Store)
    requires Sound(s)
    ensures DocsOk(s.t)
  {
    var b :| Represents(s, b) && Inv(b);
    InvDocs(b);
  }

  ghost predicate Spares(t: Tables, e: Event, l: LinkId) {
    && TablesAllow(t, e)
    && (e.LinkLapsed? ==> e.link != l) && (e.LinkWithdrawn? ==> e.link != l) && (e.LinkMade? ==> e.link != l)
    && (e.Paid? && e.pay.via.ByLink? ==> e.pay.via.link != l)
  }

  lemma EventsSpareClaim(s: Store, c: Call, l: LinkId)
    requires DocsOk(s.t) && IsClaimed(s.t, l)
    ensures var es := Serve(s, c).events;
            && |es| <= 2
            && (|es| >= 1 ==> Spares(s.t, es[0], l))
            && (|es| == 2 ==> es[0].Drew? && Spares(ApplyTables(s.t, es[0]), es[1], l))
  {
    ServeAccepted(s, c);
  }

  lemma SparedLink(t: Tables, e: Event, l: LinkId)
    requires Spares(t, e, l) && l in t.links
    ensures l in ApplyTables(t, e).links && ApplyTables(t, e).links[l] == t.links[l]
  {
  }

  /** Called one at a time, no service touches a claimed link: the lapse tests come after the claimed test. */
  lemma CallKeepsClaim(s: Store, c: Call, l: LinkId)
    requires DocsOk(s.t) && IsClaimed(s.t, l) && Allowed(s.t, Serve(s, c).events)
    ensures var t' := Commit(s, Serve(s, c).events).t; l in t'.links && t'.links[l] == s.t.links[l]
  {
    EventsSpareClaim(s, c, l);
    var es := Serve(s, c).events;
    CommitShort(s, es);
    if |es| >= 1 { SparedLink(s.t, es[0], l); }
    if |es| == 2 { SparedLink(ApplyTables(s.t, es[0]), es[1], l); }
  }

  lemma {:induction false} ClaimStays(s: Store, calls: seq<Call>, l: LinkId)
    requires Sound(s) && IsClaimed(s.t, l)
    ensures l in ServeAll(s, calls).t.links && ServeAll(s, calls).t.links[l] == s.t.links[l]
    decreases |calls|
  {
    if calls != [] {
      SoundDocs(s);
      CallKeepsSound(s, calls[0]);
      CallKeepsClaim(s, calls[0], l);
      ClaimStays(Commit(s, Serve(s, calls[0]).events), calls[1..], l);
    }
  }

  /** Link `l` is claimed by `actor` through the recorded transfer the receipt describes. */
  predicate ClaimedAs(t: Tables, l: LinkId, actor: UserId, receipt: Receipt) {
    && IsClaimed(t, l) && t.links[l].claimer == Some(actor) && t.links[l].transfer == Some(receipt.id)
    && receipt.id in t.transfers && t.transfers[receipt.id].reference == receipt.reference
    && receipt == Receipt(receipt.id, receipt.reference, t.links[l].creator, actor, t.links[l].amount, Completed)
  }

  lemma ClaimRecords(s: Store, actor: UserId, l: LinkId, key: Key, id: TxnId, reference: Reference, now: Time)
    requires Allowed(s.t, Claim(s, actor, l, key, id, reference, now).events)
    requires Claim(s, actor, l, key, id, reference, now).events != []
    requires Claim(s, actor, l, key, id, reference, now).reply.Moved?
    ensures var o := Claim(s, actor, l, key, id, reference, now);
            ClaimedAs(Commit(s, o.events).t, l, actor, o.reply.receipt)
  {
    CommitShort(s, Claim(s, actor, l, key, id, reference, now).events);
  }

  lemma RepeatClaim(s: Store, l: LinkId, claimer: UserId, receipt: Receipt,
                    actor: UserId, key: Key, id: TxnId, reference: Reference, now: Time)
    requires ClaimedAs(s.t, l, claimer, receipt)
    ensures Claim(s, actor, l, key, id, reference, now) ==
            if actor == claimer then Outcome([], Moved(receipt)) else Outcome([], Reply.Conflict)
  {
  }

  lemma ClaimedAsKept(a: Tables, b: Tables, l: LinkId, claimer: UserId, receipt: Receipt)
    requires ClaimedAs(a, l, claimer, receipt) && Keeps(a, b) && l in b.links && b.links[l] == a.links[l]
    ensures ClaimedAs(b, l, claimer, receipt)
  {
  }

  /** Repeating a claim that moved the money commits nothing and returns the original transfer id and stored
      reference, whatever new key, id, reference and time the retry brings; anyone else conflicts. The
      fallbacks to the link id and to a new reference are therefore never used. */
  lemma ClaimRetry(s: Store, first: Call, calls: seq<Call>, again: Call)
    requires Sound(s) && first.DoClaim? && again.DoClaim? && again.link == first.link
    requires Serve(s, first).events != [] && Serve(s, first).reply.Moved?
    ensures Allowed(s.t, Serve(s, first).events) && Sound(Commit(s, Serve(s, first).events))
    ensures Serve(ServeAll(Commit(s, Serve(s, first).events), calls), again) ==
            if again.actor == first.actor then Outcome([], Serve(s, first).reply) else Outcome([], Reply.Conflict)
  {
    CallKeepsSound(s, first);
    var after := Commit(s, Serve(s, first).events);
    ClaimRecords(s, first.actor, first.link, first.key, first.id, first.reference, first.now);
    ClaimStays(after, calls, first.link);
    CallsKeep(after, calls);
    var receipt := Serve(s, first).reply.receipt;
    ClaimedAsKept(after.t, ServeAll(after, calls).t, first.link, first.actor, receipt);
    RepeatClaim(ServeAll(after, calls), first.link, first.actor, receipt,
                again.actor, again.key, again.id, again.reference, again.now);
  }

  // ---------- all or nothing ----------

  lemma MoneyOfEvents(s: Store, es: seq<Event>)
    requires Allowed(s.t, es) && |es| <= 2
    ensures (forall e <- es :: !e.Paid? && !e.Registered?) ==>
              Commit(s, es).t.balances == s.t.balances && Commit(s, es).ledger == s.ledger
    ensures es == [] ==> Commit(s, es) == s
  {
    CommitShort(s, es);
    if |es| >= 1 && !es[0].Paid? && !es[0].Registered? { MoneyOfEvent(s, es[0]); }
    if |es| == 2 && !es[1].Paid? && !es[1].Registered? { MoneyOfEvent(Post1(s, es[0]), es[1]); }
  }

  lemma MoneyOfEvent(s: Store, e: Event)
    requires TablesAllow(s.t, e) && !e.Paid? && !e.Registered?
    ensures Post1(s, e).t.balances == s.t.balances && Post1(s, e).ledger == s.ledger
  {
  }

  /** Only a call that replies that the money moved, or a registration, changes a balance or the ledger; an
      accept that does not move money leaves the request and everything else as it was. */
  lemma AllOrNothing(s: Store, c: Call)
    requires Allowed(s.t, Serve(s, c).events) && |Serve(s, c).events| <= 2
    ensures var o := Serve(s, c);
            var after := Commit(s, o.events);
            && (!o.reply.Moved? && !o.reply.Registration? ==>
                  after.t.balances == s.t.balances && after.ledger == s.ledger)
            && (c.DoAccept? && !o.reply.Moved? ==> after == s)
  {
    PaidMeansMoved(s, c);
    MoneyOfEvents(s, Serve(s, c).events);
  }

  lemma PaidMeansMoved(s: Store, c: Call)
    ensures var o := Serve(s, c);
            && (forall e <- o.events :: (e.Paid? ==> o.reply.Moved?) && (e.Registered? ==> o.reply.Registration?))
            && (c.DoAccept? && !o.reply.Moved? ==> o.events == [])
  {
    if c.DoTransfer? && ParsePositive(c.text).Ok? && c.sender != c.recipient && c.key !in s.t.keys {
      var amount := ParsePositive(c.text).paisa;
      TransferShape(s, Payment(Direct, c.sender, c.recipient, amount, c.id, c.reference, c.key), c.day);
    }
  }
}
