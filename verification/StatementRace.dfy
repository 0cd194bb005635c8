/**
  The timestamps of a statement. `created_at` is `now()`, the time at which the inserting transaction began,
  while ids follow the locks: a transaction that begins first may get its locks last. So the timestamps of a
  user's completed rows can have peaks, and then some window's statement does not chain.
*/
module StatementRace {
  import opened Model
  import opened Books
  import opened Transactions
  import opened Locking
  import opened Outcomes
  import opened Schedules
  import opened Statements

  /** The timestamp column: when the transaction a row belongs to began. */
  function CreatedAt(s: Sys): HistoryRow -> Time {
    (row: HistoryRow) => if 0 <= row.entity < |s.txns| then s.txns[row.entity].begun else 0
  }

  // ---------- a row's timestamp is its writer's beginning, and stays ----------

  /** A row belongs to its writer, whose database transaction has begun. */
  ghost predicate Stamped(txns: seq<Txn>, slot: Slot<HistoryRow>) {
    slot.writer < |txns| && slot.row.entity == slot.writer && txns[slot.writer].pc !in {Start, Drawing}
  }

  ghost predicate AllStamped(s: Sys) {
    forall k | 0 <= k < |s.history| :: Stamped(s.txns, s.history[k])
  }

  lemma BegunStays(t: Tables, x: Txn, i: nat, now: Time)
    requires x.pc !in {Start, Drawing}
    ensures var y := Statement(t, x, i, now).next; y.begun == x.begun && y.pc !in {Start, Drawing}
  {
  }

  lemma InsertStamped(t: Tables, x: Txn, i: nat, now: Time)
    requires TxnOk(t, x, i) && Statement(t, x, i, now).InsertHistory?
    ensures Statement(t, x, i, now).item.entity == i && x.pc !in {Start, Drawing}
  {
  }

  lemma StampedKept(s: Sys, act: Act)
    requires LockInv(s) && AllStamped(s) && Can(s, act)
    ensures AllStamped(Next(s, act))
    ensures forall k | 0 <= k < |s.history| ::
              Next(s, act).txns[s.history[k].writer].begun == s.txns[s.history[k].writer].begun
  {
    var s' := Next(s, act);
    if act.Step? {
      var x := s.txns[act.i];
      if x.pc !in {Start, Drawing} { BegunStays(s.t, x, act.i, act.now); }
      if Statement(s.t, x, act.i, act.now).InsertHistory? { InsertStamped(s.t, x, act.i, act.now); }
    }
    forall k | 0 <= k < |s'.history|
      ensures Stamped(s'.txns, s'.history[k])
      ensures k < |s.history| ==> s'.txns[s.history[k].writer].begun == s.txns[s.history[k].writer].begun
    {
      if k < |s.history| { assert s'.history[k] == s.history[k] && Stamped(s.txns, s.history[k]); }
    }
  }

  lemma {:induction false} StampedAlways(s: Sys, acts: seq<Act>)
    requires LockInv(s) && AllStamped(s) && CanRun(s, acts)
    ensures AllStamped(Run(s, acts)) && s.history <= Run(s, acts).history
    ensures forall k | 0 <= k < |s.history| ::
              Run(s, acts).txns[s.history[k].writer].begun == s.txns[s.history[k].writer].begun
    decreases |acts|
  {
    if acts != [] {
      LockInvKept(s, acts[0]);
      StampedKept(s, acts[0]);
      StampedAlways(Next(s, acts[0]), acts[1..]);
    }
  }

  /** A row is stamped with the time its writer's database transaction began, and whatever happens later
      never changes that. */
  lemma TimestampsStay(s: Sys, acts: seq<Act>, k: nat)
    requires Reachable(s) && CanRun(s, acts) && k < |s.history|
    ensures s.history[k].writer < |s.txns|
    ensures CreatedAt(s)(s.history[k].row) == s.txns[s.history[k].writer].begun
    ensures CreatedAt(Run(s, acts))(s.history[k].row) == CreatedAt(s)(s.history[k].row)
  {
    BootLocked();
    var before :| CanRun(Boot, before) && Run(Boot, before) == s;
    StampedAlways(Boot, before);
    LockedAlways(Boot, before);
    StampedAlways(s, acts);
    assert Stamped(s.txns, s.history[k]);
    assert Run(s, acts).history[k] == s.history[k] && Stamped(Run(s, acts).txns, Run(s, acts).history[k]);
  }

  lemma {:induction false} LockedAlways(s: Sys, acts: seq<Act>)
    requires LockInv(s) && CanRun(s, acts)
    ensures LockInv(Run(s, acts))
    decreases |acts|
  {
    if acts != [] {
      LockInvKept(s, acts[0]);
      LockedAlways(Next(s, acts[0]), acts[1..]);
    }
  }

  // ---------- a statement that does not chain ----------

  /** A payment that is ready to go through does, and appends its two rows. */
  lemma PaymentDone(s: Sys, i: nat, now: Time) returns (s': Sys)
    requires By(Boot, s, now) && ReadyToPay(s, i) && s.txns[i].pay.via == Direct && s.txns[i].pay.id == i
    requires 0 < s.txns[i].pay.amount <= PER_TRANSFER_CAP_PAISA && i !in s.t.transfers
    ensures By(Boot, s', now) && Unhindered(s', i)
    ensures s'.txns == s.txns[i := s'.txns[i]] && s'.txns[i].pc == Done && SameTerms(s.txns[i], s'.txns[i])
    ensures s'.t == ApplyTables(s.t, Paid(s.txns[i].pay))
    ensures var p, b := s.txns[i].pay, s.t.balances;
            s'.history == s.history
              + [Slot(i, Some(p.payer), SentHistory(p, b[p.payer].amount - p.amount)),
                 Slot(i, Some(p.payee), ReceivedHistory(p, b[p.payee].amount + p.amount))]
  {
    var nearly := PaymentNearlyDone(Boot, s, i, now);
    s' := StepAlone(Boot, nearly, i, now);
  }

  const LATE := Payment(Direct, 1, 2, 200, 3, 0, 8)
  const EARLY := Payment(Direct, 1, 2, 100, 2, 0, 7)

  /** Two transfers of user 1 have begun, at times 2 and 9, and hold nothing yet. */
  lemma TwoBegun() returns (s: Sys)
    ensures By(Boot, s, 9) && Unlocked(s) && |s.txns| == 4
    ensures s.t == TwoUsers.(outflow := s.t.outflow)
    ensures s.history == [Slot(0, Some(1), FundingHistory(1, 0, 0)), Slot(1, Some(2), FundingHistory(2, 1, 0))]
    ensures s.txns[0].pc == s.txns[1].pc == Done && s.txns[0].begun == 0
    ensures s.txns[2].pc == s.txns[3].pc == Ready && s.txns[2].begun == 2 && s.txns[3].begun == 9
    ensures s.txns[2].pay == EARLY && s.txns[3].pay == LATE
  {
    var two := TwoRegistered();
    QuietUnlocked(two);
    ByWaits(Boot, two, 0, 2);
    var one := TransferReady(Boot, two, 100, 7, 2);
    ByWaits(Boot, one, 2, 9);
    s := TransferReady(Boot, one, 200, 8, 9);
    assert s.txns[..3] == one.txns && one.txns[..2] == two.txns;
    assert s.txns[2] == s.txns[..3][2] && s.txns[0] == s.txns[..3][0] && s.txns[1] == s.txns[..3][1];
    assert one.txns[0] == one.txns[..2][0] && one.txns[1] == one.txns[..2][1];
  }

  /** The one that began last gets its locks first. */
  lemma LateGoesFirst() returns (s: Sys)
    ensures By(Boot, s, 9) && ReadyToPay(s, 2) && |s.txns| == 4 && s.txns[2].pay == EARLY && 2 !in s.t.transfers
    ensures s.txns[0].pc == s.txns[1].pc == s.txns[3].pc == Done
    ensures s.txns[0].begun == 0 && s.txns[2].begun == 2 && s.txns[3].begun == 9
    ensures s.t.balances[1].amount == 9_999_800 && s.t.balances[2].amount == 10_000_200
    ensures s.history
            == [Slot(0, Some(1), FundingHistory(1, 0, 0)), Slot(1, Some(2), FundingHistory(2, 1, 0))]
             + [Slot(3, Some(1), SentHistory(LATE, 9_999_800)), Slot(3, Some(2), ReceivedHistory(LATE, 10_000_200))]
  {
    var begun := TwoBegun();
    s := PaymentDone(begun, 3, 9);
  }

  /** Then the other one does. */
  lemma Overtaken() returns (s: Sys)
    ensures By(Boot, s, 10) && |s.txns| == 4 && forall i | 0 <= i < 4 :: s.txns[i].pc == Done
    ensures s.txns[0].begun == 0 && s.txns[2].begun == 2 && s.txns[3].begun == 9 && 1 in s.t.balances
    ensures s.history
            == [Slot(0, Some(1), FundingHistory(1, 0, 0)), Slot(1, Some(2), FundingHistory(2, 1, 0))]
             + [Slot(3, Some(1), SentHistory(LATE, 9_999_800)), Slot(3, Some(2), ReceivedHistory(LATE, 10_000_200))]
             + [Slot(2, Some(1), SentHistory(EARLY, 9_999_700)), Slot(2, Some(2), ReceivedHistory(EARLY, 10_000_300))]
  {
    var first := LateGoesFirst();
    ByWaits(Boot, first, 9, 10);
    s := PaymentDone(first, 2, 10);
  }

  lemma OneShown(slots: seq<Slot<HistoryRow>>, e: Slot<HistoryRow>, c: set<nat>, u: UserId)
    requires e.writer in c && e.row.status == Completed
    ensures CompletedOf(Visible(slots + [e], c), u)
            == CompletedOf(Visible(slots, c), u) + (if e.row.user == u then [e.row] else [])
  {
    assert (slots + [e])[..|slots|] == slots;
    CompletedOfAppend(Visible(slots, c), e.row, u);
  }

  /** The completed rows of a user, when a pair of committed rows is appended of which the first is hers. */
  lemma PairShown(slots: seq<Slot<HistoryRow>>, a: Slot<HistoryRow>, b: Slot<HistoryRow>, c: set<nat>, u: UserId)
    requires a.writer in c && b.writer in c && a.row.status == b.row.status == Completed
    requires a.row.user == u && b.row.user != u
    ensures CompletedOf(Visible(slots + [a, b], c), u) == CompletedOf(Visible(slots, c), u) + [a.row]
  {
    assert slots + [a, b] == slots + [a] + [b];
    OneShown(slots, a, c, u);
    OneShown(slots + [a], b, c, u);
  }

  lemma ThreePairs(h: seq<Slot<HistoryRow>>, c: set<nat>)
    requires |h| == 6 && forall k | 0 <= k < 6 :: h[k].writer in c && h[k].row.status == Completed
    requires h[0].row.user == h[2].row.user == h[4].row.user == 1
    requires h[1].row.user == h[3].row.user == h[5].row.user == 2
    ensures CompletedOf(Visible(h, c), 1) == [h[0].row, h[2].row, h[4].row]
  {
    var none: seq<Slot<HistoryRow>> := [];
    PairShown(none, h[0], h[1], c, 1);
    PairShown(none + [h[0], h[1]], h[2], h[3], c, 1);
    PairShown(none + [h[0], h[1]] + [h[2], h[3]], h[4], h[5], c, 1);
    assert h == none + [h[0], h[1]] + [h[2], h[3]] + [h[4], h[5]];
  }

  /** Of user 1's three completed rows the second began last. */
  lemma OvertakenRows() returns (s: Sys)
    ensures By(Boot, s, 10) && 1 in s.t.balances
    ensures CompletedOf(CommittedHistory(s), 1)
            == [FundingHistory(1, 0, 0), SentHistory(LATE, 9_999_800), SentHistory(EARLY, 9_999_700)]
    ensures |s.txns| == 4 && s.txns[0].begun == 0 && s.txns[2].begun == 2 && s.txns[3].begun == 9
  {
    s := Overtaken();
    ThreePairs(s.history, Commits(s.txns));
  }

  /** A reachable run in which the transfer that began first gets its locks last. The statement of user 1 up
      to time 5 has the funding and that transfer, and leaves out the 200 paisa sent between them. */
  lemma OvertakenWindow() returns (s: Sys, hs: seq<HistoryRow>)
    ensures By(Boot, s, 10) && Reachable(s) && hs == CompletedOf(CommittedHistory(s), 1)
    ensures Times(hs, CreatedAt(s)) == [0, 9, 2]
    ensures var ks := Chosen(Times(hs, CreatedAt(s)), None, Some(5));
            ks == [0, 2] && Ascending(ks, |hs|) && !LinesChain(hs, ks)
  {
    s := OvertakenRows();
    ByLater(Boot, s, 10);
    hs := CompletedOf(CommittedHistory(s), 1);
    StatementMirrorsLedger(s, 1);
    assert Times(hs, CreatedAt(s)) == [0, 9, 2];
    DisorderedWindow(hs, CreatedAt(s), 5);
  }
}
