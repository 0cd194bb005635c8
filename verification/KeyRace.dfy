/**
  Duplicate direct transfers that overlap. Money moves once per key whatever races, but the daily counter
  is not part of the transaction: a duplicate whose key lookup ran before the first transfer committed
  still draws the counter, and only then fails on the unique key. That is the only thing a duplicate
  can change, and it can exactly when it has passed its lookup and not yet drawn.
*/
module KeyRace {
  import opened Model
  import opened Books
  import opened Transactions
  import opened Locking
  import opened Schedules

  /** A direct transfer under `key`. */
  predicate Under(x: Txn, key: Key) {
    x.op.TransferOp? && x.op.key == key
  }

  /** Under a key that is used, a transfer in flight commits nothing but a draw, and draws from `Drawing`. */
  lemma StatementUnderUsedKey(t: Tables, x: Txn, i: nat, now: Time)
    requires TxnOk(t, x, i) && InFlight(x) && x.op.TransferOp? && x.op.key in t.keys
    ensures var f := Statement(t, x, i, now);
            && f.next.op == x.op && f.next.pc != Done && f.next.pc != Drawing
            && (x.pc == Start ==> f.next.pc == Ended)
            && (f.Emit? <==> x.pc == Drawing)
            && (f.Emit? ==> f.event == Drew(x.op.sender, x.op.day, x.op.amount))
  {
  }

  lemma KeysStay(s: Sys, act: Act, key: Key)
    requires Can(s, act) && key in s.t.keys
    ensures key in Next(s, act).t.keys
  {
    if act.Step? {
      var f := Statement(s.t, s.txns[act.i], act.i, act.now);
      if f.Emit? && TablesAllow(s.t, f.event) { KeysGrow(s.t, f.event, key); }
    }
  }

  lemma KeysGrow(t: Tables, e: Event, key: Key)
    requires TablesAllow(t, e) && key in t.keys
    ensures key in ApplyTables(t, e).keys
  {
  }

  /** Transaction `i` is a transfer under a key that is used, and has not committed. */
  ghost predicate Beaten(s: Sys, i: nat, key: Key) {
    i < |s.txns| && Under(s.txns[i], key) && key in s.t.keys && s.txns[i].pc != Done
  }

  lemma BeatenStays(s: Sys, act: Act, i: nat, key: Key)
    requires LockInv(s) && Can(s, act) && Beaten(s, i, key)
    ensures Beaten(Next(s, act), i, key)
    ensures s.txns[i].pc in {Start, Ended} ==> Next(s, act).txns[i].pc in {Start, Ended}
    ensures s.txns[i].pc != Drawing ==> Next(s, act).txns[i].pc != Drawing
  {
    KeysStay(s, act, key);
    if act.Step? && act.i == i {
      StatementUnderUsedKey(s.t, s.txns[i], i, act.now);
    }
  }

  /** A transfer that looks its key up after it was used never gets past the lookup. */
  lemma {:induction false} LateLookup(s: Sys, acts: seq<Act>, i: nat, key: Key)
    requires LockInv(s) && CanRun(s, acts) && Beaten(s, i, key) && s.txns[i].pc in {Start, Ended}
    ensures i < |Run(s, acts).txns| && Run(s, acts).txns[i].pc in {Start, Ended}
    decreases |acts|
  {
    if acts != [] {
      LockInvKept(s, acts[0]);
      BeatenStays(s, acts[0], i, key);
      LateLookup(Next(s, acts[0]), acts[1..], i, key);
    }
  }

  /** Once the key is used, no other transfer under it ever commits, wherever it stands. */
  lemma {:induction false} BeatenNeverCommits(s: Sys, acts: seq<Act>, i: nat, key: Key)
    requires LockInv(s) && CanRun(s, acts) && Beaten(s, i, key)
    ensures Beaten(Run(s, acts), i, key) && i !in Run(s, acts).t.transfers
    decreases |acts|
  {
    if acts != [] {
      LockInvKept(s, acts[0]);
      BeatenStays(s, acts[0], i, key);
      BeatenNeverCommits(Next(s, acts[0]), acts[1..], i, key);
    }
  }

  // ---------- the daily counter ----------

  /** Some action of the run makes an effect of transaction `i` visible. */
  ghost predicate Publishes(s: Sys, acts: seq<Act>, i: nat)
    requires CanRun(s, acts)
    decreases |acts|
  {
    acts != [] &&
    ((acts[0].Step? && acts[0].i == i && Emitted(s, acts[0]) != []) || Publishes(Next(s, acts[0]), acts[1..], i))
  }

  ghost predicate CanPublish(s: Sys, i: nat) {
    exists acts :: CanRun(s, acts) && Publishes(s, acts, i)
  }

  lemma {:induction false} NothingPublished(s: Sys, acts: seq<Act>, i: nat, key: Key)
    requires LockInv(s) && CanRun(s, acts) && Beaten(s, i, key) && s.txns[i].pc != Drawing
    ensures !Publishes(s, acts, i)
    decreases |acts|
  {
    if acts != [] {
      LockInvKept(s, acts[0]);
      BeatenStays(s, acts[0], i, key);
      if acts[0].Step? && acts[0].i == i {
        StatementUnderUsedKey(s.t, s.txns[i], i, acts[0].now);
      }
      NothingPublished(Next(s, acts[0]), acts[1..], i, key);
    }
  }

  /** A duplicate past its lookup can draw at once; nothing but its own counter changes, and it changes
      nothing after that. */
  lemma DuplicateDraws(s: Sys, i: nat, key: Key, now: Time)
    requires LockInv(s) && Beaten(s, i, key) && s.txns[i].pc == Drawing
    ensures Can(s, Step(i, now))
    ensures var op, s' := s.txns[i].op, Next(s, Step(i, now));
            && s'.t == s.t.(outflow := s.t.outflow[(op.sender, op.day) := Outflow(s.t, op.sender, op.day) + op.amount])
            && Emitted(s, Step(i, now)) == [Drew(op.sender, op.day, op.amount)]
            && !CanPublish(s', i)
  {
    var s' := Next(s, Step(i, now));
    assert TxnOk(s.t, s.txns[i], i);
    StatementUnderUsedKey(s.t, s.txns[i], i, now);
    DrawOk(s.t, s.txns[i], i, now);
    LockInvKept(s, Step(i, now));
    BeatenStays(s, Step(i, now), i, key);
    forall acts | CanRun(s', acts)
      ensures !Publishes(s', acts, i)
    {
      NothingPublished(s', acts, i, key);
    }
  }

  /** Once the key is used, a duplicate can change anything at all exactly when it has passed its lookup and
      not drawn: then it draws the daily counter. */
  lemma DuplicateDrawsIff(s: Sys, i: nat, key: Key)
    requires LockInv(s) && Beaten(s, i, key)
    ensures CanPublish(s, i) <==> s.txns[i].pc == Drawing
  {
    if s.txns[i].pc == Drawing {
      DuplicateDraws(s, i, key, 0);
      RunOne(s, Step(i, 0));
      assert Publishes(s, [Step(i, 0)], i);
    } else {
      forall acts | CanRun(s, acts)
        ensures !Publishes(s, acts, i)
      {
        NothingPublished(s, acts, i, key);
      }
    }
  }

  // ---------- a duplicate that draws ----------

  /** The duplicate looks its key up before the first transfer commits. */
  lemma DuplicateLooksUp() returns (s: Sys)
    ensures By(Boot, s, 0) && |s.txns| == 4 && s.t == TwoUsers.(outflow := map[(1, 0) := 100])
    ensures s.txns[2].pc == ReceivedIn && s.txns[2].pay == Payment(Direct, 1, 2, 100, 2, 0, 9)
    ensures s.txns[3].pc == Drawing && s.txns[3].op == TransferOp(1, 2, 100, 9, 0, 0)
  {
    var again := Begin(TransferOp(1, 2, 100, 9, 0, 0), 0);
    var first := TransferNearlyDone();
    var both := Next(first, again);
    ByNext(Boot, first, again, 0);
    s := Next(both, Step(3, 0));
    ByNext(Boot, both, Step(3, 0), 0);
  }

  /** One transfer of 100 paisa has committed under key 9, and its duplicate is past its lookup. */
  lemma FirstCommits() returns (s: Sys)
    ensures By(Boot, s, 0) && Beaten(s, 3, 9) && s.txns[3].pc == Drawing
    ensures s.txns[3].op == TransferOp(1, 2, 100, 9, 0, 0) && Outflow(s.t, 1, 0) == 100
    ensures s.t.transfers == map[2 := TransferRow(2, 0, 1, 2, 100, Completed, 9)]
  {
    var racing := DuplicateLooksUp();
    s := Next(racing, Step(2, 0));
    ByNext(Boot, racing, Step(2, 0), 0);
  }

  /** The duplicate takes the day's counter to 200, for one transfer of 100 paisa. */
  lemma DuplicateCounted() returns (s: Sys, s': Sys)
    ensures Reachable(s) && Beaten(s, 3, 9) && CanPublish(s, 3) && Outflow(s.t, 1, 0) == 100
    ensures Can(s, Step(3, 0)) && s' == Next(s, Step(3, 0)) && Outflow(s'.t, 1, 0) == 200
    ensures s'.t.transfers == map[2 := TransferRow(2, 0, 1, 2, 100, Completed, 9)]
  {
    s := FirstCommits();
    ByLater(Boot, s, 0);
    s' := Next(s, Step(3, 0));
    RunOne(s, Step(3, 0));
    assert Publishes(s, [Step(3, 0)], 3);
  }
}
