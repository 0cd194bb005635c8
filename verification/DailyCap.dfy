/** The daily outflow cap, in every interleaving, with Redis answering every INCR. */
module DailyCap {
  import opened Model
  import opened Books
  import opened Transactions
  import opened Locking

  predicate Counts(x: Txn, sender: UserId, day: Day) {
    x.op.TransferOp? && x.op.sender == sender && x.op.day == day
  }

  function PassedAmount(x: Txn, sender: UserId, day: Day): int {
    if Counts(x, sender, day) && x.passed then x.op.amount else 0
  }

  /** What the transfers that drew a daily total within the cap add up to. */
  function Passed(txns: seq<Txn>, sender: UserId, day: Day): int {
    if txns == [] then 0 else Passed(txns[..|txns| - 1], sender, day) + PassedAmount(txns[|txns| - 1], sender, day)
  }

  predicate IsCompleted(t: Tables, i: nat) {
    i in t.transfers && t.transfers[i].status == Completed
  }

  function CompletedAmount(t: Tables, x: Txn, i: nat, sender: UserId, day: Day): int {
    if Counts(x, sender, day) && IsCompleted(t, i) then t.transfers[i].amount else 0
  }

  /** The sum of `sender`'s completed direct transfers counted under `day`, among the first `n` transactions. */
  function CompletedSum(s: Sys, n: nat, sender: UserId, day: Day): int
    requires n <= |s.txns|
  {
    if n == 0 then 0 else CompletedSum(s, n - 1, sender, day) + CompletedAmount(s.t, s.txns[n - 1], n - 1, sender, day)
  }

  /** A direct transfer moves money only after a draw that passed, and draws once. */
  ghost predicate DrawnOk(t: Tables, x: Txn, i: nat) {
    x.op.TransferOp? ==>
      && 0 < x.op.amount
      && (x.pc in {Start, Drawing, Refusing, RefusalKeyed, RefusalLogged} ==> !x.passed)
      && (InFlight(x) && x.pc !in {Start, Drawing, Refusing, RefusalKeyed, RefusalLogged} ==> x.passed)
      && (IsCompleted(t, i) ==>
            x.passed && t.transfers[i].amount == x.op.amount && t.transfers[i].sender == x.op.sender)
  }

  ghost predicate WithinCap(s: Sys, sender: UserId, day: Day) {
    Passed(s.txns, sender, day) <= Outflow(s.t, sender, day) && Passed(s.txns, sender, day) <= DAILY_OUTFLOW_CAP_PAISA
  }

  ghost predicate CapInv(s: Sys) {
    && (forall i: nat | i < |s.txns| :: DrawnOk(s.t, s.txns[i], i))
    && (forall sender, day :: WithinCap(s, sender, day))
  }

  lemma {:induction false} PassedUpdate(txns: seq<Txn>, i: nat, y: Txn, sender: UserId, day: Day)
    requires i < |txns|
    ensures Passed(txns[i := y], sender, day)
            == Passed(txns, sender, day) - PassedAmount(txns[i], sender, day) + PassedAmount(y, sender, day)
  {
    var last := |txns| - 1;
    if i == last {
      assert txns[i := y][..last] == txns[..last];
    } else {
      PassedUpdate(txns[..last], i, y, sender, day);
      assert txns[i := y][..last] == txns[..last][i := y];
    }
  }

  lemma StatementDraws(t: Tables, x: Txn, i: nat, now: Time)
    requires TxnOk(t, x, i) && InFlight(x) && DrawnOk(t, x, i) && i !in t.transfers
    ensures var f := Statement(t, x, i, now);
            && f.next.op == x.op
            && (x.pc != Drawing ==> f.next.passed == x.passed)
            && (f.Emit? && TablesAllow(t, f.event) ==> DrawnOk(ApplyTables(t, f.event), f.next, i))
            && (!f.Emit? ==> DrawnOk(t, f.next, i))
  {
    var f := Statement(t, x, i, now);
    PassedAfter(t, x, i, now);
    if f.Emit? && TablesAllow(t, f.event) {
      OwnRowOnly(t, x, i, now);
      TransfersAfter(t, f.event);
      if x.op.TransferOp? && RowOf(f.event).Some? { OwnRow(t, x, i, now); }
    }
  }

  lemma PassedAfter(t: Tables, x: Txn, i: nat, now: Time)
    requires TxnOk(t, x, i) && InFlight(x)
    ensures var y := Statement(t, x, i, now).next;
            && y.op == x.op && (x.pc != Drawing ==> y.passed == x.passed)
            && (x.op.TransferOp? && InFlight(x) ==>
                  && (y.pc in {Start, Drawing, Refusing, RefusalKeyed, RefusalLogged} ==> y.passed == x.passed)
                  && (InFlight(y) && y.pc !in {Start, Drawing, Refusing, RefusalKeyed, RefusalLogged} ==>
                        y.passed || x.pc !in {Start, Drawing, Refusing, RefusalKeyed, RefusalLogged}))
  {
  }

  /** The row a direct transfer commits is for its own terms, and completed only from `ReceivedIn`. */
  lemma OwnRow(t: Tables, x: Txn, i: nat, now: Time)
    requires TxnOk(t, x, i) && x.op.TransferOp? && Statement(t, x, i, now).Emit?
    requires RowOf(Statement(t, x, i, now).event).Some?
    ensures var row := RowOf(Statement(t, x, i, now).event).value;
            && row.amount == x.op.amount && row.sender == x.op.sender
            && (row.status == Completed ==> x.pc == ReceivedIn)
  {
  }

  lemma OthersDrawn(t: Tables, x: Txn, i: nat, now: Time, y: Txn, j: nat)
    requires TxnOk(t, x, i) && InFlight(x) && DrawnOk(t, y, j) && i != j
    requires Statement(t, x, i, now).Emit? && TablesAllow(t, Statement(t, x, i, now).event)
    ensures DrawnOk(ApplyTables(t, Statement(t, x, i, now).event), y, j)
  {
    OwnRowOnly(t, x, i, now);
    TransfersAfter(t, Statement(t, x, i, now).event);
  }

  /** Only a drawing transaction moves a counter. */
  lemma OnlyDrawingCounts(t: Tables, x: Txn, i: nat, now: Time)
    requires x.pc != Drawing && Statement(t, x, i, now).Emit?
    ensures !Statement(t, x, i, now).event.Drew?
  {
  }

  lemma OthersKeepCounters(t: Tables, e: Event)
    requires TablesAllow(t, e) && !e.Drew?
    ensures ApplyTables(t, e).outflow == t.outflow
  {
  }

  lemma OutflowAfter(t: Tables, x: Txn, i: nat, now: Time, sender: UserId, day: Day)
    requires TxnOk(t, x, i) && InFlight(x) && DrawnOk(t, x, i) && i !in t.transfers
    requires Statement(t, x, i, now).Emit? && TablesAllow(t, Statement(t, x, i, now).event)
    ensures var f := Statement(t, x, i, now);
            var t' := ApplyTables(t, f.event);
            var more := PassedAmount(f.next, sender, day) - PassedAmount(x, sender, day);
            && 0 <= more <= Outflow(t', sender, day) - Outflow(t, sender, day)
            && (more > 0 ==> Outflow(t', sender, day) <= DAILY_OUTFLOW_CAP_PAISA)
  {
    if x.pc != Drawing {
      StatementDraws(t, x, i, now);
      OnlyDrawingCounts(t, x, i, now);
      OthersKeepCounters(t, Statement(t, x, i, now).event);
    }
  }

  lemma StepWithinCap(s: Sys, i: nat, now: Time)
    requires LockInv(s) && CapInv(s) && Can(s, Step(i, now))
    ensures CapInv(Next(s, Step(i, now)))
  {
    var x := s.txns[i];
    var f := Statement(s.t, x, i, now);
    var s' := Next(s, Step(i, now));
    StepAllowed(s, i, now);
    assert i !in s.t.transfers;
    StatementDraws(s.t, x, i, now);
    forall j: nat | j < |s'.txns|
      ensures DrawnOk(s'.t, s'.txns[j], j)
    {
      if j != i && f.Emit? { OthersDrawn(s.t, x, i, now, s.txns[j], j); }
    }
    forall sender, day
      ensures WithinCap(s', sender, day)
    {
      assert WithinCap(s, sender, day);
      PassedUpdate(s.txns, i, f.next, sender, day);
      if f.Emit? { OutflowAfter(s.t, x, i, now, sender, day); }
    }
  }

  lemma CapKeptByBegin(s: Sys, op: Op, now: Time)
    requires IdsOk(s.t, s.txns) && CapInv(s) && Valid(op)
    ensures CapInv(Next(s, Begin(op, now)))
  {
    var s' := Next(s, Begin(op, now));
    forall sender, day
      ensures WithinCap(s', sender, day)
    {
      assert WithinCap(s, sender, day);
      assert s'.txns[..|s.txns|] == s.txns;
    }
    assert DrawnOk(s.t, NewTxn(op, |s.txns|, now), |s.txns|);
  }

  lemma CapKeptByAbort(s: Sys, i: nat)
    requires CapInv(s) && i < |s.txns| && InFlight(s.txns[i])
    ensures CapInv(s.(txns := s.txns[i := s.txns[i].(pc := Ended)]))
  {
    var s' := s.(txns := s.txns[i := s.txns[i].(pc := Ended)]);
    forall sender, day
      ensures WithinCap(s', sender, day)
    {
      assert WithinCap(s, sender, day);
      PassedUpdate(s.txns, i, s.txns[i].(pc := Ended), sender, day);
    }
  }

  lemma CapKept(s: Sys, act: Act)
    requires LockInv(s) && CapInv(s) && Can(s, act)
    ensures CapInv(Next(s, act))
  {
    match act
    case Step(i, now) => StepWithinCap(s, i, now);
    case Begin(op, now) => CapKeptByBegin(s, op, now);
    case Abort(i) => CapKeptByAbort(s, i);
  }

  lemma {:induction false} CompletedWithinPassed(s: Sys, n: nat, sender: UserId, day: Day)
    requires CapInv(s) && n <= |s.txns|
    ensures CompletedSum(s, n, sender, day) <= Passed(s.txns[..n], sender, day)
  {
    if n > 0 {
      CompletedWithinPassed(s, n - 1, sender, day);
      assert s.txns[..n][..n - 1] == s.txns[..n - 1];
      assert DrawnOk(s.t, s.txns[n - 1], n - 1);
    }
  }

  lemma {:induction false} CapAlways(s: Sys, acts: seq<Act>)
    requires LockInv(s) && CapInv(s) && CanRun(s, acts)
    ensures LockInv(Run(s, acts)) && CapInv(Run(s, acts))
    decreases |acts|
  {
    if acts != [] {
      LockInvKept(s, acts[0]);
      CapKept(s, acts[0]);
      CapAlways(Next(s, acts[0]), acts[1..]);
    }
  }

  /** In every interleaving, a sender's completed direct transfers counted under one day never exceed the cap. */
  lemma DailyCapHolds(acts: seq<Act>, sender: UserId, day: Day)
    requires CanRun(Boot, acts)
    ensures var s := Run(Boot, acts); CompletedSum(s, |s.txns|, sender, day) <= 20_000_000
  {
    BootLocked();
    CapAlways(Boot, acts);
    var s := Run(Boot, acts);
    CompletedWithinPassed(s, |s.txns|, sender, day);
    assert s.txns[..|s.txns|] == s.txns;
    assert WithinCap(s, sender, day);
  }

  // ---------- past the cap ----------

  /** The counter has passed the cap and transaction `i`, if it is a transfer under it, has not drawn in time. */
  ghost predicate TooLate(s: Sys, i: nat, sender: UserId, day: Day) {
    && Outflow(s.t, sender, day) > DAILY_OUTFLOW_CAP_PAISA
    && (i < |s.txns| && Counts(s.txns[i], sender, day) ==> !s.txns[i].passed)
  }

  lemma TooLateStays(s: Sys, act: Act, i: nat, sender: UserId, day: Day)
    requires LockInv(s) && CapInv(s) && Can(s, act) && TooLate(s, i, sender, day)
    ensures TooLate(Next(s, act), i, sender, day)
  {
    if act.Step? {
      var j, x := act.i, s.txns[act.i];
      var f := Statement(s.t, x, j, act.now);
      StepAllowed(s, j, act.now);
      assert DrawnOk(s.t, x, j) && j !in s.t.transfers;
      StatementDraws(s.t, x, j, act.now);
      if f.Emit? { OutflowAfter(s.t, x, j, act.now, sender, day); }
      if i == j && x.pc == Drawing { DrawOk(s.t, x, j, act.now); }
    }
  }

  /** Once a counter has passed the cap, no direct transfer that draws it later ever completes. */
  lemma {:induction false} NothingAfterTheCap(s: Sys, acts: seq<Act>, i: nat, sender: UserId, day: Day)
    requires LockInv(s) && CapInv(s) && CanRun(s, acts) && TooLate(s, i, sender, day)
    ensures var s' := Run(s, acts);
            i < |s'.txns| && Counts(s'.txns[i], sender, day) ==> !IsCompleted(s'.t, i)
    decreases |acts|
  {
    if acts == [] {
      if i < |s.txns| { assert DrawnOk(s.t, s.txns[i], i); }
    } else {
      LockInvKept(s, acts[0]);
      CapKept(s, acts[0]);
      TooLateStays(s, acts[0], i, sender, day);
      NothingAfterTheCap(Next(s, acts[0]), acts[1..], i, sender, day);
    }
  }
}
