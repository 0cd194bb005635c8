/** Continuations of a state, and the schedules from which the concrete runs are put together. */
module Schedules {
  import opened Model
  import opened Books
  import opened Transactions
  import opened Progress

  /** Some interleaving leads from `a` to `b`. */
  ghost predicate Later(a: Sys, b: Sys) {
    exists acts :: CanRun(a, acts) && Run(a, acts) == b
  }

  /** Any state some interleaving reaches. */
  ghost predicate Reachable(s: Sys) {
    Later(Boot, s)
  }

  lemma LaterSelf(s: Sys)
    ensures Later(s, s)
  {
    assert CanRun(s, []) && Run(s, []) == s;
  }

  lemma Concat<T>(a: seq<T>, b: seq<T>)
    ensures a == [] ==> a + b == b
    ensures a != [] ==> a + b != [] && (a + b)[0] == a[0] && (a + b)[1..] == a[1..] + b
  {
  }

  lemma {:induction false} RunConcat(s: Sys, acts: seq<Act>, more: seq<Act>)
    requires CanRun(s, acts) && CanRun(Run(s, acts), more)
    ensures CanRun(s, acts + more) && Run(s, acts + more) == Run(Run(s, acts), more)
    decreases |acts|
  {
    Concat(acts, more);
    if acts != [] {
      RunConcat(Next(s, acts[0]), acts[1..], more);
    }
  }

  lemma LaterTrans(a: Sys, b: Sys, c: Sys)
    requires Later(a, b) && Later(b, c)
    ensures Later(a, c)
  {
    var acts :| CanRun(a, acts) && Run(a, acts) == b;
    var more :| CanRun(b, more) && Run(b, more) == c;
    RunConcat(a, acts, more);
  }

  lemma RunOne(s: Sys, act: Act)
    requires Can(s, act)
    ensures CanRun(s, [act]) && Run(s, [act]) == Next(s, act)
  {
    assert [act][1..] == [];
    assert CanRun(Next(s, act), []);
    assert Run(Next(s, act), []) == Next(s, act);
  }

  lemma LaterNext(a: Sys, s: Sys, act: Act)
    requires Later(a, s) && Can(s, act)
    ensures Later(a, Next(s, act))
  {
    RunOne(s, act);
    LaterTrans(a, s, Next(s, act));
  }

  // ---------- states one after another ----------

  ghost predicate Follows(states: seq<Sys>, k: nat) {
    0 < k < |states| && Later(states[k - 1], states[k])
  }

  /** Reachable states of one run, in order: anything may happen between them. */
  ghost predicate InTime(states: seq<Sys>) {
    states != [] && Reachable(states[0]) && forall k: nat | 0 < k < |states| :: Follows(states, k)
  }

  lemma {:induction false} InTimeLater(states: seq<Sys>, j: nat, k: nat)
    requires InTime(states) && j <= k < |states|
    ensures Later(states[j], states[k])
  {
    if j == k {
      LaterSelf(states[j]);
    } else {
      InTimeLater(states, j, k - 1);
      assert Follows(states, k);
      LaterTrans(states[j], states[k - 1], states[k]);
    }
  }

  lemma InTimeReachable(states: seq<Sys>, k: nat)
    requires InTime(states) && k < |states|
    ensures Reachable(states[k])
  {
    InTimeLater(states, 0, k);
    LaterTrans(Boot, states[0], states[k]);
  }

  // ---------- runs with a clock ----------

  /** The clock readings never go back, and none is after `now`. */
  ghost predicate Clocked(acts: seq<Act>, now: Time)
    decreases |acts|
  {
    acts == [] ||
    (var last, front := acts[|acts| - 1], acts[..|acts| - 1];
     if last.Abort? then Clocked(front, now) else last.now <= now && Clocked(front, last.now))
  }

  /** Some interleaving with such a clock leads from `a` to `b` by the time `now`. */
  ghost predicate By(a: Sys, b: Sys, now: Time) {
    exists acts :: CanRun(a, acts) && Run(a, acts) == b && Clocked(acts, now)
  }

  lemma ByLater(a: Sys, b: Sys, now: Time)
    requires By(a, b, now)
    ensures Later(a, b)
  {
  }

  lemma BySelf(s: Sys, now: Time)
    ensures By(s, s, now)
  {
    assert CanRun(s, []) && Run(s, []) == s && Clocked([], now);
  }

  lemma ByNext(a: Sys, s: Sys, act: Act, now: Time)
    requires By(a, s, now) && Can(s, act) && (!act.Abort? ==> act.now == now)
    ensures By(a, Next(s, act), now)
  {
    var acts :| CanRun(a, acts) && Run(a, acts) == s && Clocked(acts, now);
    RunOne(s, act);
    RunConcat(a, acts, [act]);
    assert (acts + [act])[..|acts|] == acts;
  }

  lemma {:induction false} ClockedWaits(acts: seq<Act>, before: Time, now: Time)
    requires Clocked(acts, before) && before <= now
    ensures Clocked(acts, now)
    decreases |acts|
  {
    if acts != [] && acts[|acts| - 1].Abort? { ClockedWaits(acts[..|acts| - 1], before, now); }
  }

  lemma ByWaits(a: Sys, s: Sys, before: Time, now: Time)
    requires By(a, s, before) && before <= now
    ensures By(a, s, now)
  {
    var acts :| CanRun(a, acts) && Run(a, acts) == s && Clocked(acts, before);
    ClockedWaits(acts, before, now);
  }

  // ---------- a transaction nobody hinders ----------

  /** Transaction `i` is in the list, and no other holds a lock. */
  ghost predicate Unhindered(s: Sys, i: nat) {
    i < |s.txns| && forall j | 0 <= j < |s.txns| && j != i :: Holds(s.txns[j]) == {}
  }

  ghost predicate Unlocked(s: Sys) {
    forall j | 0 <= j < |s.txns| :: Holds(s.txns[j]) == {}
  }

  lemma QuietUnlocked(s: Sys)
    requires Quiet(s)
    ensures Unlocked(s)
  {
  }

  function InsertedHistory(f: Effect, i: nat): seq<Slot<HistoryRow>> {
    if f.InsertHistory? then [Slot(i, f.account, f.item)] else []
  }

  /** Its statements can run one after another. */
  lemma StepAlone(a: Sys, s: Sys, i: nat, now: Time) returns (s': Sys)
    requires By(a, s, now) && Unhindered(s, i) && InFlight(s.txns[i])
    requires var f := Statement(s.t, s.txns[i], i, now); f.Emit? ==> TablesAllow(s.t, f.event)
    ensures By(a, s', now) && Unhindered(s', i)
    ensures var f := Statement(s.t, s.txns[i], i, now);
            && s' == Next(s, Step(i, now))
            && s'.txns == s.txns[i := f.next] && s'.history == s.history + InsertedHistory(f, i)
            && s'.t == if f.Emit? then ApplyTables(s.t, f.event) else s.t
  {
    s' := Next(s, Step(i, now));
    ByNext(a, s, Step(i, now), now);
  }

  lemma BeginAlone(a: Sys, s: Sys, op: Op, now: Time) returns (s': Sys)
    requires By(a, s, now) && Unlocked(s) && Valid(op)
    ensures By(a, s', now) && Unhindered(s', |s.txns|)
    ensures s'.t == s.t && s'.history == s.history && s'.txns == s.txns + [NewTxn(op, |s.txns|, now)]
  {
    s' := Next(s, Begin(op, now));
    ByNext(a, s, Begin(op, now), now);
  }

  /** A user who registers, at time 0. */
  lemma Registration(s: Sys, u: UserId) returns (s': Sys)
    requires By(Boot, s, 0) && Quiet(s) && u !in s.t.balances && |s.txns| !in s.t.transfers
    ensures By(Boot, s', 0) && Quiet(s')
    ensures |s'.txns| == |s.txns| + 1 && s'.txns[..|s.txns|] == s.txns
    ensures s'.txns[|s.txns|].pc == Done && s'.txns[|s.txns|].begun == 0
    ensures s'.t == s.t.(users := s.t.users + [u], balances := s.t.balances[u := Balance(SEED_BALANCE_PAISA, 0)])
    ensures s'.history == s.history + [Slot(|s.txns|, Some(u), FundingHistory(u, |s.txns|, 0))]
  {
    QuietUnlocked(s);
    s' := BeginAlone(Boot, s, RegisterOp(u, 0), 0);
    s' := FundingInserted(s', |s.txns|, u);
    s' := StepAlone(Boot, s', |s.txns|, 0);
  }

  lemma FundingInserted(s: Sys, i: nat, u: UserId) returns (s': Sys)
    requires By(Boot, s, 0) && Unhindered(s, i)
    requires s.txns[i] == NewTxn(RegisterOp(u, 0), i, 0) && u !in s.t.balances
    ensures By(Boot, s', 0) && Unhindered(s', i)
    ensures s'.t == s.t && s'.txns == s.txns[i := s.txns[i].(pc := FundingLogged)]
    ensures s'.history == s.history + [Slot(i, Some(u), FundingHistory(u, i, 0))]
  {
    s' := StepAlone(Boot, s, i, 0);
    s' := StepAlone(Boot, s', i, 0);
  }

  /** Two users, and nothing else. */
  const TwoUsers := NoTables.(
    users := [1, 2],
    balances := map[1 := Balance(SEED_BALANCE_PAISA, 0), 2 := Balance(SEED_BALANCE_PAISA, 0)])

  lemma TwoRegistered() returns (s: Sys)
    ensures By(Boot, s, 0) && Quiet(s) && s.t == TwoUsers && |s.txns| == 2
    ensures s.txns[0].pc == s.txns[1].pc == Done && s.txns[0].begun == 0
    ensures s.history == [Slot(0, Some(1), FundingHistory(1, 0, 0)), Slot(1, Some(2), FundingHistory(2, 1, 0))]
  {
    BySelf(Boot, 0);
    var one := Registration(Boot, 1);
    s := Registration(one, 2);
    assert s.txns[..1][0] == one.txns[0];
    assert s.t.users == [1, 2];
  }

  // ---------- a payment that has done everything but commit ----------

  /** Transaction `i` has fixed its terms, has the money and has a key nobody used. */
  ghost predicate ReadyToPay(s: Sys, i: nat) {
    && Unhindered(s, i) && s.txns[i].pc == Ready
    && s.txns[i].pay.payer != s.txns[i].pay.payee
    && s.txns[i].pay.payer in s.t.balances && s.txns[i].pay.payee in s.t.balances
    && s.txns[i].pay.amount <= s.t.balances[s.txns[i].pay.payer].amount && s.txns[i].pay.key !in s.t.keys
  }

  /** `y` is `x` further on: the same operation, terms and beginning. */
  predicate SameTerms(x: Txn, y: Txn) {
    y.op == x.op && y.pay == x.pay && y.begun == x.begun
  }

  lemma BalanceLocks(a: Sys, s: Sys, i: nat, now: Time) returns (s': Sys)
    requires By(a, s, now) && ReadyToPay(s, i)
    ensures By(a, s', now) && s'.t == s.t && s'.history == s.history && Unhindered(s', i)
    ensures s'.txns == s.txns[i := s'.txns[i]] && s'.txns[i].pc == TwoLocks && SameTerms(s.txns[i], s'.txns[i])
    ensures PayerBalance(s'.txns[i]) == s.t.balances[s.txns[i].pay.payer].amount
    ensures PayeeBalance(s'.txns[i]) == s.t.balances[s.txns[i].pay.payee].amount
  {
    s' := StepAlone(a, s, i, now);
    s' := StepAlone(a, s', i, now);
  }

  lemma PaymentLocks(a: Sys, s: Sys, i: nat, now: Time) returns (s': Sys)
    requires By(a, s, now) && ReadyToPay(s, i)
    ensures By(a, s', now) && s'.t == s.t && s'.history == s.history && Unhindered(s', i)
    ensures s'.txns == s.txns[i := s'.txns[i]] && s'.txns[i].pc == KeyHeld && SameTerms(s.txns[i], s'.txns[i])
    ensures PayerBalance(s'.txns[i]) == s.t.balances[s.txns[i].pay.payer].amount
    ensures PayeeBalance(s'.txns[i]) == s.t.balances[s.txns[i].pay.payee].amount
  {
    var both := BalanceLocks(a, s, i, now);
    s' := StepAlone(a, both, i, now);
  }

  lemma LedgerWrites(a: Sys, s: Sys, i: nat, now: Time) returns (s': Sys)
    requires By(a, s, now) && Unhindered(s, i) && s.txns[i].pc == KeyHeld
    ensures By(a, s', now) && s'.t == s.t && s'.history == s.history && Unhindered(s', i)
    ensures s'.txns == s.txns[i := s.txns[i].(pc := CreditIn)]
  {
    s' := StepAlone(a, s, i, now);
    s' := StepAlone(a, s', i, now);
  }

  lemma SentWritten(a: Sys, s: Sys, i: nat, now: Time) returns (s': Sys)
    requires By(a, s, now) && Unhindered(s, i) && s.txns[i].pc == CreditIn
    ensures By(a, s', now) && s'.t == s.t && Unhindered(s', i)
    ensures s'.txns == s.txns[i := s.txns[i].(pc := SentIn)]
    ensures var x := s.txns[i];
            s'.history == s.history
              + [Slot(i, Some(x.pay.payer), SentHistory(x.pay, PayerBalance(x) - x.pay.amount))]
  {
    s' := StepAlone(a, s, i, now);
  }

  lemma HistoryWrites(a: Sys, s: Sys, i: nat, now: Time) returns (s': Sys)
    requires By(a, s, now) && Unhindered(s, i) && s.txns[i].pc == CreditIn
    ensures By(a, s', now) && s'.t == s.t && Unhindered(s', i)
    ensures s'.txns == s.txns[i := s.txns[i].(pc := ReceivedIn)]
    ensures var x := s.txns[i];
            s'.history == s.history
              + [Slot(i, Some(x.pay.payer), SentHistory(x.pay, PayerBalance(x) - x.pay.amount)),
                 Slot(i, Some(x.pay.payee), ReceivedHistory(x.pay, PayeeBalance(x) + x.pay.amount))]
  {
    var sent := SentWritten(a, s, i, now);
    s' := StepAlone(a, sent, i, now);
  }

  lemma PaymentNearlyDone(a: Sys, s: Sys, i: nat, now: Time) returns (s': Sys)
    requires By(a, s, now) && ReadyToPay(s, i)
    ensures By(a, s', now) && s'.t == s.t && Unhindered(s', i)
    ensures s'.txns == s.txns[i := s'.txns[i]] && s'.txns[i].pc == ReceivedIn && SameTerms(s.txns[i], s'.txns[i])
    ensures var p, b := s.txns[i].pay, s.t.balances;
            s'.history == s.history
              + [Slot(i, Some(p.payer), SentHistory(p, b[p.payer].amount - p.amount)),
                 Slot(i, Some(p.payee), ReceivedHistory(p, b[p.payee].amount + p.amount))]
  {
    var locked := PaymentLocks(a, s, i, now);
    var written := LedgerWrites(a, locked, i, now);
    s' := HistoryWrites(a, written, i, now);
  }

  /** A direct transfer from user 1 to user 2 whose lookup misses. */
  lemma TransferLooksUp(a: Sys, s: Sys, amount: int, key: Key, now: Time) returns (s': Sys)
    requires By(a, s, now) && Unlocked(s) && key !in s.t.keys && 0 < amount <= PER_TRANSFER_CAP_PAISA
    ensures By(a, s', now) && Unhindered(s', |s.txns|) && s'.t == s.t && s'.history == s.history
    ensures s'.txns == s.txns + [NewTxn(TransferOp(1, 2, amount, key, 0, 0), |s.txns|, now).(pc := Drawing)]
  {
    s' := BeginAlone(a, s, TransferOp(1, 2, amount, key, 0, 0), now);
    s' := StepAlone(a, s', |s.txns|, now);
  }

  lemma TransferDraws(a: Sys, s: Sys, i: nat, now: Time) returns (s': Sys)
    requires By(a, s, now) && Unhindered(s, i) && s.txns[i].pc == Drawing && s.txns[i].op.TransferOp?
    requires var op := s.txns[i].op;
             0 < op.amount <= PER_TRANSFER_CAP_PAISA
             && Outflow(s.t, op.sender, op.day) + op.amount <= DAILY_OUTFLOW_CAP_PAISA
    ensures By(a, s', now) && Unhindered(s', i) && s'.history == s.history
    ensures s'.txns == s.txns[i := s.txns[i].(pc := Ready, passed := true, begun := now)]
    ensures var op := s.txns[i].op;
            s'.t == s.t.(outflow := s.t.outflow[(op.sender, op.day) := Outflow(s.t, op.sender, op.day) + op.amount])
  {
    s' := StepAlone(a, s, i, now);
  }

  /** And whose draw passes: it has begun its database transaction. */
  lemma TransferReady(a: Sys, s: Sys, amount: int, key: Key, now: Time) returns (s': Sys)
    requires By(a, s, now) && Unlocked(s) && key !in s.t.keys
    requires 0 < amount <= PER_TRANSFER_CAP_PAISA && Outflow(s.t, 1, 0) + amount <= DAILY_OUTFLOW_CAP_PAISA
    ensures By(a, s', now) && Unlocked(s') && s'.history == s.history
    ensures |s'.txns| == |s.txns| + 1 && s'.txns[..|s.txns|] == s.txns
    ensures s'.t == s.t.(outflow := s.t.outflow[(1, 0) := Outflow(s.t, 1, 0) + amount])
    ensures var x := s'.txns[|s.txns|];
            && x.pc == Ready && x.op == TransferOp(1, 2, amount, key, 0, 0) && x.begun == now
            && x.pay == Payment(Direct, 1, 2, amount, |s.txns|, 0, key)
  {
    var drawing := TransferLooksUp(a, s, amount, key, now);
    s' := TransferDraws(a, drawing, |s.txns|, now);
    assert s'.txns[..|s.txns|] == s.txns;
  }

  /** A direct transfer of 100 paisa from user 1 to user 2 under key 9, about to commit. */
  lemma TransferNearlyDone() returns (s: Sys)
    ensures By(Boot, s, 0) && Unhindered(s, 2) && |s.txns| == 3
    ensures s.t == TwoUsers.(outflow := map[(1, 0) := 100])
    ensures s.txns[2].pc == ReceivedIn && s.txns[2].pay == Payment(Direct, 1, 2, 100, 2, 0, 9)
    ensures s.txns[2].op == TransferOp(1, 2, 100, 9, 0, 0)
  {
    s := TwoRegistered();
    QuietUnlocked(s);
    s := TransferReady(Boot, s, 100, 9, 0);
    s := PaymentNearlyDone(Boot, s, 2, 0);
  }
}
