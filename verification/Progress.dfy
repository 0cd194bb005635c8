/**
  Deadlock freedom and termination. Locks are always taken upwards: request and link rows before balance
  rows, balance rows by ascending user id, and index entries last.
*/
module Progress {
  import opened Model
  import opened Transactions
  import opened Locking

  function Level(r: Resource): int {
    match r
    case RequestRow(_) => 0
    case LinkRow(_) => 0
    case BalanceRow(_) => 1
    case UserRow(_) => 2
    case KeyEntry(_) => 2
  }

  predicate Before(a: Resource, b: Resource) {
    Level(a) < Level(b) || (a.BalanceRow? && b.BalanceRow? && a.user < b.user)
  }

  /** A waiting transaction holds only locks below the one it waits for. */
  lemma LocksAscend(t: Tables, x: Txn, i: nat)
    requires TxnOk(t, x, i) && Wants(x).Some?
    ensures forall h <- Holds(x) :: Before(h, Wants(x).value)
  {
  }

  ghost predicate WaitsFor(txns: seq<Txn>, i: nat, j: nat) {
    && i < |txns| && j < |txns| && i != j
    && InFlight(txns[i]) && Wants(txns[i]).Some? && Wants(txns[i]).value in Holds(txns[j])
  }

  ghost predicate WaitPath(txns: seq<Txn>, path: seq<nat>) {
    forall k | 0 <= k < |path| - 1 :: WaitsFor(txns, path[k], path[k + 1])
  }

  /** Along a path of waiting transactions the awaited locks strictly ascend. */
  lemma {:induction false} WaitsAscend(s: Sys, path: seq<nat>, n: nat)
    requires AllTxnsOk(s.t, s.txns) && WaitPath(s.txns, path) && 1 <= n < |path|
    requires path[n] < |s.txns| && Wants(s.txns[path[n]]).Some?
    ensures path[0] < |s.txns| && Wants(s.txns[path[0]]).Some?
    ensures Before(Wants(s.txns[path[0]]).value, Wants(s.txns[path[n]]).value)
  {
    assert WaitsFor(s.txns, path[n - 1], path[n - 1 + 1]);
    assert TxnOk(s.t, s.txns[path[n]], path[n]);
    LocksAscend(s.t, s.txns[path[n]], path[n]);
    if n > 1 {
      WaitsAscend(s, path, n - 1);
    }
  }

  /** No state the machine reaches contains a cycle of waiting transactions. */
  lemma NoWaitCycle(s: Sys, path: seq<nat>)
    requires LockInv(s) && |path| >= 2 && WaitPath(s.txns, path)
    ensures path[0] != path[|path| - 1]
  {
    var last := |path| - 1;
    if path[0] == path[last] {
      assert WaitsFor(s.txns, path[0], path[0 + 1]);
      WaitsAscend(s, path, last);
    }
  }

  ghost function Held(txns: seq<Txn>): set<Resource> {
    set i, r | 0 <= i < |txns| && r in Holds(txns[i]) :: r
  }

  ghost function Above(txns: seq<Txn>, a: Resource): set<Resource> {
    set r | r in Held(txns) && (r == a || Before(a, r))
  }

  ghost function Awaited(x: Txn, txns: seq<Txn>): set<Resource> {
    if Wants(x).Some? then Above(txns, Wants(x).value) else {}
  }

  /** Following whoever holds the awaited lock ends at a transaction that can run. */
  lemma {:induction false} FindRunnable(s: Sys, i: nat) returns (k: nat)
    requires LockInv(s) && i < |s.txns| && InFlight(s.txns[i])
    ensures k < |s.txns| && InFlight(s.txns[k]) && Free(s, k)
    decreases Awaited(s.txns[i], s.txns)
  {
    if Free(s, i) {
      k := i;
    } else {
      var r := Wants(s.txns[i]).value;
      var j: nat :| j < |s.txns| && j != i && r in Holds(s.txns[j]);
      assert InFlight(s.txns[j]);
      if Wants(s.txns[j]).None? {
        k := j;
      } else {
        assert TxnOk(s.t, s.txns[j], j);
        LocksAscend(s.t, s.txns[j], j);
        assert r in Above(s.txns, r) && r !in Above(s.txns, Wants(s.txns[j]).value);
        assert Above(s.txns, Wants(s.txns[j]).value) <= Above(s.txns, r);
        k := FindRunnable(s, j);
      }
    }
  }

  /** While anything is in flight, some transaction can run its next statement. */
  lemma NoDeadlock(s: Sys)
    requires LockInv(s) && exists i :: 0 <= i < |s.txns| && InFlight(s.txns[i])
    ensures exists k: nat, now: Time :: Can(s, Step(k, now))
  {
    var i: nat :| i < |s.txns| && InFlight(s.txns[i]);
    var k := FindRunnable(s, i);
    assert Can(s, Step(k, 0));
  }

  // ---------- termination ----------

  /** The most statements a transaction can still run. */
  function Remaining(x: Txn): nat {
    match x.pc
    case Start => 10
    case Drawing => 9
    case Ready => 8
    case OneLock => 7
    case TwoLocks => 6
    case KeyHeld => 5
    case DebitIn => 4
    case CreditIn => 3
    case SentIn => 2
    case ReceivedIn => 1
    case Refusing => 3
    case RefusalKeyed => 2
    case RefusalLogged => 1
    case Closing => 1
    case Stale => 1
    case FundingIn => 2
    case FundingLogged => 1
    case Done => 0
    case Ended => 0
  }

  function Work(txns: seq<Txn>): nat {
    if txns == [] then 0 else Work(txns[..|txns| - 1]) + Remaining(txns[|txns| - 1])
  }

  lemma {:induction false} WorkUpdate(txns: seq<Txn>, i: nat, y: Txn)
    requires i < |txns|
    ensures Work(txns[i := y]) == Work(txns) - Remaining(txns[i]) + Remaining(y)
  {
    var last := |txns| - 1;
    if i == last {
      assert txns[i := y][..last] == txns[..last];
    } else {
      WorkUpdate(txns[..last], i, y);
      assert txns[i := y][..last] == txns[..last][i := y];
    }
  }

  lemma StatementsRunOut(t: Tables, x: Txn, i: nat, now: Time)
    requires InFlight(x)
    ensures Remaining(Statement(t, x, i, now).next) < Remaining(x)
  {
  }

  /** Every statement and every abort uses up work. */
  lemma WorkFalls(s: Sys, act: Act)
    requires Can(s, act) && !act.Begin?
    ensures |Next(s, act).txns| == |s.txns| && Work(Next(s, act).txns) < Work(s.txns)
  {
    var y := Next(s, act).txns[act.i];
    assert Next(s, act).txns == s.txns[act.i := y];
    WorkUpdate(s.txns, act.i, y);
    if act.Step? { StatementsRunOut(s.t, s.txns[act.i], act.i, act.now); }
  }

  ghost predicate NoneBegin(acts: seq<Act>) {
    forall k | 0 <= k < |acts| :: !acts[k].Begin?
  }

  /** However they are scheduled, the transactions in flight run at most `Work` actions. */
  lemma {:induction false} RunsAreBounded(s: Sys, acts: seq<Act>)
    requires CanRun(s, acts) && NoneBegin(acts)
    ensures |acts| <= Work(s.txns)
    decreases |acts|
  {
    if acts != [] {
      assert !acts[0].Begin?;
      WorkFalls(s, acts[0]);
      assert NoneBegin(acts[1..]) by {
        forall k | 0 <= k < |acts[1..]| ensures !acts[1..][k].Begin? { assert acts[1..][k] == acts[k + 1]; }
      }
      RunsAreBounded(Next(s, acts[0]), acts[1..]);
    }
  }

  ghost predicate Quiet(s: Sys) {
    forall i | 0 <= i < |s.txns| :: !InFlight(s.txns[i])
  }

  /** A run that cannot be continued by a statement has finished every transaction. */
  lemma StuckIsQuiet(s: Sys)
    requires LockInv(s) && forall k: nat, now: Time :: !Can(s, Step(k, now))
    ensures Quiet(s)
  {
    if !Quiet(s) {
      NoDeadlock(s);
    }
  }

  /** From every state, statements alone - no aborts - bring all transactions to their end. */
  lemma {:induction false} Drains(s: Sys) returns (acts: seq<Act>)
    requires LockInv(s)
    ensures CanRun(s, acts) && Quiet(Run(s, acts))
    ensures forall k | 0 <= k < |acts| :: acts[k].Step?
    decreases Work(s.txns)
  {
    if Quiet(s) {
      acts := [];
    } else {
      NoDeadlock(s);
      var k: nat, now: Time :| Can(s, Step(k, now));
      var act := Step(k, now);
      LockInvKept(s, act);
      WorkFalls(s, act);
      var rest := Drains(Next(s, act));
      acts := [act] + rest;
      assert acts[1..] == rest;
    }
  }
}
