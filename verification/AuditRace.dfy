/**
  `run_reconciliation` beside running transactions. It sends a query for the user count, one for the balance
  total, one for the list of users, and two for each user, and nothing makes them see the same tables. The
  chain test never fails; the two others fail exactly when a registration, or a change of a user's balance,
  commits between the two queries they compare.
*/
module AuditRace {
  import opened Model
  import opened Ledger
  import opened Books
  import opened Transactions
  import opened Locking
  import opened Reconcile
  import opened Outcomes
  import opened Schedules

  /** The states in which the auditor's queries run: anything may happen between them. */
  ghost predicate Timeline(states: seq<Sys>) {
    |states| >= 3 && |states| == 3 + 2 * |states[2].t.users| && InTime(states)
  }

  function ViewOf(s: Sys): View {
    View(s.t.users, s.t.balances, CommittedLedger(s))
  }

  function Views(states: seq<Sys>): seq<View> {
    seq(|states|, k requires 0 <= k < |states| => ViewOf(states[k]))
  }

  // ---------- what the states of a timeline have in common ----------

  lemma AccountsStayNext(s: Sys, act: Act)
    requires Can(s, act)
    ensures s.t.balances.Keys <= Next(s, act).t.balances.Keys
  {
    if act.Step? {
      var f := Statement(s.t, s.txns[act.i], act.i, act.now);
      if f.Emit? && TablesAllow(s.t, f.event) { EventFrame(s.t, f.event, {}); }
    }
  }

  lemma {:induction false} AccountsStay(s: Sys, acts: seq<Act>)
    requires CanRun(s, acts)
    ensures s.t.balances.Keys <= Run(s, acts).t.balances.Keys
    decreases |acts|
  {
    if acts != [] {
      AccountsStayNext(s, acts[0]);
      AccountsStay(Next(s, acts[0]), acts[1..]);
    }
  }

  lemma TimelineAccounts(states: seq<Sys>, j: nat, k: nat)
    requires InTime(states) && j <= k < |states|
    ensures states[j].t.balances.Keys <= states[k].t.balances.Keys
  {
    InTimeLater(states, j, k);
    var acts :| CanRun(states[j], acts) && Run(states[j], acts) == states[k];
    AccountsStay(states[j], acts);
  }

  lemma UsersCovered(s: Sys)
    requires Reachable(s)
    ensures Covers(s.t.users, s.t.balances)
    ensures Total(s.t.users, s.t.balances) == SEED_BALANCE_PAISA * |s.t.users|
  {
    var b, log := BooksOf(s);
  }

  /** Every listed user has a balance and an account when the auditor gets to it. */
  lemma UserIsThere(states: seq<Sys>, i: nat)
    requires Timeline(states) && i < |states[2].t.users|
    ensures var u := states[2].t.users[i];
            u in states[3 + 2 * i].t.balances && u in states[4 + 2 * i].t.balances
  {
    InTimeReachable(states, 2);
    UsersCovered(states[2]);
    TimelineAccounts(states, 2, 3 + 2 * i);
    TimelineAccounts(states, 2, 4 + 2 * i);
  }

  // ---------- one user, and the total ----------

  function BalanceAt(s: Sys, u: UserId): int {
    if u in s.t.balances then s.t.balances[u].amount else 0
  }

  /** The balance of the `i`-th listed user when it is read. */
  function BalanceRead(states: seq<Sys>, i: nat): int
    requires |states| >= 3 && |states| == 3 + 2 * |states[2].t.users| && i < |states[2].t.users|
  {
    BalanceAt(states[3 + 2 * i], states[2].t.users[i])
  }

  /** The balance of the `i`-th listed user when the ledger rows are read. */
  function BalanceSummed(states: seq<Sys>, i: nat): int
    requires |states| >= 3 && |states| == 3 + 2 * |states[2].t.users| && i < |states[2].t.users|
  {
    BalanceAt(states[4 + 2 * i], states[2].t.users[i])
  }

  /** The error about the `i`-th listed user. */
  function MoveOf(states: seq<Sys>, i: nat): seq<AuditError>
    requires |states| >= 3 && |states| == 3 + 2 * |states[2].t.users| && i < |states[2].t.users|
  {
    if BalanceSummed(states, i) == BalanceRead(states, i) then []
    else [SumMismatch(states[2].t.users[i], BalanceSummed(states, i), BalanceRead(states, i))]
  }

  function Moves(states: seq<Sys>): seq<seq<AuditError>>
    requires |states| >= 3 && |states| == 3 + 2 * |states[2].t.users|
  {
    seq(|states[2].t.users|, i requires 0 <= i < |states[2].t.users| => MoveOf(states, i))
  }

  /** A user's committed rows are always in order and sum to the balance of their own moment. */
  lemma RowsInOrder(s: Sys, u: UserId)
    requires Reachable(s) && u in s.t.balances
    ensures var rows := RowsOf(CommittedLedger(s), u);
            ChainErrors(u, rows, |rows|) == [] && PrefixSum(rows, |rows|) == s.t.balances[u].amount
  {
    var b, log := BooksOf(s);
    AccountMatches(s, b, u);
    var rows := RowsOf(CommittedLedger(s), u);
    ChainedIffPrefixSum(rows);
    ChainErrorsExact(u, rows, |rows|);
  }

  lemma UserAmid(states: seq<Sys>, i: nat)
    requires Timeline(states) && i < |states[2].t.users|
    ensures PerUser(Taken(Views(states)))[i] == MoveOf(states, i)
  {
    var u, rows := states[2].t.users[i], RowsOf(CommittedLedger(states[4 + 2 * i]), states[2].t.users[i]);
    UserIsThere(states, i);
    InTimeReachable(states, 4 + 2 * i);
    RowsInOrder(states[4 + 2 * i], u);
    assert Taken(Views(states))[i] == Reading(u, BalanceRead(states, i), rows);
    BothEmpty(ChainErrors(u, rows, |rows|), SumErrors(u, rows, BalanceRead(states, i)));
  }

  // ---------- the whole audit ----------

  lemma UsersAmid(states: seq<Sys>)
    requires Timeline(states)
    ensures BalancesFound(Views(states)) && PerUser(Taken(Views(states))) == Moves(states)
  {
    var views := Views(states);
    forall i: nat | i < |states[2].t.users|
      ensures views[2].users[i] in views[3 + 2 * i].balances
      ensures PerUser(Taken(views))[i] == MoveOf(states, i)
    {
      UserIsThere(states, i);
      UserAmid(states, i);
    }
  }

  /** Whatever commits between its queries, the auditor completes and never reports a broken chain: only a
      total that counts users its first query did not, and sums that differ from a balance by what
      committed between the two queries about that user. */
  lemma AuditAmid(states: seq<Sys>)
    requires Timeline(states)
    ensures BalancesFound(Views(states))
    ensures Observed(Views(states)).errors
            == TotalErrors(|states[0].t.users|, SEED_BALANCE_PAISA * |states[1].t.users|)
               + Joined(Moves(states), |Moves(states)|)
  {
    UsersAmid(states);
    InTimeReachable(states, 1);
    UsersCovered(states[1]);
  }

  /** The report is clean exactly when nobody registers between the first two queries and no user's balance
      differs between the two queries about that user. */
  lemma AuditAmidIff(states: seq<Sys>)
    requires Timeline(states)
    ensures Observed(Views(states)).errors == [] <==>
            && |states[0].t.users| == |states[1].t.users|
            && forall i: nat | i < |states[2].t.users| :: BalanceRead(states, i) == BalanceSummed(states, i)
  {
    AuditAmid(states);
    NothingMoved(states);
  }

  lemma NothingMoved(states: seq<Sys>)
    requires |states| >= 3 && |states| == 3 + 2 * |states[2].t.users|
    ensures TotalErrors(|states[0].t.users|, SEED_BALANCE_PAISA * |states[1].t.users|)
            + Joined(Moves(states), |Moves(states)|) == [] <==>
            && |states[0].t.users| == |states[1].t.users|
            && forall i: nat | i < |states[2].t.users| :: BalanceRead(states, i) == BalanceSummed(states, i)
  {
    var parts := Moves(states);
    JoinedEmpty(parts, |parts|);
    BothEmpty(TotalErrors(|states[0].t.users|, SEED_BALANCE_PAISA * |states[1].t.users|), Joined(parts, |parts|));
    forall i: nat | i < |parts|
      ensures parts[i] == [] <==> BalanceRead(states, i) == BalanceSummed(states, i)
    {
    }
  }

  // ---------- a false report ----------

  /** Two users, and one change between the first balance and the first user's rows. */
  lemma ChangeAfterBalance(s: Sys, s': Sys) returns (states: seq<Sys>)
    requires Reachable(s) && Later(s, s') && |s.t.users| == 2
    ensures Timeline(states) && states == [s, s, s, s, s', s', s']
  {
    LaterSelf(s);
    LaterSelf(s');
    states := [s, s, s, s, s', s', s'];
    forall k: nat | 0 < k < 7
      ensures Follows(states, k)
    {
      assert (states[k - 1] == s || states[k - 1] == s') && (states[k] == s || states[k] == s');
    }
  }

  /** A transfer of 100 paisa between two users commits. */
  lemma TransferCommits() returns (s: Sys, s': Sys)
    ensures Reachable(s) && Later(s, s') && s.t.users == [1, 2]
    ensures BalanceAt(s, 1) == 10_000_000 && BalanceAt(s', 1) == 9_999_900
  {
    s := TransferNearlyDone();
    ByLater(Boot, s, 0);
    BySelf(s, 0);
    s' := StepAlone(s, s, 2, 0);
    ByLater(s, s', 0);
  }

  /** The auditor reads the balance of user 1, a transfer of 100 paisa commits, and the auditor goes on. */
  lemma TransferInBetween() returns (states: seq<Sys>)
    ensures Timeline(states) && |states| == 7
    ensures Observed(Views(states)).errors == [SumMismatch(1, 9_999_900, 10_000_000)]
  {
    var s, s' := TransferCommits();
    states := ChangeAfterBalance(s, s');
    AuditAmid(states);
    MovesOfTwo(states);
    assert MoveOf(states, 0) == [SumMismatch(1, 9_999_900, 10_000_000)] && MoveOf(states, 1) == [];
  }

  lemma MovesOfTwo(states: seq<Sys>)
    requires |states| == 7 && |states[2].t.users| == 2 && |states[0].t.users| == |states[1].t.users|
    ensures TotalErrors(|states[0].t.users|, SEED_BALANCE_PAISA * |states[1].t.users|)
            + Joined(Moves(states), |Moves(states)|) == MoveOf(states, 0) + MoveOf(states, 1)
  {
    var parts := Moves(states);
    assert Joined(parts, 1) == Joined(parts, 0) + parts[0] == parts[0];
    assert Joined(parts, 2) == Joined(parts, 1) + parts[1];
  }
}
