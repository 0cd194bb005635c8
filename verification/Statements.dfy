/** The statement download: a user's completed history rows, oldest first, at most ten thousand of them. */
module Statements {
  import opened Model

  const MAX_STATEMENT_ROWS: nat := 10_000

  /** The completed history rows of a user, in id order. */
  function CompletedOf(history: seq<HistoryRow>, u: UserId): seq<HistoryRow> {
    if history == [] then []
    else
      var last := history[|history| - 1];
      CompletedOf(history[..|history| - 1], u) + (if last.user == u && last.status == Completed then [last] else [])
  }

  lemma CompletedOfAppend(history: seq<HistoryRow>, row: HistoryRow, u: UserId)
    ensures CompletedOf(history + [row], u)
            == CompletedOf(history, u) + (if row.user == u && row.status == Completed then [row] else [])
  {
    assert (history + [row])[..|history|] == history;
  }

  function Movement(row: HistoryRow): int {
    if row.flow == Sent then -row.amount else row.amount
  }

  /** The row's balance is the one before it plus what the row received or minus what it sent. */
  predicate ChainsAt(hs: seq<HistoryRow>, k: nat)
    requires k < |hs|
  {
    hs[k].balanceAfter == (if k == 0 then 0 else hs[k - 1].balanceAfter) + Movement(hs[k])
  }

  ghost predicate StatementChains(hs: seq<HistoryRow>) {
    forall k: nat | k < |hs| :: ChainsAt(hs, k)
  }

  /** `created_at >= from AND created_at <= to`, for the bounds that are given. */
  predicate InWindow(at: Time, from: Option<Time>, to: Option<Time>) {
    (from.Some? ==> from.value <= at) && (to.Some? ==> at <= to.value)
  }

  function Times(hs: seq<HistoryRow>, createdAt: HistoryRow -> Time): seq<Time> {
    seq(|hs|, k requires 0 <= k < |hs| => createdAt(hs[k]))
  }

  /** The positions of the rows created in the window, from the timestamps of all. */
  function Chosen(ts: seq<Time>, from: Option<Time>, to: Option<Time>): seq<nat> {
    if ts == [] then []
    else
      var n := |ts| - 1;
      Chosen(ts[..n], from, to) + (if InWindow(ts[n], from, to) then [n] else [])
  }

  ghost predicate Ascending(ks: seq<nat>, n: nat) {
    (forall j | 0 <= j < |ks| :: ks[j] < n) && forall i, j | 0 <= i < j < |ks| :: ks[i] < ks[j]
  }

  lemma {:induction false} ChosenExactly(ts: seq<Time>, from: Option<Time>, to: Option<Time>)
    ensures Ascending(Chosen(ts, from, to), |ts|)
    ensures forall k: nat :: k in Chosen(ts, from, to) <==> k < |ts| && InWindow(ts[k], from, to)
  {
    if ts != [] {
      ChosenExactly(ts[..|ts| - 1], from, to);
    }
  }

  lemma {:induction false} AllChosen(ts: seq<Time>)
    ensures |Chosen(ts, None, None)| == |ts| && forall k: nat | k < |ts| :: Chosen(ts, None, None)[k] == k
  {
    if ts != [] { AllChosen(ts[..|ts| - 1]); }
  }

  datatype Line = Line(reference: Reference, createdAt: Time, kind: HistoryKind, flow: Flow, amount: int,
                       runningBalance: int, counterparty: Option<UserId>)

  function LineOf(row: HistoryRow, at: Time): Line {
    Line(row.reference, at, row.kind, row.flow, row.amount, row.balanceAfter, row.counterparty)
  }

  function LinesOf(hs: seq<HistoryRow>, createdAt: HistoryRow -> Time, ks: seq<nat>): seq<Line>
    requires forall j | 0 <= j < |ks| :: ks[j] < |hs|
  {
    seq(|ks|, j requires 0 <= j < |ks| => LineOf(hs[ks[j]], createdAt(hs[ks[j]])))
  }

  /** `generate_statement_csv`; `createdAt` is the timestamp column. */
  method GenerateStatement(
      history: seq<HistoryRow>, u: UserId, createdAt: HistoryRow -> Time, from: Option<Time>, to: Option<Time>)
    returns (lines: Option<seq<Line>>)
    ensures var hs := CompletedOf(history, u);
            var ks := Chosen(Times(hs, createdAt), from, to);
            && Ascending(ks, |hs|)
            && (forall k: nat | k < |hs| ::
                  k in ks <==> (from == None || from.value <= createdAt(hs[k]))
                               && (to == None || createdAt(hs[k]) <= to.value))
            && lines == if |ks| > 10_000 then None else Some(LinesOf(hs, createdAt, ks))
  {
    var hs := CompletedOf(history, u);
    var all := Chosen(Times(hs, createdAt), from, to);
    ChosenExactly(Times(hs, createdAt), from, to);
    var rows := if |all| <= MAX_STATEMENT_ROWS + 1 then all else all[..MAX_STATEMENT_ROWS + 1];
    if |rows| > MAX_STATEMENT_ROWS {
      return None;
    }
    var output: seq<Line> := [];
    for k := 0 to |rows|
      invariant output == LinesOf(hs, createdAt, rows)[..k]
    {
      output := output + [LineOf(hs[rows[k]], createdAt(hs[rows[k]]))];
    }
    assert LinesOf(hs, createdAt, rows)[..|rows|] == LinesOf(hs, createdAt, rows);
    return Some(output);
  }

  // ---------- statements of a window ----------

  /** Row `k` read right after row `i` continues it. */
  predicate FollowsOn(hs: seq<HistoryRow>, i: nat, k: nat)
    requires i < k < |hs|
  {
    hs[k].balanceAfter == hs[i].balanceAfter + Movement(hs[k])
  }

  /** From its second line on, each line follows from the line before it. */
  ghost predicate LinesChain(hs: seq<HistoryRow>, ks: seq<nat>)
    requires Ascending(ks, |hs|)
  {
    forall i, j | 0 <= i < j < |ks| && j == i + 1 :: FollowsOn(hs, ks[i], ks[j])
  }

  /** The rows between `i` and `k` change nothing in sum. */
  predicate NoNetChange(hs: seq<HistoryRow>, i: nat, k: nat)
    requires i < k < |hs|
  {
    hs[k - 1].balanceAfter == hs[i].balanceAfter
  }

  lemma FollowsOnIff(hs: seq<HistoryRow>, i: nat, k: nat)
    requires StatementChains(hs) && i < k < |hs|
    ensures FollowsOn(hs, i, k) <==> NoNetChange(hs, i, k)
  {
    assert ChainsAt(hs, k);
  }

  /** The statement of a window chains exactly when the rows it leaves out between two lines change nothing
      in sum. */
  lemma WindowChainsIff(hs: seq<HistoryRow>, ks: seq<nat>)
    requires StatementChains(hs) && Ascending(ks, |hs|)
    ensures LinesChain(hs, ks) <==> forall i, j | 0 <= i < j < |ks| && j == i + 1 :: NoNetChange(hs, ks[i], ks[j])
  {
    forall i, j | 0 <= i < j < |ks| && j == i + 1
      ensures FollowsOn(hs, ks[i], ks[j]) <==> NoNetChange(hs, ks[i], ks[j])
    {
      FollowsOnIff(hs, ks[i], ks[j]);
    }
  }

  // ---------- which timestamps give statements that chain ----------

  /** Nothing is left out between two lines. */
  ghost predicate Contiguous(ks: seq<nat>) {
    forall i, j | 0 <= i < j < |ks| && j == i + 1 :: ks[j] == ks[i] + 1
  }

  ghost predicate PositiveAmounts(hs: seq<HistoryRow>) {
    forall k | 0 <= k < |hs| :: hs[k].amount > 0
  }

  /** Every history of length `n`, whatever its amounts, gives lines that chain at these positions. */
  ghost predicate AlwaysChains(ks: seq<nat>, n: nat) {
    && Ascending(ks, n)
    && forall hs: seq<HistoryRow> | |hs| == n && StatementChains(hs) && PositiveAmounts(hs) :: LinesChain(hs, ks)
  }

  /** A history that receives one paisa with every row. */
  function Ladder(n: nat): seq<HistoryRow> {
    seq(n, k requires 0 <= k < n =>
      HistoryRow(1, Completed, HistoryTransfer, Received, 1, k + 1, None, 0, k, None))
  }

  lemma LadderChains(hs: seq<HistoryRow>, n: nat)
    requires hs == Ladder(n)
    ensures StatementChains(hs) && PositiveAmounts(hs)
  {
    assert forall k: nat | k < n :: hs[k].balanceAfter == k + 1 && Movement(hs[k]) == 1;
    forall k: nat | k < n
      ensures ChainsAt(hs, k)
    {
    }
  }

  lemma ContiguousChains(hs: seq<HistoryRow>, ks: seq<nat>)
    requires StatementChains(hs) && Ascending(ks, |hs|) && Contiguous(ks)
    ensures LinesChain(hs, ks)
  {
    forall i, j | 0 <= i < j < |ks| && j == i + 1
      ensures NoNetChange(hs, ks[i], ks[j])
    {
      var a, b := ks[i], ks[j];
      assert b == a + 1 && hs[b - 1] == hs[a];
    }
    WindowChainsIff(hs, ks);
  }

  /** Positions give lines that chain for every history exactly when they leave nothing out between two. */
  lemma ChainsIffContiguous(ks: seq<nat>, n: nat)
    requires Ascending(ks, n)
    ensures AlwaysChains(ks, n) <==> Contiguous(ks)
  {
    if Contiguous(ks) {
      forall hs: seq<HistoryRow> | |hs| == n && StatementChains(hs) && PositiveAmounts(hs)
        ensures LinesChain(hs, ks)
      {
        ContiguousChains(hs, ks);
      }
    } else {
      var i, j :| 0 <= i < j < |ks| && j == i + 1 && ks[j] != ks[i] + 1;
      var hs := Ladder(n);
      LadderChains(hs, n);
      assert !FollowsOn(hs, ks[i], ks[j]);
    }
  }

  /** No timestamp lies strictly above, or strictly below, one before it and one after it. */
  ghost predicate NoPeakOrDip(ts: seq<Time>) {
    forall i, m, k | 0 <= i < m < k < |ts| ::
      !(ts[i] < ts[m] && ts[k] < ts[m]) && !(ts[m] < ts[i] && ts[m] < ts[k])
  }

  lemma NextChosen(ks: seq<nat>, n: nat, i: nat, j: nat, m: nat)
    requires Ascending(ks, n) && i < j < |ks| && j == i + 1 && ks[i] < m && m in ks
    ensures ks[j] <= m
  {
    var p :| 0 <= p < |ks| && ks[p] == m;
    assert p == j || j < p || p <= i;
  }

  lemma WindowContiguous(ts: seq<Time>, from: Option<Time>, to: Option<Time>)
    requires NoPeakOrDip(ts)
    ensures Contiguous(Chosen(ts, from, to))
  {
    ChosenExactly(ts, from, to);
    var ks := Chosen(ts, from, to);
    forall i, j | 0 <= i < j < |ks| && j == i + 1
      ensures ks[j] == ks[i] + 1
    {
      var m := ks[i] + 1;
      assert ks[i] in ks && ks[j] in ks && m <= ks[j];
      assert InWindow(ts[m], from, to);
      NextChosen(ks, |ts|, i, j, m);
    }
  }

  lemma {:induction false} ContiguousAt(ks: seq<nat>, i: nat, j: nat)
    requires Contiguous(ks) && i <= j < |ks|
    ensures ks[j] == ks[i] + (j - i)
  {
    if i < j { ContiguousAt(ks, i, j - 1); }
  }

  lemma NothingBetween(ks: seq<nat>, n: nat, a: nat, m: nat, b: nat)
    requires Ascending(ks, n) && Contiguous(ks) && a in ks && b in ks && a < m < b
    ensures m in ks
  {
    var i :| 0 <= i < |ks| && ks[i] == a;
    var j :| 0 <= j < |ks| && ks[j] == b;
    assert i < j;
    ContiguousAt(ks, i, j);
    ContiguousAt(ks, i, i + (m - a));
  }

  /** A peak or a dip is left out by the window that reaches just up, or just down, to its sides. */
  lemma WindowAround(ts: seq<Time>, i: nat, m: nat, k: nat) returns (from: Option<Time>, to: Option<Time>)
    requires i < m < k < |ts|
    requires (ts[i] < ts[m] && ts[k] < ts[m]) || (ts[m] < ts[i] && ts[m] < ts[k])
    ensures !Contiguous(Chosen(ts, from, to))
  {
    if ts[i] < ts[m] && ts[k] < ts[m] {
      from, to := None, Some(if ts[i] < ts[k] then ts[k] else ts[i]);
    } else {
      from, to := Some(if ts[i] < ts[k] then ts[i] else ts[k]), None;
    }
    ChosenExactly(ts, from, to);
    assert i in Chosen(ts, from, to) && k in Chosen(ts, from, to) && m !in Chosen(ts, from, to);
    if Contiguous(Chosen(ts, from, to)) { NothingBetween(Chosen(ts, from, to), |ts|, i, m, k); }
  }

  /** Every window of a timestamp column selects neighbouring rows exactly when no timestamp is a peak or a
      dip among the others. */
  lemma WindowsContiguousIff(ts: seq<Time>)
    ensures (forall from, to :: Contiguous(Chosen(ts, from, to))) <==> NoPeakOrDip(ts)
  {
    if NoPeakOrDip(ts) {
      forall from, to
        ensures Contiguous(Chosen(ts, from, to))
      {
        WindowContiguous(ts, from, to);
      }
    } else {
      var i, m, k :| 0 <= i < m < k < |ts|
                     && ((ts[i] < ts[m] && ts[k] < ts[m]) || (ts[m] < ts[i] && ts[m] < ts[k]));
      var from, to := WindowAround(ts, i, m, k);
    }
  }

  /** The statements of all windows chain, for every history with these timestamps, exactly when no timestamp
      is a peak or a dip among the others. */
  lemma StatementsChainIff(ts: seq<Time>)
    ensures (forall from, to :: AlwaysChains(Chosen(ts, from, to), |ts|)) <==> NoPeakOrDip(ts)
  {
    forall from, to
      ensures AlwaysChains(Chosen(ts, from, to), |ts|) <==> Contiguous(Chosen(ts, from, to))
    {
      ChosenExactly(ts, from, to);
      ChainsIffContiguous(Chosen(ts, from, to), |ts|);
    }
    WindowsContiguousIff(ts);
  }

  /** With timestamps in the order of the ids every statement of a window chains. */
  lemma OrderedWindowChains(
      hs: seq<HistoryRow>, createdAt: HistoryRow -> Time, from: Option<Time>, to: Option<Time>)
    requires StatementChains(hs) && forall i, j | 0 <= i < j < |hs| :: createdAt(hs[i]) <= createdAt(hs[j])
    ensures var ks := Chosen(Times(hs, createdAt), from, to); Ascending(ks, |hs|) && LinesChain(hs, ks)
  {
    var ts := Times(hs, createdAt);
    assert NoPeakOrDip(ts);
    ChosenExactly(ts, from, to);
    WindowContiguous(ts, from, to);
    ContiguousChains(hs, Chosen(ts, from, to));
  }

  /** A window that leaves out the row between two lines, with the amount it moved. */
  lemma DisorderedWindow(hs: seq<HistoryRow>, createdAt: HistoryRow -> Time, to: Time)
    requires |hs| == 3 && StatementChains(hs) && hs[1].amount != 0
    requires createdAt(hs[0]) <= to && createdAt(hs[2]) <= to < createdAt(hs[1])
    ensures var ks := Chosen(Times(hs, createdAt), None, Some(to));
            ks == [0, 2] && Ascending(ks, |hs|) && !LinesChain(hs, ks)
  {
    var ts := Times(hs, createdAt);
    var ks := Chosen(ts, None, Some(to));
    assert ts[..2][..1] == ts[..1] && ts[..1][..0] == [];
    assert Chosen(ts[..1], None, Some(to)) == [0];
    assert Chosen(ts[..2], None, Some(to)) == [0];
    assert ks == [0, 2];
    assert ChainsAt(hs, 1);
    FollowsOnIff(hs, ks[0], ks[1]);
    assert !NoNetChange(hs, ks[0], ks[1]);
  }
}
