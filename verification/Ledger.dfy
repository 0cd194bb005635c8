/** One user's ledger rows in id order: prefix sums, the running-balance chain, the history mirror. */
module Ledger {
  import opened Model

  /** The signed sum of the first `n` rows: the auditor's `computed_sum` after `n` rows. */
  function PrefixSum(rows: seq<LedgerRow>, n: nat): int
    requires n <= |rows|
  {
    if n == 0 then 0 else PrefixSum(rows, n - 1) + rows[n - 1].Delta()
  }

  /** The running balance the row at `k` should carry, given the row before it. */
  function Expected(rows: seq<LedgerRow>, k: nat): int
    requires k < |rows|
  {
    (if k == 0 then 0 else rows[k - 1].running) + rows[k].Delta()
  }

  ghost predicate Chained(rows: seq<LedgerRow>) {
    forall k: nat | k < |rows| :: rows[k].running == Expected(rows, k)
  }

  ghost predicate RunningIsPrefixSum(rows: seq<LedgerRow>) {
    forall k: nat | k < |rows| :: rows[k].running == PrefixSum(rows, k + 1)
  }

  lemma {:induction false} ChainedPrefix(rows: seq<LedgerRow>, n: nat)
    requires n <= |rows|
    requires forall k: nat | k < n :: rows[k].running == Expected(rows, k)
    ensures forall k: nat | k < n :: rows[k].running == PrefixSum(rows, k + 1)
  {
    if n > 0 {
      ChainedPrefix(rows, n - 1);
      if n > 1 {
        assert rows[n - 2].running == PrefixSum(rows, n - 1);
      }
      assert rows[n - 1].running == Expected(rows, n - 1);
    }
  }

  /** Following the row before is the same as being the prefix sum, so the auditor's chain test is complete. */
  lemma ChainedIffPrefixSum(rows: seq<LedgerRow>)
    ensures Chained(rows) <==> RunningIsPrefixSum(rows)
  {
    if Chained(rows) {
      ChainedPrefix(rows, |rows|);
    }
    if RunningIsPrefixSum(rows) {
      forall k: nat | k < |rows|
        ensures rows[k].running == Expected(rows, k)
      {
        var n: nat := k + 1;
        assert rows[k].running == PrefixSum(rows, n) == PrefixSum(rows, k) + rows[k].Delta();
        if k > 0 {
          var j: nat := k - 1;
          assert rows[j].running == PrefixSum(rows, k);
        }
      }
    }
  }

  lemma {:induction false} PrefixSumExtends(rows: seq<LedgerRow>, more: seq<LedgerRow>, n: nat)
    requires n <= |rows|
    ensures PrefixSum(rows + more, n) == PrefixSum(rows, n)
  {
    if n > 0 {
      PrefixSumExtends(rows, more, n - 1);
      assert (rows + more)[n - 1] == rows[n - 1];
    }
  }

  ghost predicate IsFunding(row: LedgerRow) {
    row.kind == Funding && row.direction == 1 && row.amount == SEED_BALANCE_PAISA && row.key == None
  }

  /** A user's account: funded by the first row, chained, ending at the balance, one row per version step. */
  ghost predicate AccountOk(b: Balance, rows: seq<LedgerRow>) {
    && b.version >= 0 && |rows| == b.version + 1
    && Chained(rows)
    && IsFunding(rows[0])
    && (forall k | 0 < k < |rows| :: rows[k].kind != Funding)
    && rows[|rows| - 1].running == b.amount
  }

  lemma AccountExtends(b: Balance, rows: seq<LedgerRow>, row: LedgerRow)
    requires AccountOk(b, rows)
    requires row.kind != Funding && row.running == b.amount + row.Delta()
    ensures AccountOk(Balance(row.running, b.version + 1), rows + [row])
  {
    var more := rows + [row];
    forall k: nat | k < |more|
      ensures more[k].running == Expected(more, k)
    {
      if k < |rows| {
        assert rows[k].running == Expected(rows, k) && more[k] == rows[k];
      } else {
        assert more[k - 1] == rows[k - 1];
      }
    }
    assert more[0] == rows[0];
  }

  /** The kind of history row that goes with a ledger row: the path that wrote both. */
  predicate SamePath(h: HistoryRow, r: LedgerRow) {
    match r.kind
    case Funding => h.kind == HistoryFunding && h.flow == Received
    case TransferSent => h.kind == HistoryTransfer && h.flow == Sent
    case TransferReceived => h.kind == HistoryTransfer && h.flow == Received
    case RequestPaid => h.kind == HistoryRequest
    case LinkPaid => h.kind == HistoryLink
  }

  /** A completed history row shows the same movement as a ledger row: for the same user, with the same
      counterparty, under the same reference, on the same path. */
  ghost predicate MirrorRow(h: HistoryRow, r: LedgerRow) {
    && h.status == Completed && h.user == r.user && h.amount == r.amount && h.balanceAfter == r.running
    && (h.flow == Sent <==> r.direction == -1) && h.entity == r.txn && h.key == r.key
    && h.counterparty == r.counterparty && h.reference == r.reference && SamePath(h, r)
  }

  ghost predicate Mirrors(hs: seq<HistoryRow>, rs: seq<LedgerRow>) {
    |hs| == |rs| && forall k | 0 <= k < |hs| :: MirrorRow(hs[k], rs[k])
  }
}
