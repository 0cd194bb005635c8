/**
  The unlocked lazy expiry of `get_link_by_token` against a claim. The money is safe - a link pays at most
  once whatever races - but the status `claimed` is not terminal: a viewer that read the link while it was
  active, and past its expiry, overwrites the claim. That is the only way it is ever lost.
*/
module LinkRace {
  import opened Model
  import opened Books
  import opened Invariants
  import opened Transactions
  import opened Locking
  import opened Simulation
  import opened Outcomes
  import opened Schedules

  /** A viewer of link `l` that read it active and lapsed, and has yet to write. */
  predicate StaleViewer(x: Txn, l: LinkId) {
    x.pc == Stale && x.op == ViewLinkOp(l)
  }

  ghost predicate AnyStaleViewer(s: Sys, l: LinkId) {
    exists i :: 0 <= i < |s.txns| && StaleViewer(s.txns[i], l)
  }

  /** While a link is claimed no transaction holds its row lock, so a stale viewer can always write. */
  lemma ClaimedIsUnlocked(t: Tables, x: Txn, i: nat, l: LinkId)
    requires TxnOk(t, x, i) && IsClaimed(t, l)
    ensures LinkRow(l) !in Holds(x)
  {
  }

  /** The only transaction that commits a write to a claimed link is a stale viewer. */
  lemma ClaimWriter(t: Tables, x: Txn, i: nat, now: Time, l: LinkId)
    requires TxnOk(t, x, i) && i !in t.transfers && IsClaimed(t, l) && Statement(t, x, i, now).Emit?
    ensures LinkRow(l) in Touches(Statement(t, x, i, now).event) ==> StaleViewer(x, l)
  {
    ClaimedIsUnlocked(t, x, i, l);
    EmitsAllowed(t, x, i, now);
  }

  /** No statement makes a stale viewer of a claimed link. */
  lemma NoNewViewer(t: Tables, x: Txn, i: nat, now: Time, l: LinkId)
    requires IsClaimed(t, l) && !StaleViewer(x, l)
    ensures !StaleViewer(Statement(t, x, i, now).next, l)
  {
  }

  lemma StatementKeepsClaim(t: Tables, x: Txn, i: nat, now: Time, l: LinkId)
    requires TxnOk(t, x, i) && i !in t.transfers && IsClaimed(t, l) && !StaleViewer(x, l)
    requires Statement(t, x, i, now).Emit? && TablesAllow(t, Statement(t, x, i, now).event)
    ensures var t' := ApplyTables(t, Statement(t, x, i, now).event); l in t'.links && t'.links[l] == t.links[l]
  {
    ClaimWriter(t, x, i, now, l);
    EventFrame(t, Statement(t, x, i, now).event, {LinkRow(l)});
  }

  lemma ActKeepsClaim(s: Sys, act: Act, l: LinkId)
    requires LockInv(s) && Can(s, act) && IsClaimed(s.t, l) && !AnyStaleViewer(s, l)
    ensures IsClaimed(Next(s, act).t, l) && Next(s, act).t.links[l] == s.t.links[l]
    ensures !AnyStaleViewer(Next(s, act), l)
  {
    var s' := Next(s, act);
    if act.Step? {
      StepAllowed(s, act.i, act.now);
      assert !StaleViewer(s.txns[act.i], l);
      assert act.i !in s.t.transfers;
      NoNewViewer(s.t, s.txns[act.i], act.i, act.now, l);
      if Statement(s.t, s.txns[act.i], act.i, act.now).Emit? {
        StatementKeepsClaim(s.t, s.txns[act.i], act.i, act.now, l);
      }
    }
    forall j | 0 <= j < |s'.txns|
      ensures !StaleViewer(s'.txns[j], l)
    {
      if j < |s.txns| { assert !StaleViewer(s.txns[j], l); }
    }
  }

  /** Without a stale viewer in flight, a claimed link keeps its row in every continuation. */
  lemma {:induction false} ClaimHolds(s: Sys, acts: seq<Act>, l: LinkId)
    requires LockInv(s) && CanRun(s, acts) && IsClaimed(s.t, l) && !AnyStaleViewer(s, l)
    ensures l in Run(s, acts).t.links && Run(s, acts).t.links[l] == s.t.links[l]
    decreases |acts|
  {
    if acts != [] {
      LockInvKept(s, acts[0]);
      ActKeepsClaim(s, acts[0], l);
      ClaimHolds(Next(s, acts[0]), acts[1..], l);
    }
  }

  /** A stale viewer in flight can overwrite the claim at once; claimer and transfer stay. */
  lemma ClaimOverwritten(s: Sys, l: LinkId, i: nat)
    requires LockInv(s) && IsClaimed(s.t, l) && i < |s.txns| && StaleViewer(s.txns[i], l)
    ensures Can(s, Step(i, 0))
    ensures Next(s, Step(i, 0)).t == s.t.(links := s.t.links[l := s.t.links[l].(status := Expired)])
  {
    forall j | 0 <= j < |s.txns| && j != i
      ensures LinkRow(l) !in Holds(s.txns[j])
    {
      ClaimedIsUnlocked(s.t, s.txns[j], j, l);
    }
    assert TxnOk(s.t, s.txns[i], i);
  }

  ghost predicate CanLose(s: Sys, l: LinkId) {
    exists acts :: CanRun(s, acts) && !IsClaimed(Run(s, acts).t, l)
  }

  /** `claimed` is terminal exactly when no viewer that read the link active and lapsed is still in flight. */
  lemma ClaimedIsTerminalIff(s: Sys, l: LinkId)
    requires LockInv(s) && IsClaimed(s.t, l)
    ensures CanLose(s, l) <==> AnyStaleViewer(s, l)
  {
    if AnyStaleViewer(s, l) {
      var i: nat :| i < |s.txns| && StaleViewer(s.txns[i], l);
      ClaimOverwritten(s, l, i);
      var acts := [Step(i, 0)];
      RunOne(s, Step(i, 0));
      assert CanRun(s, acts) && !IsClaimed(Run(s, acts).t, l);
    } else {
      forall acts | CanRun(s, acts)
        ensures IsClaimed(Run(s, acts).t, l)
      {
        ClaimHolds(s, acts, l);
      }
    }
  }

  /** In every interleaving a link pays at most once, never returns to active, and writes its claimer and
      transfer together, once, from active - the race included. */
  lemma LinkSafe(s: Sys, acts: seq<Act>, l: LinkId)
    requires Reachable(s) && CanRun(s, acts) && l in s.t.links
    ensures l in Run(s, acts).t.links && G.LinkMoves(s.t.links[l], Run(s, acts).t.links[l])
    ensures G.PaymentsThrough(LogOf(s, acts), l) + (if G.HasPaid(s.t, l) then 1 else 0)
            == if G.HasPaid(Run(s, acts).t, l) then 1 else 0
  {
    var b, log := BooksOf(s);
    Refinement(s, b, acts);
    assert LinkOk(b.t, b.t.links[l]);
    G.LinkPaysOnce(b, LogOf(s, acts), l);
  }

  // ---------- a run that loses a claim ----------

  /** Two users, and a link of user 1 over 100 paisa that expires at time 50. */
  const LinkOffered := TwoUsers.(links := map[7 := Link(1, 100, Active, None, None, 50)])

  lemma Offered() returns (s: Sys)
    ensures By(Boot, s, 0) && Unlocked(s) && s.t == LinkOffered && |s.txns| == 3
  {
    s := TwoRegistered();
    QuietUnlocked(s);
    s := BeginAlone(Boot, s, MakeLinkOp(7, 1, 100, 50), 0);
    s := StepAlone(Boot, s, 2, 0);
    assert s.t.links == map[7 := Link(1, 100, Active, None, None, 50)];
  }

  /** A claim decided at time 50 that has done everything but commit. */
  lemma ClaimNearlyDone(s: Sys) returns (s': Sys)
    requires By(Boot, s, 50) && Unlocked(s) && s.t == LinkOffered
    ensures By(Boot, s', 50) && s'.t == s.t && |s'.txns| == |s.txns| + 1
    ensures var x := s'.txns[|s.txns|];
            x.pc == ReceivedIn && x.pay == Payment(ByLink(7, 50), 1, 2, 100, |s.txns|, 0, 9)
  {
    s' := BeginAlone(Boot, s, ClaimOp(2, 7, 9, 0), 50);
    s' := StepAlone(Boot, s', |s.txns|, 50);
    s' := PaymentNearlyDone(Boot, s', |s.txns|, 50);
  }

  /** A viewer reads the link before the claim commits. */
  lemma ViewerReads(s: Sys, i: nat) returns (s': Sys)
    requires By(Boot, s, 51) && s.t == LinkOffered && i < |s.txns|
    ensures By(Boot, s', 51) && s'.t == s.t && |s'.txns| == |s.txns| + 1
    ensures s'.txns[i] == s.txns[i] && StaleViewer(s'.txns[|s.txns|], 7)
  {
    var j := |s.txns|;
    var viewing := Next(s, Begin(ViewLinkOp(7), 51));
    ByNext(Boot, s, Begin(ViewLinkOp(7), 51), 51);
    s' := Next(viewing, Step(j, 51));
    ByNext(Boot, viewing, Step(j, 51), 51);
  }

  /** The claim commits between the viewer's read and its write. */
  lemma ViewerGetsInBetween(s: Sys, i: nat) returns (s': Sys)
    requires By(Boot, s, 51) && s.t == LinkOffered && i < |s.txns|
    requires s.txns[i].pc == ReceivedIn && s.txns[i].pay == Payment(ByLink(7, 50), 1, 2, 100, i, 0, 9)
    ensures By(Boot, s', 51) && IsClaimed(s'.t, 7) && AnyStaleViewer(s', 7)
  {
    var stale := ViewerReads(s, i);
    s' := Next(stale, Step(i, 51));
    ByNext(Boot, stale, Step(i, 51), 51);
    assert StaleViewer(s'.txns[|s.txns|], 7);
  }

  /** The race is reachable: a claim decided at time 50, on the expiry, and a viewer at 51. The link ends
      expired although its money has moved. */
  lemma ClaimedIsNotTerminal()
    ensures exists s :: By(Boot, s, 51) && Reachable(s) && IsClaimed(s.t, 7) && CanLose(s, 7)
  {
    var s := Offered();
    ByWaits(Boot, s, 0, 50);
    s := ClaimNearlyDone(s);
    ByWaits(Boot, s, 50, 51);
    s := ViewerGetsInBetween(s, 3);
    ByLater(Boot, s, 51);
    var b, log := BooksOf(s);
    ClaimedIsTerminalIff(s, 7);
  }
}
