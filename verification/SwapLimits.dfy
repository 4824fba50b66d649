/** Where the guarantees end: what a party holds only in memory, and the runs that lose it. */
module SwapLimits {
  import opened Wrappers
  import opened Curve
  import opened Endpoints
  import opened Tcp
  import opened SwapState
  import opened Locking
  import opened Execution
  import opened Swap
  import opened SwapSafety
  import opened SwapOrder
  import opened SwapRuns

  // ---------------------------------------------------------------- the refund in memory

  /** Alice has this refund: on disk, or in a process that has published and not yet written. */
  ghost predicate HoldsRefund(w: World, m: MwLocked) {
    || w.mw.keys == Some(m)
    || (w.session.LockSession? && w.mwLife.Published? && MwLock(w.session.a, w.net.a.inbox) == Ok(m))
  }

  /** She loses it exactly by her process stopping after the push and before the write. */
  lemma RefundKept(w: World, w': World, m: MwLocked)
    requires WorldInv(w) && Step(w, w') && HoldsRefund(w, m)
    ensures HoldsRefund(w', m) <==> !(w.session.LockSession? && w.mwLife.Published? && StopMw(w, w'))
  {
    hide Inv, MwLockProgram, BtcLockProgram, MwExecProgram, BtcExecProgram, MwLock, MwExecute, BtcLock, BtcExecute,
         Init,
         AgreedSlate, MwRefundPhase, BtcRefundPhase, BtcFund, CheckTime, Advance;
    KeysStay(w, w');
    MovesApart(w.net);
  }

  /** So in every run in which her process gets to write, she holds it from the push on. */
  lemma {:induction false} RefundHeld(ws: seq<World>, j: nat, k: nat, m: MwLocked)
    requires History(ws) && j <= k < |ws| && HoldsRefund(ws[j], m)
    requires forall l :: j <= l < k ==>
               !(ws[l].session.LockSession? && ws[l].mwLife.Published? && ws[l + 1] == ws[l].(mwLife := Gone))
    ensures HoldsRefund(ws[k], m)
  {
    hide Step, Initial, WorldInv, HoldsRefund;
    if j < k {
      RefundHeld(ws, j, k - 1, m);
      HistoryInv(ws, k - 1);
      assert Step(ws[k - 1], ws[k - 1 + 1]);
      RefundKept(ws[k - 1], ws[k], m);
    }
  }

  lemma MovesApart(n: Net<Msg>)
    ensures MoveB(n, 0).Some? ==> MoveB(n, 0).value.a == n.a
    ensures MoveA(n, 0).Some? ==> MoveA(n, 0).value.b == n.b
  {
  }

  /** For every pair of parties that would complete the setup, one crash is enough: Alice's funding transaction is
      out, Bob has written his slate, no process is left, and her refund is neither on disk nor in memory. As the
      files now differ, no run that goes on from here ever publishes anything again. */
  lemma RefundLost(w: World, a: MwSide, b: BtcSide) returns (ws: seq<World>, m: MwLocked)
    requires FitWorld(w, a, b) && LockAssumptions(a, b) && LockCondition(a, b)
    ensures History(ws)
    ensures var v := ws[|ws| - 1];
            && GrinFunded(a, b, m) in v.log && MwHolds(a, b, m)
            && v.mw.keys.None? && !HoldsRefund(v, m)
            && Free(v) && v.mw.pub != v.btc.pub
  {
    hide MwLockProgram, BtcLockProgram, LockTalk, MwLock, BtcLock, Step, Talking, LockAssumptions, LockCondition,
         MwHolds,
         LocksMatch, AgreedSlate, PointOf;
    assert Paired(a, b) by { Assumed(a, b); }
    ws := SetupRun(w, a, b);
    var v := ws[|ws| - 1];
    LockTalkExact(a, b);
    m := Completes(a, b);
    var v1 := v.(btcLife := Gone, btc := BtcResult(v).value);
    assert WriteBtc(v, v1);
    ws := Extended(ws, v1);
    var v2 := v1.(mwLife := After(a.pushed), log := v1.log + [GrinFunded(a, b, m)]);
    assert PublishFunding(v1, v2);
    ws := Extended(ws, v2);
    var v3 := v2.(mwLife := Gone);
    assert StopMw(v2, v3);
    ws := Extended(ws, v3);
    HistoryInv(ws, |ws| - 1);
  }

  // ---------------------------------------------------------------- the witness in memory

  ghost predicate HasRedeemed(w: World, x: MwExec, y: BtcExec) { exists tx, coin :: Redeemed(x, y, tx, coin) in w.log }

  /** Alice can use the witness of this execution: her redeem is out, or her process has heard what yields it. */
  ghost predicate HoldsWitness(w: World, x: MwExec, y: BtcExec) {
    || HasRedeemed(w, x, y)
    || (w.session == ExecSession(x, y) && w.mwLife.Alive? && Done(w.net.a) && MwReveal(x, w.net.a.inbox).Ok?)
  }

  /** She loses it exactly by her process stopping after she has received the last slate and before her redeem is
      published. */
  lemma WitnessKept(w: World, w': World, x: MwExec, y: BtcExec)
    requires Step(w, w') && HoldsWitness(w, x, y)
    ensures HoldsWitness(w', x, y) <==> !(!HasRedeemed(w, x, y) && StopMw(w, w'))
  {
    hide Step, HasRedeemed, MwReveal, MwExecute;
    LogGrows(w, w');
    assert HasRedeemed(w, x, y) ==> HasRedeemed(w', x, y) by { RedeemedStays(w, w', x, y); }
    if !HasRedeemed(w, x, y) {
      AliceAtEnd(w, w');
      assert StopMw(w, w') ==> !HasRedeemed(w', x, y) by { SameLog(w, w', x, y); }
      if w'.mwLife.Published? || (w'.mwLife.Gone? && !StopMw(w, w')) {
        assert PublishRedeem(w, w');
        RedeemLogged(w, w');
      }
    }
  }

  lemma RedeemedStays(w: World, w': World, x: MwExec, y: BtcExec)
    requires w.log <= w'.log
    ensures HasRedeemed(w, x, y) ==> HasRedeemed(w', x, y)
  {
    if tx, coin :| Redeemed(x, y, tx, coin) in w.log {
      assert Redeemed(x, y, tx, coin) in w'.log;
    }
  }

  lemma SameLog(w: World, w': World, x: MwExec, y: BtcExec)
    ensures w'.log == w.log ==> (HasRedeemed(w, x, y) <==> HasRedeemed(w', x, y))
  {
  }

  lemma RedeemLogged(w: World, w': World)
    requires PublishRedeem(w, w')
    ensures HasRedeemed(w', w.session.x, w.session.y)
  {
    hide MwExecute;
    assert w'.log[|w.log|].Redeemed?;
    assert Redeemed(w.session.x, w.session.y, w'.log[|w.log|].tx, w'.log[|w.log|].coin) in w'.log;
  }

  /** What can happen to a process that has heard everything. */
  lemma AliceAtEnd(w: World, w': World)
    requires Step(w, w') && w.session.ExecSession? && w.mwLife.Alive? && Done(w.net.a)
    ensures w'.session == w.session && w'.net.a == w.net.a
    ensures w'.mwLife.Alive? || StopMw(w, w') || PublishRedeem(w, w')
    ensures StopMw(w, w') ==> w'.log == w.log
  {
    hide MwLockProgram, BtcLockProgram, MwExecProgram, BtcExecProgram, MwLock, MwExecute, BtcLock, BtcExecute, Init,
         MwRefundPhase, BtcRefundPhase, BtcFund, CheckTime;
  }

  /** The swap is not atomic under a crash. For every pair of parties there is a run in which Bob's contract is out
      and his file says FINISHED, while Alice stopped before redeeming: she had heard the witness, it is lost, and as
      the files differ nothing is ever redeemed or refunded again. */
  lemma WitnessLost(w: World, a: MwSide, b: BtcSide, x: MwExec, y: BtcExec) returns (ws: seq<World>)
    requires Executable(w, a, b, x, y) && y.pushed
    ensures History(ws)
    ensures var u := ws[|ws| - 1];
            && Free(u) && u.btc.pub.status == FINISHED && u.mw.pub != u.btc.pub
            && |u.log| > 0 && u.log[|u.log| - 1].Contracted? && !HoldsWitness(u, x, y)
    ensures |ws| > 1 && HoldsWitness(ws[|ws| - 2], x, y)
  {
    hide Executable, Step, Initial, BtcExecute, MwExecute, MwReveal, History, HasRedeemed;
    ws := ContractOut(w, a, b, x, y);
    assert y.(pushed := true) == y;
    var u := ws[|ws| - 1];
    BtcExecPub(y, u.net.b.inbox);
    var u1 := u.(btcLife := Gone, btc := BtcResult(u).value);
    assert WriteBtc(u, u1);
    ws := Extended(ws, u1);
    assert HoldsWitness(u1, x, y);
    var u2 := u1.(mwLife := Gone);
    assert StopMw(u1, u2);
    ws := Extended(ws, u2);
    NotRedeemed(u2, x, y);
  }

  lemma NotRedeemed(w: World, x: MwExec, y: BtcExec)
    requires NothingRedeemed(w)
    ensures !HasRedeemed(w, x, y)
  {
  }

  /** The good end: for every pair of parties that meets the conditions of setup and execution there is a run in
      which both files end up FINISHED and equal, with the contract and the redeem published. */
  lemma SwapCompletes(w: World, a: MwSide, b: BtcSide, x: MwExec, y: BtcExec) returns (ws: seq<World>)
    requires Executable(w, a, b, x, y) && x.sent && y.pushed && a.start.btc.amount >= 500
    ensures History(ws)
    ensures var u := ws[|ws| - 1];
            && u.mw.pub == u.btc.pub && u.mw.pub.status == FINISHED
            && |u.log| > 1 && u.log[|u.log| - 2].Contracted? && u.log[|u.log| - 1].Redeemed?
  {
    hide Executable, Step, Initial, BtcExecute, MwExecute, MwReveal, History, NothingRedeemed;
    ws := ContractOut(w, a, b, x, y);
    assert y.(pushed := true) == y && x.(sent := true) == x;
    var u := ws[|ws| - 1];
    BtcExecPub(y, u.net.b.inbox);
    MwExecPub(x, u.net.a.inbox);
    var u1 := u.(btcLife := Gone, btc := BtcResult(u).value);
    assert WriteBtc(u, u1);
    ws := Extended(ws, u1);
    var f := MwExecute(x, u1.net.a.inbox).value;
    var u2 := u1.(mwLife := Published, log := u1.log + [Redeemed(x, y, f.redeem, f.swapped)]);
    assert PublishRedeem(u1, u2);
    ws := Extended(ws, u2);
    var u3 := u2.(mwLife := Gone, mw := MwResult(u2).value);
    assert WriteMw(u2, u3);
    ws := Extended(ws, u3);
  }
}
