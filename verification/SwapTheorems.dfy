/** The safety theorems over every run of the swap, and the runs that show where they end. */
module SwapTheorems {
  import opened Wrappers
  import opened Curve
  import opened Transactions
  import opened CoinProofs
  import opened SharedCoin
  import opened Stages
  import opened Builders
  import opened Contract
  import opened Endpoints
  import opened Bitcoin
  import Decimal
  import opened Tcp
  import opened SwapState
  import opened Locking
  import opened Execution
  import opened Swap
  import opened SwapSafety
  import opened SwapOrder

  // ---------------------------------------------------------------- funding

  /** Whether the node reports the push does not change what was said before. */
  lemma PushIrrelevant(a: MwSide, b: BtcSide, ha: seq<Msg>, hb: seq<Msg>)
    requires LockTalked(a, b, ha, hb)
    ensures LockTalked(a.(pushed := true), b, ha, hb)
  {
    hide BtcLine, ShareOpen, ShareClose, SpendRespond, Poll, LockPubScript, PointOf, Nth, AsKey, AsText, AsSlate,
         AsContext, Decimal.ParseI64, Decimal.Print;
  }

  /** The lock transaction and the output of it that Alice's slate refers to. */
  ghost predicate LockPays(a: MwSide, b: BtcSide, tx: BtcTx, m: MwLocked) {
    && LocksInput(b, PointOf(a.draws.sk), tx)
    && (GoodBtcEnv(b.e) && b.inputs[0].script == P2pkhScript(b.e, PointOf(b.inputs[0].secret)) ==>
          SpendsOutput(b.e, tx, 0, b.inputs[0].script))
    && m.lock == BtcInput(a.e.txid(tx), 0, a.start.btc.amount, a.draws.sk, PointOf(a.draws.sk), tx.outputs[0].script)
  }

  lemma FundingRests(a: MwSide, b: BtcSide, m: MwLocked)
    requires Paired(a, b) && MwLock(a.(pushed := true), LockTalk(a, b).0) == Ok(m)
    ensures FundCondition(b) && VerifyCondition(a)
    ensures BtcFund(b, LockTalk(a, b).1).Ok? && LockPays(a, b, BtcFund(b, LockTalk(a, b).1).value.tx, m)
    ensures LockAssumptions(a, b) ==> GrinCondition(a) && MwHolds(a, b, m)
  {
    hide MwVerify, BtcHear, MwShare, BtcShare, BtcTime, BtcFund, MwLock, LockTalk, LockTalked, LockScriptOf, PointOf,
         BtcLock,
         Fresh, TxValid, SpendsShared, AllOpen, GoodEnv, InpSecrets, SharedSecrets, Fundable, Shows, Commit, ProofFresh,
         Paid, ChangeRight, Owns, SpendsOutput, P2pkhScript, GoodBtcEnv, Sum;
    var a' := a.(pushed := true);
    var ha, hb := LockTalk(a, b).0, LockTalk(a, b).1;
    LockConversation(a, b);
    PushIrrelevant(a, b, ha, hb);
    VerifyStage(a', b, ha, hb);
    LockParts(a', b, ha, hb);
    if GoodBtcEnv(b.e) && b.inputs[0].script == P2pkhScript(b.e, PointOf(b.inputs[0].secret)) {
      FundSpendsInput(b, hb);
    }
    if LockAssumptions(a, b) {
      GrinStage(a', b, ha, hb);
    }
  }

  /** Publish-order safety of the funding transaction, in every run: whenever it has been pushed, Bob's lock
      transaction had been published before, spends the one input he gave, pays the agreed amount to the lock script
      both parties computed, Alice's node had shown exactly that amount, and she held a valid refund spending the
      shared coin, locked at the lock time of her public slate. */
  lemma FundingSafe(ws: seq<World>, k: nat, i: nat)
    requires History(ws) && k < |ws| && i < |ws[k].log| && ws[k].log[i].GrinFunded?
    ensures var GrinFunded(a, b, m) := ws[k].log[i];
            && VerifyCondition(a)
            && (exists tx :: BitcoinLocked(b, tx) in ws[k].log[..i] && LockPays(a, b, tx, m))
            && (LockAssumptions(a, b) ==> GrinCondition(a) && MwHolds(a, b, m))
  {
    hide WorldInv, KeysInv, LockedFirst, Step, Initial, MwLock, LockTalk, BtcFund, VerifyCondition, LockPays,
         LockAssumptions, GrinCondition, MwHolds;
    HistoryOrder(ws, k);
    var GrinFunded(a, b, m) := ws[k].log[i];
    assert Grounded(ws[k], ws[k].log[i], ws[k].log[..i]);
    FundingRests(a, b, m);
  }

  // ---------------------------------------------------------------- the contract

  lemma KeysOfDeal(w: World)
    requires OrderInv(w) && w.mw.keys.Some? && w.btc.keys.Some?
    ensures w.deal.Some?
    ensures LockAssumptions(w.deal.value.0, w.deal.value.1) ==>
              LockedSwap(w.deal.value.0, w.deal.value.1, w.mw.keys.value, w.btc.keys.value)
  {
    hide MwLock, LockTalk, BtcLock, LockAssumptions, LocksMatch, MwHolds, LockCondition, SessionInv, LockedFirst,
         Grounded;
    var (a, b) := w.deal.value;
    if LockAssumptions(a, b) {
      LockTalkExact(a, b);
    }
  }

  lemma ContractRests(a: MwSide, b: BtcSide, x: MwExec, y: BtcExec)
    requires LockedSwap(a, b, x.slate, y.slate) && ExecAssumptions(a, x.slate, y.slate, x, y)
    requires BtcExecute(y.(pushed := true), ExecTalk(x, y).1).Ok?
    ensures MwReveal(x, ExecTalk(x, y).0) == Ok(Mod(b.draws.x))
    ensures x.slate.pub.btc.pubX == Some(PointOf(b.draws.x))
    ensures Payout(a.env, a.start.mw.amount) > 0
    ensures PaysContract(a.env, Payout(a.env, a.start.mw.amount), x.slate.shared,
                         BtcExecute(y.(pushed := true), ExecTalk(x, y).1).value.contract, y.recv)
    ensures Owns(a.env, BtcExecute(y.(pushed := true), ExecTalk(x, y).1).value.contract,
                 BtcExecute(y.(pushed := true), ExecTalk(x, y).1).value.swapped, Payout(a.env, a.start.mw.amount))
  {
    hide Mod, PointOf, ExecTalked, ContractRun, Talk, MwExecProgram, BtcExecProgram, LockedSwap, ExecAssumptions,
         PaysContract, MwReveal, Owns, CheckTime, ContractRespond, ContractFinish;
    ContractOfLocked(a, b, x.slate, y.slate, x, y);
    ExecConversation(x, y);
    assert x.env == y.env by { SameEnv(a, x, y); }
    ContractStage(x, y, ExecTalk(x, y).0, ExecTalk(x, y).1, PointOf(b.draws.x));
  }

  lemma SameEnv(a: MwSide, x: MwExec, y: BtcExec)
    requires ExecAssumptions(a, x.slate, y.slate, x, y)
    ensures x.env == y.env == a.env && x.e == y.e == a.e && GoodBtcEnv(a.e)
  {
  }

  /** Publish-order safety of the contract transaction, in every run: whenever Bob has pushed it, Alice's process
      had already received all it takes to extract the logarithm of pub_x, the transaction is valid, and the coin Bob
      keeps opens what it pays him. */
  lemma ContractSafe(ws: seq<World>, k: nat, i: nat)
    requires History(ws) && k < |ws| && i < |ws[k].log| && ws[k].log[i].Contracted?
    requires ws[k].deal.Some? && LockAssumptions(ws[k].deal.value.0, ws[k].deal.value.1)
    requires ExecAssumptions(ws[k].deal.value.0, ws[k].log[i].x.slate, ws[k].log[i].y.slate, ws[k].log[i].x,
                             ws[k].log[i].y)
    ensures var (a, b) := ws[k].deal.value;
            var Contracted(x, y, tx, payout, has) := ws[k].log[i];
            && MwReveal(x, has) == Ok(Mod(b.draws.x))
            && x.slate.pub.btc.pubX == Some(PointOf(b.draws.x))
            && Payout(a.env, a.start.mw.amount) > 0
            && PaysContract(a.env, Payout(a.env, a.start.mw.amount), x.slate.shared, tx, y.recv)
            && Owns(a.env, tx, payout, Payout(a.env, a.start.mw.amount))
  {
    hide WorldInv, KeysInv, LockedFirst, Step, Initial, LockAssumptions, ExecAssumptions, LockedSwap, PaysContract,
         Owns, MwReveal, BtcExecute, ExecTalk, Mod, PointOf;
    HistoryOrder(ws, k);
    assert Grounded(ws[k], ws[k].log[i], ws[k].log[..i]);
    KeysOfDeal(ws[k]);
    var (a, b) := ws[k].deal.value;
    ContractRests(a, b, ws[k].log[i].x, ws[k].log[i].y);
  }

  lemma RedeemRests(a: MwSide, b: BtcSide, x: MwExec, y: BtcExec)
    requires LockedSwap(a, b, x.slate, y.slate) && ExecAssumptions(a, x.slate, y.slate, x, y)
    requires MwExecute(x.(sent := true), ExecTalk(x, y).0).Ok?
    ensures var f := MwExecute(x.(sent := true), ExecTalk(x, y).0).value;
            RedeemsLock(x, y.slate, f.redeem, f.swapped)
  {
    hide Mod, PointOf, ExecTalked, ContractRun, Talk, MwExecProgram, BtcExecProgram, PaysContract, TimeLeft, MwReveal,
         MwSign, RedeemTx, BtcFinish, BtcRespond,
         LockedSwap, ExecAssumptions, RedeemsLock;
    ContractOfLocked(a, b, x.slate, y.slate, x, y);
    ExecConversation(x, y);
    SameEnv(a, x, y);
    KeyOfLocked(a, b, x.slate, y.slate);
    ContractStage(x, y, ExecTalk(x, y).0, ExecTalk(x, y).1, PointOf(b.draws.x));
    RedeemStage(a, b, x.slate, y.slate, x, Mod(b.draws.x));
    SentUnsaid(x, ExecTalk(x, y).0, Mod(b.draws.x));
  }

  lemma SentUnsaid(x: MwExec, h: seq<Msg>, w: Scalar)
    ensures MwReveal(x.(sent := true), h) == MwReveal(x, h) && RedeemTx(x.(sent := true), w) == RedeemTx(x, w)
  {
    hide CheckTime, ContractSign, ContractRead, DealSpend, AsSlate, SpendLockTx, LockProgram, RedeemData, PointOf;
  }

  lemma KeyOfLocked(a: MwSide, b: BtcSide, m: MwLocked, n: BtcLocked)
    requires LockedSwap(a, b, m, n)
    ensures m.sk == a.draws.sk && LocksMatch(a, b, m, n) && Paired(a, b)
  {
    hide LocksMatch;
  }

  /** In every run, whatever Alice publishes as her redeem spends the output Bob funded, meets its script and pays the
      coin she keeps for it. */
  lemma RedeemSafe(ws: seq<World>, k: nat, i: nat)
    requires History(ws) && k < |ws| && i < |ws[k].log| && ws[k].log[i].Redeemed?
    requires ws[k].deal.Some? && LockAssumptions(ws[k].deal.value.0, ws[k].deal.value.1)
    requires ExecAssumptions(ws[k].deal.value.0, ws[k].log[i].x.slate, ws[k].log[i].y.slate, ws[k].log[i].x,
                             ws[k].log[i].y)
    ensures RedeemsLock(ws[k].log[i].x, ws[k].log[i].y.slate, ws[k].log[i].tx, ws[k].log[i].coin)
  {
    hide WorldInv, KeysInv, LockedFirst, Step, Initial, LockAssumptions, ExecAssumptions, LockedSwap, RedeemsLock,
         MwExecute, ExecTalk;
    HistoryOrder(ws, k);
    assert Grounded(ws[k], ws[k].log[i], ws[k].log[..i]);
    KeysOfDeal(ws[k]);
    RedeemRests(ws[k].deal.value.0, ws[k].deal.value.1, ws[k].log[i].x, ws[k].log[i].y);
  }

  // ---------------------------------------------------------------- refunds

  /** In every run, a published refund is final at the heights it was published at: Alice's spends the shared coin
      and pays it back to her, Bob's spends the lock output to his fresh key, meeting its script exactly when the lock
      time is positive; each keeps the coin that opens what it was paid. */
  lemma RefundSafe(ws: seq<World>, k: nat, i: nat)
    requires History(ws) && k < |ws| && i < |ws[k].log|
    requires ws[k].deal.Some? && LockAssumptions(ws[k].deal.value.0, ws[k].deal.value.1) && GoodBtcEnv(ws[k].e)
    ensures ws[k].log[i].GrinRefunded? ==>
              var (a, b) := ws[k].deal.value;
              var fund, time := a.start.mw.amount - a.env.txFee(1, 1, 1), a.height + a.start.mw.timelock;
              && ws[k].mw.keys.Some? && fund > 0
              && SpendsShared(a.env, ws[k].mw.keys.value.shared, fund, time, ws[k].log[i].refund, a.draws.refund)
              && Owns(a.env, ws[k].log[i].refund, ws[k].mw.keys.value.refundCoin, fund)
              && time < ws[k].log[i].grin
    ensures ws[k].log[i].BitcoinRefunded? ==>
              var (a, b) := ws[k].deal.value;
              && ws[k].btc.keys.Some?
              && var BitcoinRefunded(_, bitcoin, sk2, tx, coin) := ws[k].log[i];
                 RefundsLock(a.e, b, ws[k].btc.keys.value, sk2, tx, coin) && tx.lockTime < bitcoin
  {
    hide SessionInv, KeysInv, LockedFirst, Step, Initial, LockAssumptions, LockedSwap, BtcRefundPhase, CheckRefund,
         SpendsShared, SpendsOutput, GoodBtcEnv, Owns, Records;
    var w := ws[k];
    HistoryOrder(ws, k);
    assert Grounded(w, w.log[i], w.log[..i]);
    if w.log[i].GrinRefunded? || w.log[i].BitcoinRefunded? {
      KeysOfDeal(w);
      var (a, b) := w.deal.value;
      var sk2 := if w.log[i].BitcoinRefunded? then w.log[i].sk2 else 0;
      var c := BtcRefunder(w.e, w.btc.keys.value, sk2, w.log[i].grin, w.log[i].bitcoin, true);
      RefundExact(a, b, w.mw.keys.value, w.btc.keys.value, w.log[i].grin, w.log[i].bitcoin, true, c);
      if w.log[i].GrinRefunded? {
        RefundPhaseTx(w.mw.keys.value, w.log[i].grin, w.log[i].bitcoin);
      }
    }
  }

  lemma RefundPhaseTx(m: MwLocked, grin: nat, bitcoin: nat)
    requires CheckRefund(m.pub, grin, bitcoin).Ok?
    ensures MwRefundPhase(m, grin, bitcoin, true).Ok? && MwRefundPhase(m, grin, bitcoin, true).value.tx == m.refundTx
  {
    hide CheckRefund;
  }
}
