/** The execution and refund phases of a locked swap, and the end-to-end results over lock and execution. */
module Execution {
  import opened Wrappers
  import opened Curve
  import opened Transactions
  import opened Slates
  import opened Wire
  import opened Coins
  import opened CoinProofs
  import opened Stages
  import opened Builders
  import opened Contract
  import opened Endpoints
  import opened Bitcoin
  import opened Tcp
  import opened SwapState
  import opened Locking

  /** The two lock heights of a slate, which are unsigned once written. */
  function LockTimes(s: PubSlate): Result<(nat, nat)> {
    if s.mw.lockTime.None? || s.btc.lockTime.None? then Err(MissingLockTime)
    else if s.mw.lockTime.value < 0 || s.btc.lockTime.value < 0 then Err(Overflow)
    else Ok((s.mw.lockTime.value, s.btc.lockTime.value))
  }

  function CheckTime(s: PubSlate, grin: nat, btc: nat): Result<()> {
    var (lockGrin, lockBtc) :- LockTimes(s);
    if EnoughTime(lockGrin, lockBtc, grin, btc) then Ok(()) else Err(NotEnoughTime)
  }

  // ---------------------------------------------------------------- execution, Mimblewimble side

  datatype MwExec = MwExec(env: Env, e: BtcEnv, slate: MwLocked, spend: SpendRandom, sk2: int, grin: nat, btc: nat,
                           sent: bool)

  datatype MwFinished = MwFinished(pub: PubSlate, x: Scalar, redeem: BtcTx, swapped: BtcInput)

  function MwStart(c: MwExec): Result<SpendResult> {
    var _ :- CheckTime(c.slate.pub, c.grin, c.btc);
    var value, fee := c.slate.shared.value, c.env.txFee(1, 1, 1);
    if value < fee then Err(Overflow)
    else DealSpend(c.env, Deal([c.slate.shared], value - fee, 0, 1, 3), c.spend)
  }

  function MwSign(c: MwExec, h: seq<Msg>): Result<Countersigned> {
    var sp :- MwStart(c);
    if c.slate.pub.btc.pubX.None? then Err(BadKey) else
    var s :- AsSlate(c.env, Nth(h, 0));
    ContractSign(c.env, sp, s, c.slate.pub.btc.pubX.value)
  }

  function MwReveal(c: MwExec, h: seq<Msg>): Result<Scalar> {
    var k :- MwSign(c, h);
    var s :- AsSlate(c.env, Nth(h, 1));
    ContractRead(s, k.adapted)
  }

  /** The redeem transaction Alice builds from her slate and the extracted witness. */
  function RedeemTx(c: MwExec, x: Scalar): Result<BtcTx> {
    var p := c.slate.pub.btc;
    if p.pubA.None? || p.pubB.None? || p.pubX.None? || p.lockTime.None? then Err(BadKey) else
    var tx :- SpendLockTx(c.e, PointOf(c.sk2), c.slate.lock, p.amount, BTC_FEE, 0);
    var script := LockProgram(c.e, p.pubA.value, p.pubX.value, p.pubB.value, p.lockTime.value);
    Ok(WithScript(tx, 0, RedeemData(c.e, tx, 0, script, c.slate.sk, x)))
  }

  /** The coin Alice keeps for a redeem. */
  function RedeemedCoin(c: MwExec, tx: BtcTx): BtcInput
    requires |tx.outputs| > 0
  {
    BtcInput(c.e.txid(tx), 0, tx.outputs[0].value, c.sk2, PointOf(c.sk2), tx.outputs[0].script)
  }

  function MwExecute(c: MwExec, h: seq<Msg>): Result<MwFinished> {
    var x :- MwReveal(c, h);
    var tx :- RedeemTx(c, x);
    if |tx.outputs| == 0 then Err(IndexOutOfBounds)
    else if !c.sent then Err(NodeFailure)
    else Ok(MwFinished(c.slate.pub.(status := FINISHED), x, tx, RedeemedCoin(c, tx)))
  }

  function MwExecLine(c: MwExec, k: nat, h: seq<Msg>): Msg {
    if k == 0 then var sp := MwStart(c); if sp.Ok? then SlateLine(sp.value.slate) else Closed
    else var s := MwSign(c, h); if s.Ok? then SlateLine(s.value.slate) else Closed
  }

  function MwExecProgram(c: MwExec): seq<Action<Msg>> {
    [ Send(h => MwExecLine(c, 0, h)), Recv, Send(h => MwExecLine(c, 2, h)), Recv ]
  }

  // ---------------------------------------------------------------- execution, Bitcoin side

  datatype BtcExec = BtcExec(env: Env, e: BtcEnv, slate: BtcLocked, nonce: int, recv: RecvRandom, grin: nat, btc: nat,
                             pushed: bool)

  datatype BtcFinished = BtcFinished(pub: PubSlate, swapped: Coin, contract: Transaction)

  function BtcRespond(c: BtcExec, h: seq<Msg>): Result<ContractReply> {
    var _ :- CheckTime(c.slate.pub, c.grin, c.btc);
    var value, fee := c.slate.shared.value, c.env.txFee(1, 1, 1);
    if value < fee then Err(Overflow) else
    var s :- AsSlate(c.env, Nth(h, 0));
    ContractRespond(c.env, c.slate.shared, s, value - fee, 0, c.slate.x, c.nonce, c.recv)
  }

  function BtcFinish(c: BtcExec, h: seq<Msg>): Result<Slate> {
    var r :- BtcRespond(c, h);
    var s :- AsSlate(c.env, Nth(h, 1));
    ContractFinish(c.env, r, s)
  }

  /** Bob pushes only after his last message was acknowledged. */
  function BtcExecute(c: BtcExec, h: seq<Msg>): Result<BtcFinished> {
    var r :- BtcRespond(c, h);
    var fin :- BtcFinish(c, h);
    if fin.tx.None? then Err(NoTransaction)
    else if !c.pushed then Err(NodeFailure)
    else Ok(BtcFinished(c.slate.pub.(status := FINISHED), r.recv.coin, fin.tx.value))
  }

  function BtcExecLine(c: BtcExec, k: nat, h: seq<Msg>): Msg {
    if k == 1 then var r := BtcRespond(c, h); if r.Ok? then SlateLine(r.value.recv.slate) else Closed
    else var s := BtcFinish(c, h); if s.Ok? then SlateLine(s.value) else Closed
  }

  function BtcExecProgram(c: BtcExec): seq<Action<Msg>> {
    [ Recv, Send(h => BtcExecLine(c, 1, h)), Recv, Send(h => BtcExecLine(c, 3, h)) ]
  }

  // ---------------------------------------------------------------- the conversation

  lemma ExecProgramsDual(a: MwExec, b: BtcExec)
    ensures Dual(MwExecProgram(a), BtcExecProgram(b))
    ensures |MwExecProgram(a)| == 4
  {
  }

  ghost predicate ExecTalked(a: MwExec, b: BtcExec, ha: seq<Msg>, hb: seq<Msg>) {
    && |ha| == |hb| == 2
    && hb[0] == MwExecLine(a, 0, ha) && ha[0] == BtcExecLine(b, 1, hb)
    && hb[1] == MwExecLine(a, 2, ha) && ha[1] == BtcExecLine(b, 3, hb)
  }

  lemma ExecPrefix(a: MwExec, b: BtcExec, ha: seq<Msg>, hb: seq<Msg>)
    requires |ha| == |hb| == 2
    ensures MwExecLine(a, 0, ha[..0]) == MwExecLine(a, 0, ha) && MwExecLine(a, 2, ha[..1]) == MwExecLine(a, 2, ha)
    ensures BtcExecLine(b, 1, hb[..1]) == BtcExecLine(b, 1, hb) && BtcExecLine(b, 3, hb[..2]) == BtcExecLine(b, 3, hb)
  {
    hide MwStart, ContractSign, ContractRespond, ContractFinish, CheckTime;
    assert hb[..2] == hb;
  }

  lemma ExecConversation(a: MwExec, b: BtcExec)
    ensures Dual(MwExecProgram(a), BtcExecProgram(b))
    ensures ExecTalked(a, b, Talk(MwExecProgram(a), BtcExecProgram(b), |MwExecProgram(a)|).0,
                             Talk(MwExecProgram(a), BtcExecProgram(b), |MwExecProgram(a)|).1)
  {
    hide MwExecLine, BtcExecLine, Talk;
    ExecProgramsDual(a, b);
    var p, q := MwExecProgram(a), BtcExecProgram(b);
    assert Heard(p, 0) == 0 && Heard(p, 1) == 0 && Heard(p, 2) == 1 && Heard(p, 3) == 1 && Heard(p, 4) == 2;
    TalkLengths(p, q, 4);
    var t := Talk(p, q, 4);
    TalkSays(p, q, 0);
    TalkSays(p, q, 1);
    TalkSays(p, q, 2);
    TalkSays(p, q, 3);
    ExecPrefix(a, b, t.0, t.1);
  }

  // ---------------------------------------------------------------- exactly when execution succeeds

  function Payout(env: Env, value: nat): int { value - env.txFee(1, 1, 1) }

  function ContractRun(a: MwExec, b: BtcExec, X: Point): Result<ContractOutcome>
    requires Payout(a.env, a.slate.shared.value) >= 0
  {
    DContract(a.env, a.slate.shared, b.slate.shared, Payout(a.env, a.slate.shared.value), 0, X, b.slate.x, a.spend,
              b.nonce, b.recv)
  }

  ghost predicate TimeLeft(a: MwExec, b: BtcExec) {
    CheckTime(a.slate.pub, a.grin, a.btc).Ok? && CheckTime(b.slate.pub, b.grin, b.btc).Ok?
  }

  /** The conversation carries out dContractMWTx when both parties still have time. */
  lemma ContractStage(a: MwExec, b: BtcExec, ha: seq<Msg>, hb: seq<Msg>, X: Point)
    requires ExecTalked(a, b, ha, hb) && a.env == b.env && a.slate.pub.btc.pubX == Some(X)
    requires a.slate.shared.value == b.slate.shared.value && Payout(a.env, a.slate.shared.value) >= 0
    ensures BtcFinish(b, hb).Ok? || MwReveal(a, ha).Ok? ==> TimeLeft(a, b)
    ensures MwReveal(a, ha).Ok? <==> TimeLeft(a, b) && ContractRun(a, b, X).Ok?
    ensures BtcFinish(b, hb).Ok? ==> DealSpend(a.env, Deal([a.slate.shared], Payout(a.env, a.slate.shared.value), 0, 1,
                                                           3), a.spend).Ok?
                                     && MwSign(a, ha).Ok?
    ensures TimeLeft(a, b) && ContractRun(a, b, X).Ok? ==>
              var run := ContractRun(a, b, X).value;
              && MwReveal(a, ha) == Ok(run.revealed)
              && BtcFinish(b, hb) == Ok(run.bob)
              && BtcRespond(b, hb).Ok? && BtcRespond(b, hb).value.recv.coin == run.coin
  {
    hide CheckTime, DealSpend, ContractRespond, ContractSign, ContractFinish, ContractRead, DContract, FromV4, ToV4;
    ContractByEndpoints(a.env, a.slate.shared, b.slate.shared, Payout(a.env, a.slate.shared.value), 0, X, b.slate.x,
                        a.spend, b.nonce, b.recv);
  }

  /** Two slates that a completed setup phase left behind. */
  ghost predicate LockedSwap(a: MwSide, b: BtcSide, m: MwLocked, n: BtcLocked) {
    LockAssumptions(a, b) && LockCondition(a, b) && LocksMatch(a, b, m, n) && MwHolds(a, b, m)
  }

  ghost predicate ExecAssumptions(a: MwSide, m: MwLocked, n: BtcLocked, x: MwExec, y: BtcExec) {
    && x.slate == m && y.slate == n
    && x.env == y.env == a.env && x.e == y.e == a.e
    && GoodBtcEnv(a.e)
    && (Payout(a.env, m.shared.value) >= 0 ==>
          Fresh(InpSecrets(a.env, Deal([m.shared], Payout(a.env, m.shared.value), 0, 1, 3), n.shared, x.spend, y.nonce,
                           y.recv)))
  }

  /** An hour is left at these heights: 60 Grin and 6 Bitcoin blocks up to the heights at which the parties asked
      for theirs plus the time locks of the swap. */
  ghost predicate HourLeft(a: MwSide, b: BtcSide, grin: nat, btc: nat) {
    grin + 60 <= a.height + a.start.mw.timelock && btc + 6 <= b.height + b.start.btc.timelock
  }

  /** Both locks have run out at these heights. */
  ghost predicate LocksOver(a: MwSide, b: BtcSide, grin: nat, btc: nat) {
    grin > a.height + a.start.mw.timelock && btc > b.height + b.start.btc.timelock
  }

  /** The two time checks on any slate: both lock heights must be there. */
  lemma TimesExact(s: PubSlate, grin: nat, btc: nat)
    ensures CheckTime(s, grin, btc).Ok? <==>
              (&& s.mw.lockTime.Some? && grin + 60 <= s.mw.lockTime.value
               && s.btc.lockTime.Some? && btc + 6 <= s.btc.lockTime.value)
    ensures CheckRefund(s, grin, btc).Ok? <==>
              (&& s.mw.lockTime.Some? && grin > s.mw.lockTime.value >= 0
               && s.btc.lockTime.Some? && btc > s.btc.lockTime.value >= 0)
  {
  }

  lemma ChecksExact(a: MwSide, b: BtcSide, grin: nat, btc: nat)
    ensures CheckTime(AgreedSlate(a, b), grin, btc).Ok? <==> HourLeft(a, b, grin, btc)
    ensures CheckRefund(AgreedSlate(a, b), grin, btc).Ok? <==> LocksOver(a, b, grin, btc)
  {
    hide PointOf;
  }

  /** The time check of both parties, in terms of the agreed heights. */
  lemma TimeLeftExact(a: MwSide, b: BtcSide, x: MwExec, y: BtcExec)
    requires x.slate.pub == y.slate.pub == AgreedSlate(a, b)
    ensures TimeLeft(x, y) <==> HourLeft(a, b, x.grin, x.btc) && HourLeft(a, b, y.grin, y.btc)
  {
    hide PointOf, AgreedSlate, HourLeft, LocksOver, CheckTime;
    ChecksExact(a, b, x.grin, x.btc);
    ChecksExact(a, b, y.grin, y.btc);
  }

  /** This transaction is final at once, spends the output Bob funded, meeting its script, and pays all of it less the
      fee to this secret's key; the coin kept for it is that output. */
  ghost predicate RedeemsLock(x: MwExec, n: BtcLocked, tx: BtcTx, coin: BtcInput) {
    && tx.version == 1 && tx.lockTime == 0
    && |n.lockTx.outputs| == 2
    && |tx.inputs| == 1 && tx.inputs[0].prev == OutPoint(x.e.txid(n.lockTx), 0)
    && tx.inputs[0].sequence == 0xFFFF_FFFF
    && SpendsOutput(x.e, tx, 0, n.lockTx.outputs[0].script)
    && |tx.outputs| == 1 && tx.outputs[0].value + 500 == n.lockTx.outputs[0].value
    && Records(x.e, tx, 0, x.sk2, coin)
  }

  lemma RedeemStage(a: MwSide, b: BtcSide, m: MwLocked, n: BtcLocked, x: MwExec, w: Scalar)
    requires Paired(a, b) && LocksMatch(a, b, m, n) && x.slate == m && x.e == a.e && GoodBtcEnv(a.e)
    requires m.sk == a.draws.sk && PointOf(w) == PointOf(b.draws.x)
    ensures RedeemTx(x, w).Ok? <==> a.start.btc.amount >= 500
    ensures RedeemTx(x, w).Ok? ==> |RedeemTx(x, w).value.outputs| > 0
    ensures RedeemTx(x, w).Ok? ==> RedeemsLock(x, n, RedeemTx(x, w).value, RedeemedCoin(x, RedeemTx(x, w).value))
  {
    hide PointOf, LockProgram, LockPubScript, SpendsOutput, GoodBtcEnv, SharedPair, RedeemData, ShareOf;
    if a.start.btc.amount >= BTC_FEE {
      var tx := SpendLockTx(x.e, PointOf(x.sk2), m.lock, a.start.btc.amount, BTC_FEE, 0).value;
      RedeemSpends(x.e, tx, PointOf(a.draws.sk), PointOf(b.draws.x), PointOf(b.draws.sk), LockHeightBtc(b), a.draws.sk,
                   w);
    }
  }

  /** dContractMWTx on a locked swap goes through and reveals the witness. */
  lemma ContractOfLocked(a: MwSide, b: BtcSide, m: MwLocked, n: BtcLocked, x: MwExec, y: BtcExec)
    requires LockedSwap(a, b, m, n) && ExecAssumptions(a, m, n, x, y)
    ensures m.shared.value == n.shared.value == a.start.mw.amount && Payout(a.env, a.start.mw.amount) > 0
    ensures m.pub.btc.pubX == Some(PointOf(b.draws.x)) && n.x == b.draws.x
    ensures ContractRun(x, y, PointOf(b.draws.x)).Ok?
    ensures var run := ContractRun(x, y, PointOf(b.draws.x)).value;
            && run.revealed == Mod(b.draws.x) && PointOf(run.revealed) == PointOf(b.draws.x)
            && run.bob.tx.Some?
            && PaysContract(a.env, Payout(a.env, a.start.mw.amount), m.shared, run.bob.tx.value, y.recv)
            && Owns(a.env, run.bob.tx.value, run.coin, Payout(a.env, a.start.mw.amount))
            && run.alice == run.bob
  {
    hide Mod, Sum, Commit, DContract, Fresh, SpendsShared, PaysContract, GoodEnv, GoodBtcEnv, TxValid, AllOpen,
         InpSecrets, SharedSecrets, LockScriptOf, FundCondition, VerifyCondition, PointOf, ChallengesCoincide,
         SingleSpend, Paid, ChangeRight, Owns, LocksInput, Records;
    var fund := Payout(a.env, a.start.mw.amount);
    ShareBound(a.env, a.coins, a.start.mw.amount);
    SharesPair(a.env, a.start.mw.amount, b.draws.share.blind, a.draws.share.blind);
    ExactSpend(a.env, m.shared, fund);
    var d := Deal([m.shared], fund, 0, 1, 3);
    var cs := InpSecrets(a.env, d, n.shared, x.spend, y.nonce, y.recv);
    SameFeatures(a.env, cs, Plain(a.env.txFee(1, 1, 1)));
    ContractExact(a.env, m.shared, n.shared, fund, 0, PointOf(b.draws.x), b.draws.x, x.spend, y.nonce, y.recv);
  }

  /** Execution of a locked swap under every schedule: each party completes exactly when both find an hour left and its
      own node takes its transaction (Alice also needs the amount to cover the Bitcoin fee). The witness Alice extracts
      is the logarithm of pub_x, her redeem transaction spends the output Bob funded, Bob's contract transaction is
      valid, spends the shared coin and pays him its value less one fee, and each keeps the coin that was paid. */
  lemma ExecutionExact(a: MwSide, b: BtcSide, m: MwLocked, n: BtcLocked, x: MwExec, y: BtcExec, run: seq<Net<Msg>>)
    requires LockedSwap(a, b, m, n) && ExecAssumptions(a, m, n, x, y)
    requires IsRun(run, MwExecProgram(x), BtcExecProgram(y)) && !CanMove(run[|run| - 1])
    ensures BtcExecute(y, run[|run| - 1].b.inbox).Ok? <==>
              HourLeft(a, b, x.grin, x.btc) && HourLeft(a, b, y.grin, y.btc) && y.pushed
    ensures MwExecute(x, run[|run| - 1].a.inbox).Ok? <==>
              (&& HourLeft(a, b, x.grin, x.btc) && HourLeft(a, b, y.grin, y.btc) && x.sent
               && a.start.btc.amount >= 500)
    ensures MwExecute(x, run[|run| - 1].a.inbox).Ok? ==>
              var f := MwExecute(x, run[|run| - 1].a.inbox).value;
              && f.pub == AgreedSlate(a, b).(status := FINISHED)
              && f.x == Mod(b.draws.x) && m.pub.btc.pubX == Some(PointOf(f.x))
              && RedeemsLock(x, n, f.redeem, f.swapped)
    ensures BtcExecute(y, run[|run| - 1].b.inbox).Ok? ==>
              var g := BtcExecute(y, run[|run| - 1].b.inbox).value;
              && Payout(a.env, a.start.mw.amount) > 0
              && g.pub == AgreedSlate(a, b).(status := FINISHED)
              && PaysContract(a.env, Payout(a.env, a.start.mw.amount), m.shared, g.contract, y.recv)
              && Owns(a.env, g.contract, g.swapped, Payout(a.env, a.start.mw.amount))
  {
    hide Mod, PointOf, ExecTalked, TimeLeft, ContractRun, Next, CanMove, Talk, SpendsOutput, MwExecProgram,
         BtcExecProgram, BtcFinish, BtcRespond, MwReveal, RedeemTx,
         PaysContract, GoodBtcEnv, Fresh, InpSecrets, LockAssumptions, LockCondition, MwHolds, SharedPair, LockScriptOf,
         AgreedSlate, ShareOf, MwSign, HourLeft, Owns, LocksInput, Records, RedeemedCoin;
    ExecConversation(x, y);
    FinishedRunsAgree(run, MwExecProgram(x), BtcExecProgram(y));
    var ha, hb := run[|run| - 1].a.inbox, run[|run| - 1].b.inbox;
    ContractOfLocked(a, b, m, n, x, y);
    ContractStage(x, y, ha, hb, PointOf(b.draws.x));
    TimeLeftExact(a, b, x, y);
    assert m.sk == a.draws.sk by { HeldKey(a, b, m); }
    Assumed(a, b);
    RedeemStage(a, b, m, n, x, ContractRun(x, y, PointOf(b.draws.x)).value.revealed);
  }

  lemma HeldKey(a: MwSide, b: BtcSide, m: MwLocked)
    requires MwHolds(a, b, m)
    ensures m.sk == a.draws.sk
  {
  }

  /** Lock, then execute, each under any schedule and with any heights: if both phases complete on both sides, the
      extracted witness is Bob's x, the bitcoin Bob put in leaves as his change, Alice's coin and two fees, the shared
      coin moves to Bob, each party keeps the secrets of what it was paid, and the public slates are equal and
      finished. */
  lemma EndToEnd(a: MwSide, b: BtcSide, locking: seq<Net<Msg>>, x: MwExec, y: BtcExec, run: seq<Net<Msg>>)
    requires LockAssumptions(a, b) && IsRun(locking, MwLockProgram(a), BtcLockProgram(b))
        && !CanMove(locking[|locking| - 1])
    requires MwLock(a, locking[|locking| - 1].a.inbox).Ok? && BtcLock(b, locking[|locking| - 1].b.inbox).Ok?
    requires ExecAssumptions(a, MwLock(a, locking[|locking| - 1].a.inbox).value,
                             BtcLock(b, locking[|locking| - 1].b.inbox).value, x, y)
    requires IsRun(run, MwExecProgram(x), BtcExecProgram(y)) && !CanMove(run[|run| - 1])
    requires MwExecute(x, run[|run| - 1].a.inbox).Ok? && BtcExecute(y, run[|run| - 1].b.inbox).Ok?
    ensures var n := BtcLock(b, locking[|locking| - 1].b.inbox).value;
            var f, g := MwExecute(x, run[|run| - 1].a.inbox).value, BtcExecute(y, run[|run| - 1].b.inbox).value;
            && f.x == Mod(b.draws.x) && n.pub.btc.pubX == Some(PointOf(f.x))
            && LocksInput(b, PointOf(a.draws.sk), n.lockTx)
            && (b.inputs[0].script == P2pkhScript(a.e, PointOf(b.inputs[0].secret)) ==>
                  SpendsOutput(a.e, n.lockTx, 0, b.inputs[0].script))
            && Records(a.e, n.lockTx, 1, b.draws.rsk, n.change)
            && RedeemsLock(x, n, f.redeem, f.swapped)
            && b.inputs[0].value == n.change.value + f.swapped.value + 2 * 500
            && Payout(a.env, a.start.mw.amount) > 0
            && PaysContract(a.env, Payout(a.env, a.start.mw.amount), x.slate.shared, g.contract, y.recv)
            && Owns(a.env, g.contract, g.swapped, Payout(a.env, a.start.mw.amount))
            && f.pub == g.pub && f.pub.status == FINISHED
  {
    hide Mod, PointOf, Next, CanMove, MwExecProgram, BtcExecProgram, MwLockProgram, BtcLockProgram, MwReveal, RedeemTx,
         MwLock, BtcLock,
         SpendsOutput, PaysContract, LockAssumptions, LockCondition, MwHolds, SharedPair, LockScriptOf, ShareOf,
         ExecAssumptions, BtcExecute, BtcFund, MwExecute, HourLeft, Owns, P2pkhScript;
    LockingExact(a, b, locking);
    var m, n := MwLock(a, locking[|locking| - 1].a.inbox).value, BtcLock(b, locking[|locking| - 1].b.inbox).value;
    assert x.slate == m && y.slate == n by { ExecSlates(a, m, n, x, y); }
    ExecutionExact(a, b, m, n, x, y, run);
    assert GoodBtcEnv(a.e) by { ExecSlates(a, m, n, x, y); }
    if b.inputs[0].script == P2pkhScript(a.e, PointOf(b.inputs[0].secret)) {
      LockSpends(a, b, locking);
    }
  }

  lemma ExecSlates(a: MwSide, m: MwLocked, n: BtcLocked, x: MwExec, y: BtcExec)
    requires ExecAssumptions(a, m, n, x, y)
    ensures x.slate == m && y.slate == n && GoodBtcEnv(a.e)
  {
  }

  /** The lock transaction meets the script of the coin it spends. */
  lemma LockSpends(a: MwSide, b: BtcSide, locking: seq<Net<Msg>>)
    requires LockAssumptions(a, b) && IsRun(locking, MwLockProgram(a), BtcLockProgram(b))
        && !CanMove(locking[|locking| - 1])
    requires BtcLock(b, locking[|locking| - 1].b.inbox).Ok? && GoodBtcEnv(a.e)
    requires |b.inputs| == 1 && b.inputs[0].script == P2pkhScript(a.e, PointOf(b.inputs[0].secret))
    ensures var n := BtcLock(b, locking[|locking| - 1].b.inbox).value;
            |n.lockTx.inputs| == 1 && SpendsOutput(a.e, n.lockTx, 0, b.inputs[0].script)
  {
    hide Mod, PointOf, Next, CanMove, MwLockProgram, BtcLockProgram, MwVerify, MwShare, BtcShare, BtcHear, BtcFund,
         MwLock, LockTalked, LockAssumptions, BtcLock, Talk, GoodBtcEnv, SpendsOutput, P2pkhScript;
    LockProgramsDual(a, b);
    FinishedRunsAgree(locking, MwLockProgram(a), BtcLockProgram(b));
    LockConversation(a, b);
    Assumed(a, b);
    var ha, hb := LockTalk(a, b).0, LockTalk(a, b).1;
    BtcParts(a, b, ha, hb);
    FundSpendsInput(b, hb);
  }

  // ---------------------------------------------------------------- refund

  datatype BtcRefunder = BtcRefunder(e: BtcEnv, slate: BtcLocked, sk2: int, grin: nat, btc: nat, sent: bool)

  datatype MwRefunded = MwRefunded(pub: PubSlate, tx: Transaction)

  datatype BtcRefunded = BtcRefunded(pub: PubSlate, tx: BtcTx, coin: BtcInput)

  function CheckRefund(s: PubSlate, grin: nat, btc: nat): Result<()> {
    var (lockGrin, lockBtc) :- LockTimes(s);
    if CanRefund(lockGrin, lockBtc, grin, btc) then Ok(()) else Err(TooEarly)
  }

  function MwRefundPhase(s: MwLocked, grin: nat, btc: nat, pushed: bool): Result<MwRefunded> {
    var _ :- CheckRefund(s.pub, grin, btc);
    if !pushed then Err(NodeFailure) else Ok(MwRefunded(s.pub.(status := FAILED), s.refundTx))
  }

  /** Bob rebuilds the lock script from his own keys and the stored lock time, and keeps the refunded coin. */
  function BtcRefundPhase(c: BtcRefunder): Result<BtcRefunded> {
    var _ :- CheckRefund(c.slate.pub, c.grin, c.btc);
    var (lockGrin, time) :- LockTimes(c.slate.pub);
    var p := c.slate.pub.btc;
    if p.pubA.None? then Err(BadKey)
    else if time >= U32 then Err(Overflow) else
    var unsigned :- SpendLockTx(c.e, PointOf(c.sk2), c.slate.lock, p.amount, BTC_FEE, time);
    var script := LockProgram(c.e, p.pubA.value, PointOf(c.slate.x), PointOf(c.slate.sk), time);
    var tx := WithScript(unsigned, 0, RefundData(c.e, unsigned, 0, script, c.slate.sk));
    if !c.sent then Err(NodeFailure)
    else Ok(BtcRefunded(c.slate.pub.(status := FAILED), tx,
                        BtcInput(c.e.txid(tx), 0, tx.outputs[0].value, c.sk2, PointOf(c.sk2), tx.outputs[0].script)))
  }

  /** What a Bitcoin refund has to be: it may be mined once the lock has run out, spends the output Bob funded, meeting
      its script exactly when the lock height is positive, and pays all of it less the fee to this fresh secret's key;
      the coin kept for it is that output. */
  ghost predicate RefundsLock(e: BtcEnv, b: BtcSide, n: BtcLocked, sk2: int, tx: BtcTx, coin: BtcInput) {
    && tx.version == 1 && tx.lockTime == b.height + b.start.btc.timelock
    && |n.lockTx.outputs| == 2
    && |tx.inputs| == 1 && tx.inputs[0].prev == OutPoint(e.txid(n.lockTx), 0)
    && (SpendsOutput(e, tx, 0, n.lockTx.outputs[0].script) <==> b.height + b.start.btc.timelock > 0)
    && |tx.outputs| == 1 && tx.outputs[0].value + 500 == n.lockTx.outputs[0].value
    && Records(e, tx, 0, sk2, coin)
  }

  /** The refund side of a locked swap. Alice's refund goes out exactly when both heights have passed; it spends the
      shared coin and her stored coin opens what it pays. Bob's goes out under the same heights when the lock height
      fits 32 bits and the amount covers the fee; it pays the amount less the fee to his fresh key. The lock height of
      either lies below the current one. */
  lemma RefundExact(a: MwSide, b: BtcSide, m: MwLocked, n: BtcLocked, grin: nat, btc: nat, pushed: bool, c: BtcRefunder)
    requires LockedSwap(a, b, m, n) && c.slate == n && c.e == a.e && GoodBtcEnv(a.e)
    ensures MwRefundPhase(m, grin, btc, pushed).Ok? <==> LocksOver(a, b, grin, btc) && pushed
    ensures MwRefundPhase(m, grin, btc, pushed).Ok? ==>
              var r := MwRefundPhase(m, grin, btc, pushed).value;
              var fund := a.start.mw.amount - a.env.txFee(1, 1, 1);
              && fund > 0
              && SpendsShared(a.env, m.shared, fund, a.height + a.start.mw.timelock, r.tx, a.draws.refund)
              && Owns(a.env, r.tx, m.refundCoin, fund)
              && a.height + a.start.mw.timelock < grin
              && r.pub == AgreedSlate(a, b).(status := FAILED)
    ensures BtcRefundPhase(c).Ok? <==>
              (&& LocksOver(a, b, c.grin, c.btc)
               && b.height + b.start.btc.timelock < 0x1_0000_0000 && a.start.btc.amount >= 500 && c.sent)
    ensures BtcRefundPhase(c).Ok? ==>
              var r := BtcRefundPhase(c).value;
              && RefundsLock(a.e, b, n, c.sk2, r.tx, r.coin) && b.height + b.start.btc.timelock < c.btc
              && r.pub == AgreedSlate(a, b).(status := FAILED)
  {
    hide PointOf, LockProgram, LockPubScript, SpendsOutput, GoodBtcEnv, SharedPair, RefundData, ShareOf, SpendsShared,
         LockAssumptions, FundCondition, VerifyCondition, GrinCondition, Paid, ChangeRight, Owns, Commit;
    ChecksExact(a, b, grin, btc);
    ChecksExact(a, b, c.grin, c.btc);
    Assumed(a, b);
    if b.height + b.start.btc.timelock < U32 && a.start.btc.amount >= BTC_FEE {
      var tx := SpendLockTx(a.e, PointOf(c.sk2), n.lock, a.start.btc.amount, BTC_FEE, LockHeightBtc(b)).value;
      RefundSpendsExact(a.e, tx, PointOf(a.draws.sk), PointOf(b.draws.x), PointOf(b.draws.sk), LockHeightBtc(b),
                        b.draws.sk);
    }
  }
}
