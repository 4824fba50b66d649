/** The setup phase: both parties exchange keys, Bob locks his bitcoin, Alice verifies it, and together they
    build the shared Grin coin and its time-locked refund. Each party is a program over the line protocol, whose
    messages depend on its own secrets, its node's answers and what it has received. */
module Locking {
  import opened Wrappers
  import opened Curve
  import opened Transactions
  import opened Slates
  import opened Wire
  import opened Coins
  import opened CoinProofs
  import opened SharedCoin
  import opened Stages
  import opened Builders
  import opened Endpoints
  import opened Bitcoin
  import opened Decimal
  import opened Tcp
  import opened SwapState

  // ---------------------------------------------------------------- the Mimblewimble side

  /** What Alice draws at random. */
  datatype MwDraws = MwDraws(sk: int, spend: SpendRandom, share: SharedRandom, refundNonce: int, refund: RecvRandom)

  /** Alice: her slate as read from disk, her draws and her nodes' answers. */
  datatype MwSide = MwSide(env: Env, e: BtcEnv, start: PubSlate, coins: seq<Coin>, draws: MwDraws,
                           imported: bool, balances: nat -> nat, height: nat, pushed: bool)

  /** The part of the private slate the Mimblewimble side fills in. */
  datatype MwLocked = MwLocked(pub: PubSlate, sk: int, lock: BtcInput, shared: Coin, change: Coin,
                               refundCoin: Coin, refundTx: Transaction, funding: Transaction)

  datatype Verified = Verified(pub: PubSlate, lock: BtcInput, lockGrin: nat)

  function WithBtcKeys(s: PubSlate, a: Point, b: Point, x: Point, lockBtc: int): PubSlate {
    s.(status := SETUP, btc := s.btc.(pubA := Some(a), pubB := Some(b), pubX := Some(x), lockTime := Some(lockBtc)))
  }

  function WithGrinLock(s: PubSlate, lockGrin: int): PubSlate { s.(mw := s.mw.(lockTime := Some(lockGrin))) }

  /** Up to the point where Alice announces her lock height: keys, lock time, address and funds are checked. */
  function MwVerify(c: MwSide, h: seq<Msg>): Result<Verified> {
    var a := PointOf(c.draws.sk);
    var b :- AsKey(Nth(h, 0));
    var x :- AsKey(Nth(h, 1));
    var time :- AsText(Nth(h, 2));
    var lockBtc := ParseI64(time);
    if lockBtc.None? then Err(BadText)
    else if !c.imported then Err(NodeFailure) else
    var address :- AsText(Nth(h, 3));
    var txid :- AsText(Nth(h, 4));
    var script := LockPubScript(c.e, a, x, b, lockBtc.value);
    if c.e.address(script) != address then Err(LockAddressMismatch)
    else if !Poll(c.balances, c.start.btc.amount, 0) then Err(FundsNotVerified)
    else if c.height + c.start.mw.timelock >= Decimal.I64 then Err(Overflow)
    else
      var lockGrin := c.height + c.start.mw.timelock;
      Ok(Verified(WithGrinLock(WithBtcKeys(c.start, a, b, x, lockBtc.value), lockGrin),
                  BtcInput(txid, 0, c.start.btc.amount, c.draws.sk, a, script), lockGrin))
  }

  function MwOpen(c: MwSide, h: seq<Msg>): Result<ShareOpening> {
    var _ :- MwVerify(c, h);
    ShareOpen(c.env, c.coins, c.start.mw.amount, 0, c.draws.spend, c.draws.share)
  }

  function MwShare(c: MwSide, h: seq<Msg>): Result<ShareClosing> {
    var o :- MwOpen(c, h);
    var s :- AsSlate(c.env, Nth(h, 5));
    var ctx :- AsContext(Nth(h, 6));
    ShareClose(c.env, o, s, ctx, c.draws.share)
  }

  /** Printing the change coin fails when there is none; the refund pays the shared value less one fee. */
  function MwRefund(c: MwSide, h: seq<Msg>): Result<SpendReply> {
    var f :- MwShare(c, h);
    var v :- MwVerify(c, h);
    if f.change.None? then Err(NoChangeCoin)
    else if f.coin.value < c.env.txFee(1, 1, 1) then Err(Overflow) else
    var s :- AsSlate(c.env, Nth(h, 7));
    SpendRespond(c.env, f.coin, s, f.coin.value - c.env.txFee(1, 1, 1), v.lockGrin, c.draws.refundNonce, c.draws.refund)
  }

  /** The whole phase: only now is the funding transaction pushed. */
  function MwLock(c: MwSide, h: seq<Msg>): Result<MwLocked> {
    var r :- MwRefund(c, h);
    var f :- MwShare(c, h);
    var v :- MwVerify(c, h);
    var s :- AsSlate(c.env, Nth(h, 8));
    var own :- SpendOwn(c.env, s);
    if f.change.None? then Err(NoChangeCoin)
    else if own.tx.None? || f.slate.tx.None? then Err(NoTransaction)
    else if !c.pushed then Err(NodeFailure)
    else Ok(MwLocked(v.pub, c.draws.sk, v.lock, f.coin, f.change.value, r.coin, own.tx.value, f.slate.tx.value))
  }

  function SlateLine(s: Slate): Msg { SlateText(ToV4(s)) }

  /** What Alice writes at position k of the phase, having received h; nothing once she has stopped. */
  function MwLine(c: MwSide, k: nat, h: seq<Msg>): Msg {
    if k == 0 then Key(PointOf(c.draws.sk))
    else if k == 6 then var v := MwVerify(c, h); if v.Ok? then Text(Print(v.value.lockGrin)) else Closed
    else if k == 7 then var o := MwOpen(c, h); if o.Ok? then SlateLine(o.value.slate) else Closed
    else if k == 8 then var o := MwOpen(c, h); if o.Ok? then Context(o.value.ctx) else Closed
    else if k == 11 then var f := MwShare(c, h); if f.Ok? then SlateLine(f.value.slate) else Closed
    else var r := MwRefund(c, h); if r.Ok? then SlateLine(r.value.slate) else Closed
  }

  function MwLockProgram(c: MwSide): seq<Action<Msg>> {
    [ Send(h => MwLine(c, 0, h)), Recv, Recv, Recv, Recv, Recv,
      Send(h => MwLine(c, 6, h)), Send(h => MwLine(c, 7, h)), Send(h => MwLine(c, 8, h)), Recv, Recv,
      Send(h => MwLine(c, 11, h)), Recv, Send(h => MwLine(c, 13, h)), Recv ]
  }

  // ---------------------------------------------------------------- the Bitcoin side

  /** What Bob draws at random: his key, his change key, the witness, and the Grin secrets. */
  datatype BtcDraws = BtcDraws(sk: int, rsk: int, x: int, share: SharedRandom, spend: SpendRandom)

  datatype BtcSide = BtcSide(env: Env, e: BtcEnv, start: PubSlate, inputs: seq<BtcInput>, draws: BtcDraws, height: nat,
                             sent: bool)

  datatype BtcLocked = BtcLocked(pub: PubSlate, sk: int, x: int, lock: BtcInput, change: BtcInput, shared: Coin,
                                 lockTx: BtcTx)

  datatype Funded = Funded(tx: BtcTx, script: PubScript, lock: BtcInput, change: BtcInput)

  function LockHeightBtc(c: BtcSide): nat { c.height + c.start.btc.timelock }

  function BtcTime(c: BtcSide, h: seq<Msg>): Result<nat> {
    var _ :- AsKey(Nth(h, 0));
    if LockHeightBtc(c) >= Decimal.I64 then Err(Overflow) else Ok(LockHeightBtc(c))
  }

  /** The lock transaction is built over all inputs but signed with the first input's key only. */
  function FundWith(c: BtcSide, a: Point, time: nat): Result<Funded> {
    var d := c.draws;
    var tx :- LockTx(c.e, a, PointOf(d.x), PointOf(d.sk), PointOf(d.rsk), c.inputs, c.start.btc.amount, BTC_FEE, time);
    if |c.inputs| == 0 || |tx.outputs| < 2 then Err(IndexOutOfBounds) else
    var signed :- P2pkhSigned(c.e, tx, [c.inputs[0].script], [c.inputs[0].secret], [PointOf(c.inputs[0].secret)]);
    if !c.sent then Err(NodeFailure)
    else
      var txid := c.e.txid(signed);
      Ok(Funded(signed, tx.outputs[0].script,
                BtcInput(txid, 0, c.start.btc.amount, d.sk, PointOf(d.sk), tx.outputs[0].script),
                BtcInput(txid, 1, tx.outputs[1].value, d.rsk, PointOf(d.rsk), tx.outputs[1].script)))
  }

  function BtcFund(c: BtcSide, h: seq<Msg>): Result<Funded> {
    var time :- BtcTime(c, h);
    var a :- AsKey(Nth(h, 0));
    FundWith(c, a, time)
  }

  function BtcHear(c: BtcSide, h: seq<Msg>): Result<int> {
    var _ :- BtcFund(c, h);
    var text :- AsText(Nth(h, 1));
    var lockGrin := ParseI64(text);
    if lockGrin.None? then Err(BadText) else Ok(lockGrin.value)
  }

  function BtcShare(c: BtcSide, h: seq<Msg>): Result<(RecvResult, ProofContext)> {
    var _ :- BtcHear(c, h);
    var s :- AsSlate(c.env, Nth(h, 2));
    var ctx :- AsContext(Nth(h, 3));
    DRecvCoinsR2(c.env, s, c.start.mw.amount, ctx, c.draws.share)
  }

  function BtcRefund(c: BtcSide, h: seq<Msg>): Result<SpendResult> {
    var (rc, ctx) :- BtcShare(c, h);
    var lockGrin :- BtcHear(c, h);
    var _ :- AsSlate(c.env, Nth(h, 4));
    if rc.coin.value < c.env.txFee(1, 1, 1) || lockGrin < 0 then Err(Overflow)
    else DealSpend(c.env, Deal([rc.coin], rc.coin.value - c.env.txFee(1, 1, 1), lockGrin, 1, 3), c.draws.spend)
  }

  function BtcClose(c: BtcSide, h: seq<Msg>): Result<Slate> {
    var sp :- BtcRefund(c, h);
    var s :- AsSlate(c.env, Nth(h, 5));
    SpendClose(c.env, sp, s)
  }

  function BtcLock(c: BtcSide, h: seq<Msg>): Result<BtcLocked> {
    var _ :- BtcClose(c, h);
    var f :- BtcFund(c, h);
    var a :- AsKey(Nth(h, 0));
    var time :- BtcTime(c, h);
    var lockGrin :- BtcHear(c, h);
    var (rc, ctx) :- BtcShare(c, h);
    var d := c.draws;
    Ok(BtcLocked(WithGrinLock(WithBtcKeys(c.start, a, PointOf(d.sk), PointOf(d.x), time), lockGrin),
                 d.sk, d.x, f.lock, f.change, rc.coin, f.tx))
  }

  function BtcLine(c: BtcSide, k: nat, h: seq<Msg>): Msg {
    if k == 1 then if AsKey(Nth(h, 0)).Ok? then Key(PointOf(c.draws.sk)) else Closed
    else if k == 2 then if AsKey(Nth(h, 0)).Ok? then Key(PointOf(c.draws.x)) else Closed
    else if k == 3 then var t := BtcTime(c, h); if t.Ok? then Text(Print(t.value)) else Closed
    else if k == 4 then var f := BtcFund(c, h); if f.Ok? then Text(c.e.address(f.value.script)) else Closed
    else if k == 5 then var f := BtcFund(c, h); if f.Ok? then Text(f.value.lock.txid) else Closed
    else if k == 9 then var r := BtcShare(c, h); if r.Ok? then SlateLine(r.value.0.slate) else Closed
    else if k == 10 then var r := BtcShare(c, h); if r.Ok? then Context(r.value.1) else Closed
    else if k == 12 then var sp := BtcRefund(c, h); if sp.Ok? then SlateLine(sp.value.slate) else Closed
    else var f := BtcClose(c, h); if f.Ok? then SlateLine(f.value) else Closed
  }

  function BtcLockProgram(c: BtcSide): seq<Action<Msg>> {
    [ Recv, Send(h => BtcLine(c, 1, h)), Send(h => BtcLine(c, 2, h)), Send(h => BtcLine(c, 3, h)),
      Send(h => BtcLine(c, 4, h)), Send(h => BtcLine(c, 5, h)), Recv, Recv, Recv,
      Send(h => BtcLine(c, 9, h)), Send(h => BtcLine(c, 10, h)), Recv, Send(h => BtcLine(c, 12, h)), Recv,
      Send(h => BtcLine(c, 14, h)) ]
  }

  lemma LockProgramsDual(a: MwSide, b: BtcSide)
    ensures Dual(MwLockProgram(a), BtcLockProgram(b))
  {
  }

  // ---------------------------------------------------------------- the conversation

  /** The messages of a finished conversation in terms of each other. */
  ghost predicate LockTalked(a: MwSide, b: BtcSide, ha: seq<Msg>, hb: seq<Msg>) {
    && |ha| == 9 && |hb| == 6
    && hb[0] == MwLine(a, 0, ha)
    && ha[0] == BtcLine(b, 1, hb) && ha[1] == BtcLine(b, 2, hb) && ha[2] == BtcLine(b, 3, hb)
    && ha[3] == BtcLine(b, 4, hb) && ha[4] == BtcLine(b, 5, hb)
    && hb[1] == MwLine(a, 6, ha) && hb[2] == MwLine(a, 7, ha) && hb[3] == MwLine(a, 8, ha)
    && ha[5] == BtcLine(b, 9, hb) && ha[6] == BtcLine(b, 10, hb)
    && hb[4] == MwLine(a, 11, ha) && ha[7] == BtcLine(b, 12, hb) && hb[5] == MwLine(a, 13, ha)
    && ha[8] == BtcLine(b, 14, hb)
  }

  /** A line depends only on what had been received when it was written. */
  lemma MwPrefix(c: MwSide, h: seq<Msg>)
    requires |h| == 9
    ensures MwLine(c, 0, h[..0]) == MwLine(c, 0, h)
    ensures forall k :: 6 <= k <= 8 ==> MwLine(c, k, h[..5]) == MwLine(c, k, h)
    ensures MwLine(c, 11, h[..7]) == MwLine(c, 11, h) && MwLine(c, 13, h[..8]) == MwLine(c, 13, h)
  {
    hide ShareOpen, ShareClose, SpendRespond, Poll, LockPubScript, ParseI64, PointOf;
  }

  lemma BtcPrefix(c: BtcSide, h: seq<Msg>)
    requires |h| == 6
    ensures forall k :: 1 <= k <= 5 ==> BtcLine(c, k, h[..1]) == BtcLine(c, k, h)
    ensures BtcLine(c, 9, h[..4]) == BtcLine(c, 9, h) && BtcLine(c, 10, h[..4]) == BtcLine(c, 10, h)
    ensures BtcLine(c, 12, h[..5]) == BtcLine(c, 12, h) && BtcLine(c, 14, h[..6]) == BtcLine(c, 14, h)
  {
    hide BtcFund, DRecvCoinsR2, DealSpend, SpendClose, ParseI64, PointOf;
    forall n: nat | 1 <= n <= 6 ensures BtcFund(c, h[..n]) == BtcFund(c, h) { FundPrefix(c, h, n); }
    assert h[..6] == h;
  }

  lemma FundPrefix(c: BtcSide, h: seq<Msg>, n: nat)
    requires 1 <= n <= |h|
    ensures BtcFund(c, h[..n]) == BtcFund(c, h)
  {
    hide LockTx, P2pkhSigned, PointOf;
  }

  /** How many lines Alice has received before position i. */
  function HeardAt(i: nat): nat {
    if i <= 1 then 0 else if i <= 6 then i - 1 else if i <= 9 then 5 else if i == 10 then 6
    else if i <= 12 then 7 else if i <= 14 then 8 else 9
  }

  predicate MwSpeaks(i: nat) { i == 0 || i == 6 || i == 7 || i == 8 || i == 11 || i == 13 }

  lemma LockHeard(a: MwSide)
    ensures |MwLockProgram(a)| == 15
    ensures forall i :: 0 <= i <= 15 ==> Heard(MwLockProgram(a), i) == HeardAt(i)
  {
    hide MwLine;
    var p := MwLockProgram(a);
    assert Heard(p, 0) == 0 && Heard(p, 1) == 0 && Heard(p, 2) == 1 && Heard(p, 3) == 2 && Heard(p, 4) == 3;
    assert Heard(p, 5) == 4 && Heard(p, 6) == 5 && Heard(p, 7) == 5 && Heard(p, 8) == 5 && Heard(p, 9) == 5;
    assert Heard(p, 10) == 6 && Heard(p, 11) == 7 && Heard(p, 12) == 7 && Heard(p, 13) == 8 && Heard(p, 14) == 8;
    assert Heard(p, 15) == 9;
  }

  ghost function LockTalk(a: MwSide, b: BtcSide): (seq<Msg>, seq<Msg>) {
    if Dual(MwLockProgram(a), BtcLockProgram(b)) then Talk(MwLockProgram(a), BtcLockProgram(b),
                                                           |MwLockProgram(a)|) else ([], [])
  }

  /** Message i of the finished conversation, in terms of what its sender had received. */
  lemma LockSays(a: MwSide, b: BtcSide, i: nat)
    requires i < 15
    ensures |LockTalk(a, b).0| == 9 && |LockTalk(a, b).1| == 6
    ensures MwSpeaks(i) ==> LockTalk(a, b).1[i - HeardAt(i)] == MwLine(a, i, LockTalk(a, b).0[..HeardAt(i)])
    ensures !MwSpeaks(i) ==> LockTalk(a, b).0[HeardAt(i)] == BtcLine(b, i, LockTalk(a, b).1[..i - HeardAt(i)])
  {
    hide MwLine, BtcLine, Talk, Heard;
    LockProgramsDual(a, b);
    LockHeard(a);
    TalkLengths(MwLockProgram(a), BtcLockProgram(b), 15);
    TalkSays(MwLockProgram(a), BtcLockProgram(b), i);
  }

  lemma LockConversation(a: MwSide, b: BtcSide)
    ensures LockTalked(a, b, LockTalk(a, b).0, LockTalk(a, b).1)
  {
    hide MwLine, BtcLine, LockTalk;
    LockSays(a, b, 0);
    LockSays(a, b, 1);
    LockSays(a, b, 2);
    LockSays(a, b, 3);
    LockSays(a, b, 4);
    LockSays(a, b, 5);
    LockSays(a, b, 6);
    LockSays(a, b, 7);
    LockSays(a, b, 8);
    LockSays(a, b, 9);
    LockSays(a, b, 10);
    LockSays(a, b, 11);
    LockSays(a, b, 12);
    LockSays(a, b, 13);
    LockSays(a, b, 14);
    MwPrefix(a, LockTalk(a, b).0);
    BtcPrefix(b, LockTalk(a, b).1);
  }

  // ---------------------------------------------------------------- exactly when the phase succeeds

  function LockHeightGrin(c: MwSide): nat { c.height + c.start.mw.timelock }

  /** Bob can lock: one input that covers amount and fee, a lock height in 63 bits, and nodes that answer. */
  ghost predicate FundCondition(b: BtcSide) {
    && b.height + b.start.btc.timelock < 0x8000_0000_0000_0000
    && |b.inputs| == 1
    && b.start.btc.amount + 500 <= b.inputs[0].value < 0x1_0000_0000_0000_0000
    && b.sent
  }

  /** Alice accepts: the first balance her node shows in time is the agreed amount. */
  ghost predicate VerifyCondition(a: MwSide) {
    && a.imported
    && Shows(a.balances, a.start.btc.amount)
    && a.height + a.start.mw.timelock < 0x8000_0000_0000_0000
  }

  function RefundFund(env: Env, s: PubSlate): int { s.mw.amount - env.txFee(1, 1, 1) }

  /** The Grin side works out: the inputs pass, they leave change, and the shared coin is worth more than the
      fee of spending it. */
  ghost predicate GrinCondition(a: MwSide) {
    && Fundable(a.env, a.coins, a.start.mw.amount, 2)
    && Sum(Values(a.coins)) > a.start.mw.amount + a.env.txFee(|a.coins|, 2, 1)
    && a.env.txFee(1, 1, 1) < a.start.mw.amount && a.env.txFee(1, 1, 1) < 0x100_0000_0000
  }

  function LockScriptOf(e: BtcEnv, recv: Point, b: BtcSide): PubScript {
    LockPubScript(e, recv, PointOf(b.draws.x), PointOf(b.draws.sk), LockHeightBtc(b))
  }

  /** The transaction Bob funds spends his one input, final and unlocked, pays the amount to the lock script and the
      rest, less the fee, to his change key. */
  ghost predicate LocksInput(b: BtcSide, recv: Point, tx: BtcTx) {
    && tx.version == 1 && tx.lockTime == 0
    && |b.inputs| == 1 == |tx.inputs|
    && tx.inputs[0].prev == OutPoint(b.inputs[0].txid, b.inputs[0].vout) && tx.inputs[0].sequence == 0xFFFF_FFFF
    && |tx.outputs| == 2
    && tx.outputs[0] == TxOut(b.start.btc.amount, LockScriptOf(b.e, recv, b))
    && tx.outputs[1].script == P2pkh(b.e.hash160(b.e.keyBytes(PointOf(b.draws.rsk))))
    && b.inputs[0].value == b.start.btc.amount + tx.outputs[1].value + 500
  }

  /** Bob records both outputs: the locked one under his refund key, the other as his to spend. */
  ghost predicate FundedRight(b: BtcSide, recv: Point, f: Funded) {
    && LocksInput(b, recv, f.tx)
    && f.script == LockScriptOf(b.e, recv, b)
    && f.lock == BtcInput(b.e.txid(f.tx), 0, b.start.btc.amount, b.draws.sk, PointOf(b.draws.sk), f.script)
    && Records(b.e, f.tx, 1, b.draws.rsk, f.change)
  }

  lemma AmountsOfOne(ins: seq<BtcInput>)
    requires |ins| <= 1
    ensures Amounts(ins) == if |ins| == 0 then 0 else ins[0].value
  {
    if |ins| == 1 {
      assert Amounts(ins[..0]) == 0;
    }
  }

  lemma FundExact(b: BtcSide, h: seq<Msg>, recv: Point)
    requires Nth(h, 0) == Key(recv)
    ensures BtcFund(b, h).Ok? <==> FundCondition(b)
    ensures BtcFund(b, h).Ok? ==> FundedRight(b, recv, BtcFund(b, h).value)
  {
    hide PointOf, LockPubScript, Skeleton;
    if |b.inputs| <= 1 {
      AmountsOfOne(b.inputs);
    }
  }

  /** The one signature of the lock transaction is the one its one input needs. */
  lemma FundSpendsInput(b: BtcSide, h: seq<Msg>)
    requires GoodBtcEnv(b.e) && BtcFund(b, h).Ok? && |b.inputs| == 1
    requires b.inputs[0].script == P2pkhScript(b.e, PointOf(b.inputs[0].secret))
    ensures var tx := BtcFund(b, h).value.tx;
            && |tx.inputs| == 1 && tx.inputs[0].prev == OutPoint(b.inputs[0].txid, b.inputs[0].vout)
            && SpendsOutput(b.e, tx, 0, b.inputs[0].script)
  {
    hide PointOf, LockPubScript, GoodBtcEnv, SpendsOutput, P2pkhData;
    var d, inp := b.draws, b.inputs[0];
    var tx := LockTx(b.e, Nth(h, 0).p, PointOf(d.x), PointOf(d.sk), PointOf(d.rsk), b.inputs, b.start.btc.amount,
                     BTC_FEE, LockHeightBtc(b)).value;
    P2pkhSpends(b.e, tx, [inp.script], [inp.secret], [PointOf(inp.secret)], 0);
  }

  /** The public slate both parties should end the phase with. */
  function AgreedSlate(a: MwSide, b: BtcSide): PubSlate {
    PubSlate(SETUP, a.start.mw.(lockTime := Some(a.height + a.start.mw.timelock)),
             a.start.btc.(lockTime := Some(b.height + b.start.btc.timelock), pubA := Some(PointOf(a.draws.sk)),
                          pubB := Some(PointOf(b.draws.sk)), pubX := Some(PointOf(b.draws.x))),
             a.start.meta)
  }

  /** The parties run the same code on the same libraries and start from the same public slate. */
  ghost predicate Paired(a: MwSide, b: BtcSide) { a.env == b.env && a.e == b.e && a.start == b.start }

  lemma VerifyStage(a: MwSide, b: BtcSide, ha: seq<Msg>, hb: seq<Msg>)
    requires LockTalked(a, b, ha, hb) && Paired(a, b)
    ensures BtcFund(b, hb).Ok? <==> FundCondition(b)
    ensures BtcFund(b, hb).Ok? ==> FundedRight(b, PointOf(a.draws.sk), BtcFund(b, hb).value)
    ensures MwVerify(a, ha).Ok? <==> FundCondition(b) && VerifyCondition(a)
    ensures MwVerify(a, ha).Ok? ==>
              MwVerify(a, ha).value == Verified(AgreedSlate(a, b),
                BtcInput(b.e.txid(BtcFund(b, hb).value.tx), 0, b.start.btc.amount, a.draws.sk, PointOf(a.draws.sk),
                         LockScriptOf(b.e, PointOf(a.draws.sk), b)), LockHeightGrin(a))
    ensures FundCondition(b) ==> BtcTime(b, hb) == Ok(LockHeightBtc(b))
    ensures BtcHear(b, hb).Ok? <==> MwVerify(a, ha).Ok?
    ensures BtcHear(b, hb).Ok? ==> BtcHear(b, hb).value == LockHeightGrin(a)
  {
    hide PointOf, LockPubScript, Poll, ParseI64, BtcFund, MwOpen, MwShare, MwRefund, BtcShare, BtcRefund, BtcClose,
         P2pkhScript;
    FundExact(b, hb, PointOf(a.draws.sk));
    ParsePrint(LockHeightBtc(b));
    ParsePrint(LockHeightGrin(a));
    PollExact(a.balances, a.start.btc.amount);
  }

  function SharedRun(a: MwSide, b: BtcSide): Result<SharedOutcome> {
    SharedOut(a.env, a.coins, a.start.mw.amount, 0, a.draws.spend, a.draws.share, b.draws.share)
  }

  /** The conversation carries out dSharedOutMWTx once the bitcoin is verified. */
  lemma ShareStage(a: MwSide, b: BtcSide, ha: seq<Msg>, hb: seq<Msg>)
    requires LockTalked(a, b, ha, hb) && Paired(a, b)
    ensures MwShare(a, ha).Ok? <==> MwVerify(a, ha).Ok? && SharedRun(a, b).Ok?
    ensures MwShare(a, ha).Ok? ==>
              && BtcShare(b, hb).Ok?
              && AsSlate(b.env, hb[4]).Ok?
              && var res := SharedRun(a, b).value;
                 && MwShare(a, ha).value == ShareClosing(res.alice, res.change, res.coinA)
                 && BtcShare(b, hb).value.0.coin == res.coinB
    ensures AsSlate(b.env, hb[4]).Ok? ==> MwShare(a, ha).Ok?
  {
    hide MwVerify, BtcHear, ShareOpen, ShareClose, DRecvCoinsR2, SharedOut, BtcTime, BtcFund, MwRefund, BtcRefund,
         BtcClose, FromV4, ToV4, PointOf;
    assert BtcHear(b, hb).Ok? <==> MwVerify(a, ha).Ok? by { VerifyStage(a, b, ha, hb); }
    SharedOutByEndpoints(a.env, a.coins, a.start.mw.amount, 0, a.draws.spend, a.draws.share, b.draws.share);
  }

  function RefundRun(a: MwSide, b: BtcSide, coinA: Coin, coinB: Coin): Result<InpOutcome>
    requires coinB.value >= a.env.txFee(1, 1, 1)
  {
    SharedInp(a.env, coinB, coinA, coinB.value - a.env.txFee(1, 1, 1), LockHeightGrin(a), b.draws.spend,
              a.draws.refundNonce, a.draws.refund)
  }

  /** Then dSharedInpMWTx, with Bob as the opening party, unless Alice has no change coin to print. */
  lemma RefundStage(a: MwSide, b: BtcSide, ha: seq<Msg>, hb: seq<Msg>)
    requires LockTalked(a, b, ha, hb) && Paired(a, b)
    requires MwShare(a, ha).Ok? && BtcShare(b, hb).Ok? && MwVerify(a, ha).Ok? && AsSlate(b.env, hb[4]).Ok?
    requires MwVerify(a, ha).value.lockGrin == LockHeightGrin(a) && BtcHear(b, hb) == Ok(LockHeightGrin(a))
    requires BtcFund(b, hb).Ok? && BtcTime(b, hb) == Ok(LockHeightBtc(b))
    requires MwShare(a, ha).value.coin.value == BtcShare(b, hb).value.0.coin.value
    ensures MwLock(a, ha).Ok? ==> BtcLock(b, hb).Ok? && a.pushed
    ensures var f, coinB := MwShare(a, ha).value, BtcShare(b, hb).value.0.coin;
            && (BtcLock(b, hb).Ok? ==>
                  (&& f.change.Some? && coinB.value >= a.env.txFee(1, 1, 1)
                   && DealSpend(a.env, Deal([coinB], coinB.value - a.env.txFee(1, 1, 1), LockHeightGrin(a), 1, 3),
                                b.draws.spend).Ok?))
            && (f.change.Some? && coinB.value >= a.env.txFee(1, 1, 1) && f.slate.tx.Some? ==>
                  var run := RefundRun(a, b, f.coin, coinB);
                  run.Ok? && run.value.bob.tx.Some? ==>
                    (&& BtcLock(b, hb).Ok?
                     && (MwLock(a, ha).Ok? <==> a.pushed)
                     && (a.pushed ==> MwLock(a, ha).value.refundTx == run.value.bob.tx.value)
                     && (a.pushed ==> MwLock(a, ha).value.refundCoin == run.value.coin)))
  {
    hide MwVerify, BtcHear, MwShare, BtcShare, BtcTime, BtcFund, FromV4, ToV4, PointOf, SharedInp, DealSpend,
         SpendRespond, SpendClose, SpendOwn;
    if MwShare(a, ha).value.coin.value >= a.env.txFee(1, 1, 1) {
      var coinB := BtcShare(b, hb).value.0.coin;
      SharedInpByEndpoints(a.env, coinB, MwShare(a, ha).value.coin, coinB.value - a.env.txFee(1, 1, 1),
                           LockHeightGrin(a),
                           b.draws.spend, a.draws.refundNonce, a.draws.refund);
    }
  }

  /** Freshness of everything drawn in the phase, and Alice's inputs open to what she says. */
  ghost predicate LockAssumptions(a: MwSide, b: BtcSide) {
    var amount, sa, sb := a.start.mw.amount, a.draws.share, b.draws.share;
    && Paired(a, b)
    && GoodEnv(a.env)
    && AllOpen(a.env, a.coins, Zeros(|a.coins|))
    && Fresh(SharedSecrets(a.env, Deal(a.coins, amount, 0, 2, 3), a.draws.spend, sa, sb))
    && ProofFresh(a.env, sa, sb)
    && (RefundFund(a.env, a.start) >= 0 ==>
          Fresh(InpSecrets(a.env, RefundDeal(a, b), ShareOf(a.env, amount, sa.blind, sb.blind), b.draws.spend,
                           a.draws.refundNonce, a.draws.refund)))
  }

  /** The refund: Bob opens with his share, the value less one fee goes back to Alice, locked at her height. */
  ghost function RefundDeal(a: MwSide, b: BtcSide): Deal
    requires RefundFund(a.env, a.start) >= 0
  {
    Deal([ShareOf(a.env, a.start.mw.amount, b.draws.share.blind, a.draws.share.blind)], RefundFund(a.env, a.start),
         LockHeightGrin(a), 1, 3)
  }

  /** Spending one coin for its value less the one-output fee: it works out exactly when something is left and the fee
      is in range. */
  lemma ExactSpend(env: Env, c: Coin, fund: nat)
    requires GoodEnv(env) && c.value < 0x8000_0000_0000_0000 && fund + env.txFee(1, 1, 1) == c.value
    requires env.readCommit(c.text).Some?
    ensures SingleSpend(env, c, fund) <==> fund > 0 && env.txFee(1, 1, 1) < 0x100_0000_0000
    ensures SpendGuard(env, [c], fund, 1).Ok? <==> SingleSpend(env, c, fund)
  {
    hide Sum, SpendGuard;
    OneTotal(c);
    GuardExact(env, [c], fund, 1);
  }

  ghost predicate LockCondition(a: MwSide, b: BtcSide) { FundCondition(b) && VerifyCondition(a) && GrinCondition(a) }

  /** What the Mimblewimble side holds when it publishes: a valid funding transaction that spends her coins to the
      shared coin and to change that is hers, and a valid transaction that spends the shared coin back to her, locked
      at the agreed height, with the coin that opens its output. */
  ghost predicate MwHolds(a: MwSide, b: BtcSide, m: MwLocked) {
    var env, amount, sa, sb := a.env, a.start.mw.amount, a.draws.share, b.draws.share;
    var fee, fundingFee := env.txFee(1, 1, 1), env.txFee(|a.coins|, 2, 1);
    && m.pub == AgreedSlate(a, b) && m.sk == a.draws.sk
    && m.shared == ShareOf(env, amount, sa.blind, sb.blind)
    && Paid(env, a.coins, amount, fundingFee, Plain(fundingFee), m.funding, Commit(amount, sa.blind + sb.blind))
    && ChangeRight(env, m.funding, Sum(Values(a.coins)) - amount - fundingFee, Some(m.change))
    && amount > fee
    && SpendsShared(env, m.shared, amount - fee, a.height + a.start.mw.timelock, m.refundTx, a.draws.refund)
    && Owns(env, m.refundTx, m.refundCoin, amount - fee)
  }

  /** The shared coin of a locked swap, seen from the two private slates. */
  lemma SharesPair(env: Env, value: nat, a: int, b: int)
    requires GoodEnv(env)
    ensures SharedPair(env, ShareOf(env, value, a, b), ShareOf(env, value, b, a))
    ensures env.readCommit(ShareOf(env, value, b, a).text) == Some(Commit(value, a + b))
  {
    hide Mod;
    assert a + b == b + a;
  }

  lemma LockParts(a: MwSide, b: BtcSide, ha: seq<Msg>, hb: seq<Msg>)
    requires LockTalked(a, b, ha, hb)
    ensures BtcLock(b, hb).Ok? ==> AsSlate(b.env, hb[4]).Ok? && BtcShare(b, hb).Ok? && BtcFund(b, hb).Ok?
    ensures BtcLock(b, hb).Ok? ==> BtcHear(b, hb).Ok?
    ensures MwLock(a, ha).Ok? ==> MwShare(a, ha).Ok? && MwVerify(a, ha).Ok?
    ensures MwLock(a, ha).Ok? ==>
              var m, f, v := MwLock(a, ha).value, MwShare(a, ha).value, MwVerify(a, ha).value;
              && m.pub == v.pub && m.sk == a.draws.sk && m.lock == v.lock && m.shared == f.coin
              && Some(m.funding) == f.slate.tx && Some(m.change) == f.change
  {
    hide MwVerify, BtcHear, MwShare, BtcShare, BtcTime, BtcFund, PointOf, MwRefund, SpendOwn, DealSpend, SpendClose;
  }

  lemma BtcParts(a: MwSide, b: BtcSide, ha: seq<Msg>, hb: seq<Msg>)
    requires LockTalked(a, b, ha, hb) && BtcLock(b, hb).Ok?
    ensures BtcFund(b, hb).Ok? && BtcHear(b, hb).Ok? && BtcShare(b, hb).Ok? && BtcTime(b, hb).Ok?
    ensures BtcLock(b, hb).value
         == BtcLocked(WithGrinLock(WithBtcKeys(b.start, PointOf(a.draws.sk), PointOf(b.draws.sk), PointOf(b.draws.x),
                                               BtcTime(b, hb).value), BtcHear(b, hb).value),
                      b.draws.sk, b.draws.x, BtcFund(b, hb).value.lock, BtcFund(b, hb).value.change,
                          BtcShare(b, hb).value.0.coin, BtcFund(b, hb).value.tx)
  {
    hide BtcHear, BtcShare, BtcTime, BtcFund, PointOf, MwRefund, BtcClose;
  }

  /** The Grin half of the phase, once the bitcoin is verified. */
  lemma GrinStage(a: MwSide, b: BtcSide, ha: seq<Msg>, hb: seq<Msg>)
    requires LockTalked(a, b, ha, hb) && LockAssumptions(a, b)
    requires FundCondition(b) && VerifyCondition(a)
    ensures BtcLock(b, hb).Ok? <==> GrinCondition(a)
    ensures MwLock(a, ha).Ok? <==> GrinCondition(a) && a.pushed
    ensures MwLock(a, ha).Ok? ==> MwHolds(a, b, MwLock(a, ha).value)
    ensures BtcLock(b, hb).Ok? ==> BtcShare(b, hb).Ok? && BtcShare(b, hb).value.0.coin == ShareOf(a.env,
        a.start.mw.amount, b.draws.share.blind, a.draws.share.blind)
  {
    hide MwVerify, BtcHear, MwShare, BtcShare, BtcTime, BtcFund, SharedOut, SharedInp, Fresh, ProofFresh, TxValid,
         SpendsShared, DealSpend, SpendGuard, PointOf, Commit, SharedPair, BtcLock, MwLock, LockTalked, Surplus,
         AllOpen, GoodEnv, InpSecrets, SharedSecrets, LockScriptOf, WithBtcKeys, WithGrinLock, FundedRight, Fundable,
         SingleSpend, Paid, ChangeRight, Owns, AgreedSlate, Sum;
    var amount, sa, sb := a.start.mw.amount, a.draws.share, b.draws.share;
    VerifyStage(a, b, ha, hb);
    ShareStage(a, b, ha, hb);
    LockParts(a, b, ha, hb);
    SharedOutExact(a.env, a.coins, amount, 0, a.draws.spend, sa, sb);
    if MwShare(a, ha).Ok? {
      RefundStage(a, b, ha, hb);
      ShareBound(a.env, a.coins, amount);
      var res, fundingFee := SharedRun(a, b).value, a.env.txFee(|a.coins|, 2, 1);
      HasChange(a.env, res.alice.tx.value, Sum(Values(a.coins)) - amount - fundingFee, res.change);
      if RefundFund(a.env, a.start) >= 0 {
        var coinA, coinB := ShareOf(a.env, amount, sa.blind, sb.blind), ShareOf(a.env, amount, sb.blind, sa.blind);
        SharesPair(a.env, amount, sa.blind, sb.blind);
        assert Opens(a.env, coinB, coinA.blind);
        ExactSpend(a.env, coinB, RefundFund(a.env, a.start));
        GuardFirst(a.env, RefundDeal(a, b), b.draws.spend);
        SharedInpExact(a.env, coinB, coinA, RefundFund(a.env, a.start), LockHeightGrin(a), b.draws.spend,
                       a.draws.refundNonce, a.draws.refund);
        if SingleSpend(a.env, coinB, RefundFund(a.env, a.start)) {
          SameText(a.env, coinA, coinB, RefundFund(a.env, a.start), LockHeightGrin(a),
                   RefundRun(a, b, coinA, coinB).value.bob.tx.value, a.draws.refund);
        }
      }
    }
  }

  lemma ShareBound(env: Env, coins: seq<Coin>, fund: nat)
    requires Fundable(env, coins, fund, 2)
    ensures fund < 0x8000_0000_0000_0000
  {
  }

  lemma HasChange(env: Env, tx: Transaction, surplus: int, change: Option<Coin>)
    requires ChangeRight(env, tx, surplus, change)
    ensures change.Some? <==> surplus > 0
  {
    hide Owns;
  }

  /** Either share names the coin that is spent. */
  lemma SameText(env: Env, a: Coin, b: Coin, fund: nat, timelock: nat, tx: Transaction, rb: RecvRandom)
    requires a.text == b.text && a.value == b.value && SpendsShared(env, b, fund, timelock, tx, rb)
    ensures SpendsShared(env, a, fund, timelock, tx, rb)
  {
    hide TxValid, Sum, Commit;
    OneTotal(a);
    OneTotal(b);
  }

  /** What the two private slates of a locked swap have to do with each other and with the lock transaction. */
  ghost predicate LocksMatch(a: MwSide, b: BtcSide, m: MwLocked, n: BtcLocked) {
    && m.pub == n.pub == AgreedSlate(a, b)
    && SharedPair(a.env, m.shared, n.shared) && m.shared.value == a.start.mw.amount
    && n.shared == ShareOf(a.env, a.start.mw.amount, b.draws.share.blind, a.draws.share.blind)
    && LocksInput(b, PointOf(a.draws.sk), n.lockTx)
    && m.lock == BtcInput(a.e.txid(n.lockTx), 0, a.start.btc.amount, a.draws.sk, PointOf(a.draws.sk),
                          n.lockTx.outputs[0].script)
    && n.lock == m.lock.(secret := b.draws.sk, key := PointOf(b.draws.sk))
    && n.sk == b.draws.sk && n.x == b.draws.x
    && Records(a.e, n.lockTx, 1, b.draws.rsk, n.change)
  }

  lemma LockMatches(a: MwSide, b: BtcSide, ha: seq<Msg>, hb: seq<Msg>)
    requires LockTalked(a, b, ha, hb) && LockAssumptions(a, b)
    requires FundCondition(b) && VerifyCondition(a) && MwLock(a, ha).Ok? && BtcLock(b, hb).Ok?
    ensures LocksMatch(a, b, MwLock(a, ha).value, BtcLock(b, hb).value)
  {
    hide MwVerify, BtcHear, MwShare, BtcShare, BtcTime, BtcFund, Fresh, ProofFresh, TxValid, SpendsShared,
         DealSpend, SpendGuard, PointOf, Commit, SharedPair, BtcLock, MwLock, LockTalked, Surplus, AllOpen, GoodEnv,
             InpSecrets, SharedSecrets,
         LockScriptOf, GrinCondition;
    VerifyStage(a, b, ha, hb);
    LockParts(a, b, ha, hb);
    BtcParts(a, b, ha, hb);
    GrinStage(a, b, ha, hb);
    SharesPair(a.env, a.start.mw.amount, a.draws.share.blind, b.draws.share.blind);
  }

  /** Exactly when the conversation of the setup phase succeeds, on either side. */
  lemma LockTalkExact(a: MwSide, b: BtcSide)
    requires LockAssumptions(a, b)
    ensures BtcLock(b, LockTalk(a, b).1).Ok? <==> LockCondition(a, b)
    ensures MwLock(a, LockTalk(a, b).0).Ok? <==> LockCondition(a, b) && a.pushed
    ensures LockCondition(a, b) && a.pushed ==>
              var m, n := MwLock(a, LockTalk(a, b).0).value, BtcLock(b, LockTalk(a, b).1).value;
              LocksMatch(a, b, m, n) && MwHolds(a, b, m)
  {
    hide MwVerify, BtcHear, MwShare, BtcShare, BtcTime, BtcFund, LocksMatch, MwHolds, BtcLock, MwLock, LockTalked,
         LockAssumptions,
         FundCondition, VerifyCondition, FundedRight, LockTalk;
    LockConversation(a, b);
    var ha, hb := LockTalk(a, b).0, LockTalk(a, b).1;
    Assumed(a, b);
    VerifyStage(a, b, ha, hb);
    LockParts(a, b, ha, hb);
    if FundCondition(b) && VerifyCondition(a) {
      GrinStage(a, b, ha, hb);
      if MwLock(a, ha).Ok? {
        LockMatches(a, b, ha, hb);
      }
    }
  }

  lemma Assumed(a: MwSide, b: BtcSide)
    requires LockAssumptions(a, b)
    ensures Paired(a, b)
  {
  }

  /** The setup phase under every schedule: Bob completes exactly under the stated condition, Alice exactly when
      her push is accepted as well. Then the public slates are equal in all fields, the two private slates fit
      together, and Alice holds a valid refund locked at the agreed height. */
  lemma LockingExact(a: MwSide, b: BtcSide, run: seq<Net<Msg>>)
    requires LockAssumptions(a, b)
    requires IsRun(run, MwLockProgram(a), BtcLockProgram(b)) && !CanMove(run[|run| - 1])
    ensures BtcLock(b, run[|run| - 1].b.inbox).Ok? <==> LockCondition(a, b)
    ensures MwLock(a, run[|run| - 1].a.inbox).Ok? <==> LockCondition(a, b) && a.pushed
    ensures LockCondition(a, b) && a.pushed ==>
              var m, n := MwLock(a, run[|run| - 1].a.inbox).value, BtcLock(b, run[|run| - 1].b.inbox).value;
              LocksMatch(a, b, m, n) && MwHolds(a, b, m)
  {
    hide LocksMatch, MwHolds, BtcLock, MwLock, LockAssumptions, CanMove, Next, Talk, MwLockProgram, BtcLockProgram,
         FundCondition, VerifyCondition;
    LockProgramsDual(a, b);
    FinishedRunsAgree(run, MwLockProgram(a), BtcLockProgram(b));
    LockTalkExact(a, b);
  }
}
