/** The swap phases as each party runs them, updating its swap slate step by step. */
module Phases {
  import opened Wrappers
  import opened Curve
  import opened Transactions
  import opened Slates
  import opened Wire
  import opened Coins
  import opened Stages
  import opened Endpoints
  import opened Streams
  import opened Bitcoin
  import opened Decimal
  import opened SwapState
  import opened Locking
  import opened Execution
  import opened GrinTx

  class SwapSlate {
    var pub: PubSlate
    var coins: seq<Coin>
    var inputs: seq<BtcInput>
    var sk: Option<int>
    var x: Option<int>
    var rsk: Option<int>
    var lock: Option<BtcInput>
    var change: Option<BtcInput>
    var swapped: Option<BtcInput>
    var refunded: Option<BtcInput>
    var sharedCoin: Option<Coin>
    var changeCoin: Option<Coin>
    var refundCoin: Option<Coin>
    var swappedCoin: Option<Coin>
    var refundTx: Option<Transaction>

    /** What the Mimblewimble side has on its slate after the setup phase. */
    predicate HoldsMw(m: MwLocked)
      reads this
    {
      && pub == m.pub && sk == Some(m.sk) && lock == Some(m.lock)
      && sharedCoin == Some(m.shared) && changeCoin == Some(m.change)
      && refundCoin == Some(m.refundCoin) && refundTx == Some(m.refundTx)
    }

    predicate HoldsBtc(n: BtcLocked)
      reads this
    {
      && pub == n.pub && sk == Some(n.sk) && x == Some(n.x) && lock == Some(n.lock) && change == Some(n.change)
      && sharedCoin == Some(n.shared)
    }
  }

  // ---------------------------------------------------------------- the setup phase in parts

  /** The end of Alice's part: the refund built on what she heard in its builder. */
  function MwFinish(c: MwSide, v: Verified, f: ShareClosing, h: seq<Msg>): Result<MwLocked> {
    if f.change.None? then Err(NoChangeCoin)
    else if f.coin.value < c.env.txFee(1, 1, 1) then Err(Overflow) else
    var (own, coin) :- SharedInpB(c.env, f.coin, f.coin.value - c.env.txFee(1, 1, 1), v.lockGrin, c.draws.refundNonce,
                                  c.draws.refund, h);
    if own.tx.None? || f.slate.tx.None? then Err(NoTransaction)
    else if !c.pushed then Err(NodeFailure)
    else Ok(MwLocked(v.pub, c.draws.sk, v.lock, f.coin, f.change.value, coin, own.tx.value, f.slate.tx.value))
  }

  /** Alice's part, split at the builder calls: what she verified, what she heard in each builder. */
  function MwLockParts(c: MwSide, h: seq<Msg>, share: seq<Msg>, refund: seq<Msg>): Result<MwLocked> {
    var v :- MwVerify(c, h);
    var f :- ShareOutA(c.env, c.coins, c.start.mw.amount, 0, c.draws.spend, c.draws.share, share);
    MwFinish(c, v, f, refund)
  }

  lemma MwLockSplits(c: MwSide, h: seq<Msg>, share: seq<Msg>, refund: seq<Msg>)
    requires |h| == 5 && (|share| == 2 || (|share| < 2 && refund == []))
    ensures MwLockParts(c, h, share, refund).Ok? ==> MwLock(c, h + share + refund) == MwLockParts(c, h, share, refund)
    ensures MwLockParts(c, h, share, refund).Err? ==> MwLock(c, h + share + refund).Err?
  {
    hide MwVerify, ShareOpen, ShareClose, SpendRespond, SpendOwn, FromV4;
    var all := h + share + refund;
    assert MwVerify(c, all) == MwVerify(c, h) by {
      VerifyPrefix(c, h, share + refund);
      assert all == h + (share + refund);
    }
    assert forall k: nat :: k < |share| ==> Nth(all, 5 + k) == Nth(share, k);
    if |share| == 2 {
      assert Nth(all, 7) == Nth(refund, 0) && Nth(all, 8) == Nth(refund, 1);
    } else {
      assert Nth(all, 5) == Nth(share, 0) && Nth(all, 6) == Nth(share, 1);
    }
  }

  lemma VerifyPrefix(c: MwSide, h: seq<Msg>, more: seq<Msg>)
    requires |h| == 5
    ensures MwVerify(c, h + more) == MwVerify(c, h)
  {
    hide Poll, LockPubScript, ParseI64, PointOf;
    assert forall k: nat :: k < 5 ==> Nth(h + more, k) == Nth(h, k);
  }

  // ---------------------------------------------------------------- setup, Mimblewimble side

  /** The keys and the lock time Bob sends. */
  method HearTerms(c: MwSide, slate: SwapSlate, st: Stream) returns (r: Result<()>)
    requires slate.pub == c.start && slate.coins == c.coins
    modifies slate, st
    ensures slate.coins == c.coins
    ensures old(st.heard) <= st.heard && (old(st.broken) ==> st.broken) && |st.heard| <= |old(st.heard)| + 3
    ensures r.Err? ==> st.broken || !HeardTerms(Since(old(st.heard), st.heard))
    ensures r.Ok? ==>
              var h := Since(old(st.heard), st.heard);
              && |h| == 3 && HeardTerms(h)
              && slate.pub == WithBtcKeys(c.start, PointOf(c.draws.sk), h[0].p, h[1].p, ParseI64(h[2].s).value)
              && slate.sk == Some(c.draws.sk)
              && st.said == old(st.said) + [Key(PointOf(c.draws.sk))]
  {
    hide PointOf, ParseI64;
    var a := PointOf(c.draws.sk);
    slate.pub := slate.pub.(status := SETUP, btc := slate.pub.btc.(pubA := Some(a)));
    slate.sk := Some(c.draws.sk);
    var _ :- st.SendMsg(Key(a));
    var m0 := st.ReceiveMsg();
    assert Since(old(st.heard), st.heard) == [m0];
    var b :- AsKey(m0);
    slate.pub := slate.pub.(btc := slate.pub.btc.(pubB := Some(b)));
    var m1 := st.ReceiveMsg();
    assert Since(old(st.heard), st.heard) == [m0, m1];
    var x :- AsKey(m1);
    slate.pub := slate.pub.(btc := slate.pub.btc.(pubX := Some(x)));
    var m2 := st.ReceiveMsg();
    assert Since(old(st.heard), st.heard) == [m0, m1, m2];
    var text :- AsText(m2);
    var time := ParseI64(text);
    if time.None? {
      return Err(BadText);
    }
    slate.pub := slate.pub.(btc := slate.pub.btc.(lockTime := Some(time.value)));
    r := Ok(());
  }

  predicate HeardTerms(h: seq<Msg>) {
    Nth(h, 0).Key? && Nth(h, 1).Key? && Nth(h, 2).Text? && ParseI64(Nth(h, 2).s).Some?
  }

  lemma VerifyNeeds(c: MwSide, h: seq<Msg>)
    ensures MwVerify(c, h).Ok? ==> HeardTerms(h)
    ensures MwLock(c, h).Ok? ==> MwVerify(c, h).Ok?
  {
    hide Poll, LockPubScript, ParseI64, PointOf, MwShare, SpendRespond, SpendOwn;
  }

  /** What follows the terms: the address must be the one Alice computes, and the funds must show up. */
  function VerifyFunding(c: MwSide, terms: PubSlate, b: Point, x: Point, lockBtc: int, h: seq<Msg>): Result<Verified> {
    if !c.imported then Err(NodeFailure) else
    var address :- AsText(Nth(h, 0));
    var txid :- AsText(Nth(h, 1));
    var a := PointOf(c.draws.sk);
    var script := LockPubScript(c.e, a, x, b, lockBtc);
    if c.e.address(script) != address then Err(LockAddressMismatch)
    else if !Poll(c.balances, c.start.btc.amount, 0) then Err(FundsNotVerified)
    else if c.height + c.start.mw.timelock >= Decimal.I64 then Err(Overflow)
    else
      Ok(Verified(WithGrinLock(terms, c.height + c.start.mw.timelock),
                  BtcInput(txid, 0, c.start.btc.amount, c.draws.sk, a, script),
                  c.height + c.start.mw.timelock))
  }

  lemma VerifySplits(c: MwSide, h: seq<Msg>, rest: seq<Msg>)
    requires |h| == 3 && HeardTerms(h)
    ensures MwVerify(c, h + rest)
         == VerifyFunding(c, WithBtcKeys(c.start, PointOf(c.draws.sk), h[0].p, h[1].p, ParseI64(h[2].s).value), h[0].p,
                          h[1].p, ParseI64(h[2].s).value, rest)
  {
    hide Poll, LockPubScript, ParseI64, PointOf;
    var all := h + rest;
    assert Nth(all, 0) == h[0] && Nth(all, 1) == h[1] && Nth(all, 2) == h[2] && Nth(all, 3) == Nth(rest, 0)
        && Nth(all, 4) == Nth(rest, 1);
  }

  method HearLock(c: MwSide, slate: SwapSlate, st: Stream, b: Point, x: Point,
                  lockBtc: int) returns (r: Result<Verified>)
    requires slate.pub == WithBtcKeys(c.start, PointOf(c.draws.sk), b, x, lockBtc)
    modifies slate, st
    ensures slate.coins == old(slate.coins) && slate.sk == old(slate.sk) && st.said == old(st.said)
    ensures old(st.heard) <= st.heard && (old(st.broken) ==> st.broken)
    ensures Computes(r, VerifyFunding(c, old(slate.pub), b, x, lockBtc, Since(old(st.heard), st.heard)), st.broken)
    ensures r.Ok? ==>
              && |Since(old(st.heard), st.heard)| == 2
              && slate.pub == r.value.pub && slate.lock == Some(r.value.lock)
                  && slate.pub.mw.amount == c.start.mw.amount
  {
    hide PointOf, Poll, LockPubScript;
    var script := LockPubScript(c.e, PointOf(c.draws.sk), x, b, lockBtc);
    if !c.imported {
      return Err(NodeFailure);
    }
    var m3 := st.ReceiveMsg();
    var m4 := st.ReceiveMsg();
    assert Since(old(st.heard), st.heard) == [m3, m4];
    var address :- AsText(m3);
    var txid :- AsText(m4);
    if c.e.address(script) != address {
      slate.pub := slate.pub.(status := FAILED);
      return Err(LockAddressMismatch);
    }
    var verified, _ := VerifyFunds(c.balances, slate.pub.btc.amount);
    if !verified {
      slate.pub := slate.pub.(status := FAILED);
      return Err(FundsNotVerified);
    }
    slate.lock := Some(BtcInput(txid, 0, slate.pub.btc.amount, c.draws.sk, PointOf(c.draws.sk), script));
    var lockGrin := c.height + slate.pub.mw.timelock;
    if lockGrin >= Decimal.I64 {
      return Err(Overflow);
    }
    slate.pub := slate.pub.(mw := slate.pub.mw.(lockTime := Some(lockGrin)));
    r := Ok(Verified(slate.pub, slate.lock.value, lockGrin));
  }

  /** Keys, lock time, address and funds: everything Alice checks before she touches the Grin side. */
  method VerifyLock(c: MwSide, slate: SwapSlate, st: Stream) returns (r: Result<Verified>)
    requires slate.pub == c.start && slate.coins == c.coins
    modifies slate, st
    ensures slate.coins == c.coins
    ensures old(st.heard) <= st.heard && (old(st.broken) ==> st.broken)
    ensures Computes(r, MwVerify(c, Since(old(st.heard), st.heard)), st.broken)
    ensures r.Ok? ==>
              && |Since(old(st.heard), st.heard)| == 5
              && slate.pub == r.value.pub && slate.lock == Some(r.value.lock) && slate.sk == Some(c.draws.sk)
              && slate.pub.mw.amount == c.start.mw.amount
              && st.said == old(st.said) + [Key(PointOf(c.draws.sk))]
  {
    hide PointOf, ParseI64, VerifyFunding, MwVerify, WithBtcKeys;
    var terms := HearTerms(c, slate, st);
    ghost var h := Since(old(st.heard), st.heard);
    ghost var before := st.heard;
    VerifyNeeds(c, h);
    if terms.Err? {
      return Err(terms.error);
    }
    var p := slate.pub.btc;
    assert p.pubB == Some(h[0].p) && p.pubX == Some(h[1].p)
        && p.lockTime == Some(ParseI64(h[2].s).value) by { Stored(c, h, slate.pub); }
    r := HearLock(c, slate, st, p.pubB.value, p.pubX.value, p.lockTime.value);
    Appended(old(st.heard), before, st.heard);
    VerifySplits(c, h, Since(before, st.heard));
  }

  lemma Stored(c: MwSide, h: seq<Msg>, s: PubSlate)
    requires |h| == 3 && HeardTerms(h) && s == WithBtcKeys(c.start, PointOf(c.draws.sk), h[0].p, h[1].p,
                                                           ParseI64(h[2].s).value)
    ensures s.btc.pubB == Some(h[0].p) && s.btc.pubX == Some(h[1].p) && s.btc.lockTime == Some(ParseI64(h[2].s).value)
  {
  }

  lemma Appended(a: seq<Msg>, b: seq<Msg>, c: seq<Msg>)
    requires a <= b <= c
    ensures a <= c && Since(a, c) == Since(a, b) + Since(b, c)
  {
  }

  /** The line Alice sends in the refund's builder. */
  function RefundReply(c: MwSide, v: Verified, f: ShareClosing, h: seq<Msg>): Result<SpendReply> {
    if f.coin.value < c.env.txFee(1, 1, 1) then Err(Overflow) else
    var s :- AsSlate(c.env, Nth(h, 0));
    SpendRespond(c.env, f.coin, s, f.coin.value - c.env.txFee(1, 1, 1), v.lockGrin, c.draws.refundNonce, c.draws.refund)
  }

  /** From the shared coin to the refund; then the funding transaction may go out. */
  method FinishLockMw(c: MwSide, slate: SwapSlate, st: Stream, v: Verified,
                      f: ShareClosing) returns (r: Result<Transaction>)
    requires slate.pub == v.pub && slate.lock == Some(v.lock) && slate.sk == Some(c.draws.sk)
    modifies slate, st
    ensures old(st.heard) <= st.heard && (old(st.broken) ==> st.broken)
    ensures var m := MwFinish(c, v, f, Since(old(st.heard), st.heard));
            && (r.Ok? ==> m.Ok? && slate.HoldsMw(m.value) && r.value == m.value.funding)
            && (r.Err? ==> m.Err? || st.broken)
    ensures r.Ok? ==>
              var reply := RefundReply(c, v, f, Since(old(st.heard), st.heard));
              f.change.Some? && reply.Ok? && st.said == old(st.said) + [SlateLine(reply.value.slate)]
  {
    hide SharedInpB, SpendRespond, ToV4, FromV4;
    slate.sharedCoin := Some(f.coin);
    slate.changeCoin := f.change;
    if slate.changeCoin.None? {
      return Err(NoChangeCoin);
    }
    var fee := c.env.txFee(1, 1, 1);
    if f.coin.value < fee {
      return Err(Overflow);
    }
    var refund :- DSharedInpBob(c.env, st, f.coin, f.coin.value - fee, v.lockGrin, c.draws.refundNonce, c.draws.refund);
    slate.refundCoin := Some(refund.1);
    slate.refundTx := refund.0.tx;
    if refund.0.tx.None? || f.slate.tx.None? {
      return Err(NoTransaction);
    }
    if !c.pushed {
      return Err(NodeFailure);
    }
    r := Ok(f.slate.tx.value);
  }

  /** Everything Alice says in the phase, in terms of what she hears. */
  function MwLines(c: MwSide, h: seq<Msg>): seq<Msg> {
    [MwLine(c, 0, h), MwLine(c, 6, h), MwLine(c, 7, h), MwLine(c, 8, h), MwLine(c, 11, h), MwLine(c, 13, h)]
  }

  lemma MwLinesSplit(c: MwSide, h: seq<Msg>, share: seq<Msg>, refund: seq<Msg>, v: Verified, o: ShareOpening,
                     f: ShareClosing, reply: SpendReply)
    requires |h| == 5 && |share| == 2 && MwVerify(c, h) == Ok(v)
    requires ShareOpen(c.env, c.coins, c.start.mw.amount, 0, c.draws.spend, c.draws.share) == Ok(o)
    requires ShareOutA(c.env, c.coins, c.start.mw.amount, 0, c.draws.spend, c.draws.share, share) == Ok(f)
    requires f.change.Some? && RefundReply(c, v, f, refund) == Ok(reply)
    ensures MwLines(c, h + share + refund) ==
              [Key(PointOf(c.draws.sk)), Text(Print(v.lockGrin)), SlateLine(o.slate), Context(o.ctx),
               SlateLine(f.slate), SlateLine(reply.slate)]
  {
    hide MwVerify, ShareOpen, ShareClose, SpendRespond, SpendOwn, FromV4, ToV4, PointOf;
    var all := h + share + refund;
    assert MwVerify(c, all) == MwVerify(c, h) by {
      VerifyPrefix(c, h, share + refund);
      assert all == h + (share + refund);
    }
    assert Nth(all, 5) == Nth(share, 0) && Nth(all, 6) == Nth(share, 1) && Nth(all, 7) == Nth(refund, 0);
  }

  /** The whole phase: the slate ends up with what the phase computes from the messages heard, the lines sent are
      those of Alice's program, and the funding transaction is handed out only then. */
  method LockingPhaseMw(c: MwSide, slate: SwapSlate, st: Stream) returns (r: Result<Transaction>)
    requires slate.pub == c.start && slate.coins == c.coins
    modifies slate, st
    ensures old(st.heard) <= st.heard && (old(st.broken) ==> st.broken)
    ensures var m := MwLock(c, Since(old(st.heard), st.heard));
            && (r.Ok? ==> m.Ok? && slate.HoldsMw(m.value) && r.value == m.value.funding)
            && (r.Err? ==> m.Err? || st.broken)
    ensures r.Ok? ==> st.said == old(st.said) + MwLines(c, Since(old(st.heard), st.heard))
  {
    hide MwVerify, MwLock, ShareOutA, MwFinish, ShareOpen, RefundReply, ToV4, Since, MwLines, PointOf;
    var verified := VerifyLock(c, slate, st);
    ghost var h1 := st.heard;
    ghost var h := Since(old(st.heard), h1);
    VerifyNeeds(c, h);
    var v :- verified;
    var told := st.SendMsg(Text(Print(v.lockGrin)));
    if told.Err? {
      return Err(told.error);
    }
    var shared := DSharedOutAlice(c.env, st, slate.coins, slate.pub.mw.amount, 0, c.draws.spend, c.draws.share);
    ghost var h2 := st.heard;
    ghost var share := Since(h1, h2);
    SinceLength(h1, h2);
    Appended(old(st.heard), h1, h2);
    assert h + share == h + share + [];
    MwLockSplits(c, h, share, []);
    var f :- shared;
    assert slate.pub == v.pub;
    r := FinishLockMw(c, slate, st, v, f);
    Appended(old(st.heard), h2, st.heard);
    MwLockSplits(c, h, share, Since(h2, st.heard));
    if r.Ok? {
      ghost var o := ShareOpen(c.env, c.coins, c.start.mw.amount, 0, c.draws.spend, c.draws.share).value;
      MwLinesSplit(c, h, share, Since(h2, st.heard), v, o, f, RefundReply(c, v, f, Since(h2, st.heard)).value);
    }
  }

  lemma SinceLength(a: seq<Msg>, b: seq<Msg>)
    requires a <= b
    ensures |Since(a, b)| == |b| - |a|
  {
  }

  // ---------------------------------------------------------------- setup, Bitcoin side

  /** Bob's part, split at the builder calls. */
  function BtcLockParts(c: BtcSide, h: seq<Msg>, share: seq<Msg>, refund: seq<Msg>): Result<BtcLocked> {
    var f :- BtcFund(c, h);
    var a :- AsKey(Nth(h, 0));
    var lockGrin :- BtcHear(c, h);
    var (rc, tx) :- ShareOutB(c.env, c.start.mw.amount, c.draws.share, share);
    if rc.coin.value < c.env.txFee(1, 1, 1) || lockGrin < 0 then Err(Overflow) else
    var fin :- SharedInpA(c.env, rc.coin, rc.coin.value - c.env.txFee(1, 1, 1), lockGrin, c.draws.spend, refund);
    var d := c.draws;
    Ok(BtcLocked(WithGrinLock(WithBtcKeys(c.start, a, PointOf(d.sk), PointOf(d.x), LockHeightBtc(c)), lockGrin),
                 d.sk, d.x, f.lock, f.change, rc.coin, f.tx))
  }

  lemma BtcLockSplits(c: BtcSide, h: seq<Msg>, share: seq<Msg>, refund: seq<Msg>)
    requires |h| == 2 && (|share| == 3 || (|share| < 3 && refund == []))
    ensures BtcLockParts(c, h, share, refund).Ok? ==> BtcLock(c, h + share + refund) == BtcLockParts(c, h, share,
        refund)
    ensures BtcLockParts(c, h, share, refund).Err? ==> BtcLock(c, h + share + refund).Err?
  {
    hide BtcFund, DRecvCoinsR2, DealSpend, SpendClose, FromV4, PointOf, ParseI64;
    var all := h + share + refund;
    assert Nth(all, 0) == Nth(h, 0) && Nth(all, 1) == Nth(h, 1);
    assert BtcFund(c, all) == BtcFund(c, h) by { FundPrefix(c, all, 2); assert all[..2] == h; }
    FundedInTime(c, h);
    assert Nth(all, 2) == Nth(share, 0) && Nth(all, 3) == Nth(share, 1) && Nth(all, 4) == Nth(share, 2);
    if |share| == 3 {
      assert Nth(all, 5) == Nth(refund, 0);
    }
  }

  lemma FundedInTime(c: BtcSide, h: seq<Msg>)
    ensures BtcFund(c, h).Ok? ==> BtcTime(c, h) == Ok(LockHeightBtc(c))
  {
    hide FundWith;
  }

  lemma BtcLockNeeds(c: BtcSide, h: seq<Msg>)
    ensures BtcLock(c, h).Ok? ==> BtcFund(c, h).Ok? && BtcHear(c, h).Ok?
  {
    hide BtcFund, DRecvCoinsR2, DealSpend, SpendClose, FromV4, PointOf, ParseI64;
  }

  /** The keys and the lock time go out. */
  method TellTerms(c: BtcSide, slate: SwapSlate, st: Stream) returns (r: Result<Point>)
    requires slate.pub == c.start && slate.inputs == c.inputs
    modifies slate, st
    ensures slate.inputs == c.inputs
    ensures old(st.heard) <= st.heard && (old(st.broken) ==> st.broken) && |st.heard| <= |old(st.heard)| + 1
    ensures r.Err? ==> st.broken || BtcTime(c, Since(old(st.heard), st.heard)).Err?
    ensures r.Ok? ==>
              && Since(old(st.heard), st.heard) == [Key(r.value)]
              && BtcTime(c, Since(old(st.heard), st.heard)) == Ok(LockHeightBtc(c))
              && slate.pub == WithBtcKeys(c.start, r.value, PointOf(c.draws.sk), PointOf(c.draws.x), LockHeightBtc(c))
              && slate.sk == Some(c.draws.sk) && slate.x == Some(c.draws.x)
              && st.said == old(st.said) + [Key(PointOf(c.draws.sk)), Key(PointOf(c.draws.x)),
                                            Text(Print(LockHeightBtc(c)))]
  {
    hide PointOf;
    var d := c.draws;
    slate.sk, slate.rsk, slate.x := Some(d.sk), Some(d.rsk), Some(d.x);
    slate.pub := slate.pub.(status := SETUP, btc := slate.pub.btc.(pubB := Some(PointOf(d.sk)),
                                                                   pubX := Some(PointOf(d.x))));
    var m0 := st.ReceiveMsg();
    assert Since(old(st.heard), st.heard) == [m0];
    var a :- AsKey(m0);
    slate.pub := slate.pub.(btc := slate.pub.btc.(pubA := Some(a)));
    var _ :- st.SendMsg(Key(PointOf(d.sk)));
    var _ :- st.SendMsg(Key(PointOf(d.x)));
    var time := c.height + slate.pub.btc.timelock;
    if time >= Decimal.I64 {
      return Err(Overflow);
    }
    var _ :- st.SendMsg(Text(Print(time)));
    slate.pub := slate.pub.(btc := slate.pub.btc.(lockTime := Some(time)));
    r := Ok(a);
  }

  /** The lock transaction is built over all inputs, signed with the first one's key, and published before its
      address and id are sent. */
  method PublishLock(c: BtcSide, slate: SwapSlate, st: Stream, a: Point, time: nat) returns (r: Result<Funded>)
    requires slate.pub.btc.amount == c.start.btc.amount && slate.inputs == c.inputs
    modifies slate`lock, slate`change, st
    ensures st.heard == old(st.heard) && (old(st.broken) ==> st.broken)
    ensures Computes(r, FundWith(c, a, time), st.broken)
    ensures r.Ok? ==> slate.lock == Some(r.value.lock) && slate.change == Some(r.value.change)
    ensures r.Ok? ==> st.said == old(st.said) + [Text(c.e.address(r.value.script)), Text(c.e.txid(r.value.tx))]
  {
    hide PointOf, LockTx, P2pkhSigned;
    var d := c.draws;
    var made := CreateLockTransaction(c.e, a, PointOf(d.x), PointOf(d.sk), PointOf(d.rsk), slate.inputs,
                                      slate.pub.btc.amount, BTC_FEE, time);
    var tx :- made;
    if |slate.inputs| == 0 || |tx.outputs| < 2 {
      return Err(IndexOutOfBounds);
    }
    var inp := slate.inputs[0];
    var signing := SignP2pkhTransaction(c.e, tx, [inp.script], [inp.secret], [PointOf(inp.secret)]);
    var signed :- signing;
    if !c.sent {
      return Err(NodeFailure);
    }
    var txid := c.e.txid(signed);
    slate.change := Some(BtcInput(txid, 1, tx.outputs[1].value, d.rsk, PointOf(d.rsk), tx.outputs[1].script));
    var _ :- st.SendMsg(Text(c.e.address(tx.outputs[0].script)));
    var _ :- st.SendMsg(Text(txid));
    slate.lock := Some(BtcInput(txid, 0, slate.pub.btc.amount, d.sk, PointOf(d.sk), tx.outputs[0].script));
    r := Ok(Funded(signed, tx.outputs[0].script, slate.lock.value, slate.change.value));
  }

  /** From the keys to Alice's lock height. */
  method FundLock(c: BtcSide, slate: SwapSlate, st: Stream) returns (r: Result<int>)
    requires slate.pub == c.start && slate.inputs == c.inputs
    modifies slate, st
    ensures old(st.heard) <= st.heard && (old(st.broken) ==> st.broken)
    ensures Computes(r, BtcHear(c, Since(old(st.heard), st.heard)), st.broken)
    ensures r.Ok? ==>
              var h := Since(old(st.heard), st.heard);
              && |h| == 2 && BtcFund(c, h).Ok? && h[0].Key?
              && slate.pub == WithGrinLock(WithBtcKeys(c.start, h[0].p, PointOf(c.draws.sk), PointOf(c.draws.x),
                                                       LockHeightBtc(c)), r.value)
              && slate.sk == Some(c.draws.sk) && slate.x == Some(c.draws.x)
              && slate.lock == Some(BtcFund(c, h).value.lock) && slate.change == Some(BtcFund(c, h).value.change)
              && slate.pub.mw.amount == c.start.mw.amount
              && st.said == old(st.said) + [Key(PointOf(c.draws.sk)), Key(PointOf(c.draws.x)),
                                            Text(Print(LockHeightBtc(c))),
                                            Text(c.e.address(BtcFund(c, h).value.script)),
                                                Text(c.e.txid(BtcFund(c, h).value.tx))]
  {
    hide PointOf, FundWith, ParseI64;
    var told := TellTerms(c, slate, st);
    var a :- told;
    var published := PublishLock(c, slate, st, a, LockHeightBtc(c));
    var f :- published;
    var m1 := st.ReceiveMsg();
    assert Since(old(st.heard), st.heard) == [Key(a), m1];
    var text :- AsText(m1);
    var lockGrin := ParseI64(text);
    if lockGrin.None? {
      return Err(BadText);
    }
    slate.pub := slate.pub.(mw := slate.pub.mw.(lockTime := Some(lockGrin.value)));
    r := Ok(lockGrin.value);
  }

  /** Everything Bob says in the phase, in terms of what he hears. */
  function BtcLines(c: BtcSide, h: seq<Msg>): seq<Msg> {
    [BtcLine(c, 1, h), BtcLine(c, 2, h), BtcLine(c, 3, h), BtcLine(c, 4, h), BtcLine(c, 5, h),
     BtcLine(c, 9, h), BtcLine(c, 10, h), BtcLine(c, 12, h), BtcLine(c, 14, h)]
  }

  /** The two lines Bob sends in the shared coin's builder come from this. */
  function ShareReply(c: BtcSide, h: seq<Msg>): Result<(RecvResult, ProofContext)> {
    var s :- AsSlate(c.env, Nth(h, 0));
    var ctx :- AsContext(Nth(h, 1));
    DRecvCoinsR2(c.env, s, c.start.mw.amount, ctx, c.draws.share)
  }

  lemma BtcLinesSplit(c: BtcSide, h: seq<Msg>, share: seq<Msg>, refund: seq<Msg>, f: Funded, lockGrin: nat,
                      reply: (RecvResult, ProofContext),
                      sp: SpendResult, fin: Slate)
    requires |h| == 2 && |share| == 3 && h[0].Key? && BtcFund(c, h) == Ok(f) && BtcHear(c, h) == Ok(lockGrin)
    requires ShareReply(c, share) == Ok(reply) && AsSlate(c.env, Nth(share, 2)).Ok?
        && reply.0.coin.value >= c.env.txFee(1, 1, 1)
    requires DealSpend(c.env, Deal([reply.0.coin], reply.0.coin.value - c.env.txFee(1, 1, 1), lockGrin, 1, 3),
                       c.draws.spend) == Ok(sp)
    requires SharedInpA(c.env, reply.0.coin, reply.0.coin.value - c.env.txFee(1, 1, 1), lockGrin, c.draws.spend,
                        refund) == Ok(fin)
    requires f.lock.txid == c.e.txid(f.tx)
    ensures BtcLines(c, h + share + refund) ==
              [Key(PointOf(c.draws.sk)), Key(PointOf(c.draws.x)), Text(Print(LockHeightBtc(c))),
               Text(c.e.address(f.script)), Text(c.e.txid(f.tx)),
               SlateLine(reply.0.slate), Context(reply.1), SlateLine(sp.slate), SlateLine(fin)]
  {
    hide BtcFund, DRecvCoinsR2, DealSpend, SpendClose, FromV4, ToV4, PointOf, ParseI64;
    var all := h + share + refund;
    assert Nth(all, 0) == Nth(h, 0) && Nth(all, 1) == Nth(h, 1);
    assert BtcFund(c, all) == BtcFund(c, h) by { FundPrefix(c, all, 2); assert all[..2] == h; }
    FundedInTime(c, h);
    assert Nth(all, 2) == Nth(share, 0) && Nth(all, 3) == Nth(share, 1) && Nth(all, 4) == Nth(share, 2)
        && Nth(all, 5) == Nth(refund, 0);
  }

  lemma ShareOutBParts(c: BtcSide, h: seq<Msg>)
    requires ShareOutB(c.env, c.start.mw.amount, c.draws.share, h).Ok?
    ensures ShareReply(c, h).Ok? && ShareReply(c, h).value.0 == ShareOutB(c.env, c.start.mw.amount, c.draws.share,
        h).value.0
    ensures AsSlate(c.env, Nth(h, 2)).Ok?
  {
    hide DRecvCoinsR2, FromV4;
  }

  lemma FundedId(c: BtcSide, h: seq<Msg>)
    requires BtcFund(c, h).Ok?
    ensures BtcFund(c, h).value.lock.txid == c.e.txid(BtcFund(c, h).value.tx)
  {
    hide LockTx, P2pkhSigned, PointOf;
  }

  method LockingPhaseBtc(c: BtcSide, slate: SwapSlate, st: Stream) returns (r: Result<()>)
    requires slate.pub == c.start && slate.inputs == c.inputs
    modifies slate, st
    ensures old(st.heard) <= st.heard && (old(st.broken) ==> st.broken)
    ensures var n := BtcLock(c, Since(old(st.heard), st.heard));
            && (r.Ok? ==> n.Ok? && slate.HoldsBtc(n.value))
            && (r.Err? ==> n.Err? || st.broken)
    ensures r.Ok? ==> st.said == old(st.said) + BtcLines(c, Since(old(st.heard), st.heard))
  {
    hide PointOf, BtcFund, BtcHear, BtcLock, ShareOutB, SharedInpA, DealSpend, ToV4, Since, WithBtcKeys, DRecvCoinsR2,
         BtcLines, FromV4, SpendClose;
    var funding := FundLock(c, slate, st);
    ghost var before := st.heard;
    ghost var h := Since(old(st.heard), before);
    BtcLockNeeds(c, h);
    var lockGrin :- funding;
    var shared := DSharedOutBob(c.env, st, slate.pub.mw.amount, c.draws.share);
    ghost var after := st.heard;
    ghost var share := Since(before, after);
    SinceLength(before, after);
    Appended(old(st.heard), before, after);
    assert h + share == h + share + [];
    BtcLockSplits(c, h, share, []);
    var rc :- shared;
    slate.sharedCoin := Some(rc.0.coin);
    var fee := c.env.txFee(1, 1, 1);
    if rc.0.coin.value < fee || lockGrin < 0 {
      return Err(Overflow);
    }
    var fin := DSharedInpAlice(c.env, st, rc.0.coin, rc.0.coin.value - fee, lockGrin, c.draws.spend);
    Appended(old(st.heard), after, st.heard);
    BtcLockSplits(c, h, share, Since(after, st.heard));
    var final :- fin;
    ghost var sp := DealSpend(c.env, Deal([rc.0.coin], rc.0.coin.value - fee, lockGrin, 1, 3), c.draws.spend).value;
    FundedId(c, h);
    ShareOutBParts(c, share);
    BtcLinesSplit(c, h, share, Since(after, st.heard), BtcFund(c, h).value, lockGrin, ShareReply(c, share).value, sp,
                  final);
    r := Ok(());
  }

  // ---------------------------------------------------------------- execution

  lemma MwExecSplits(c: MwExec, X: Point, h: seq<Msg>)
    requires c.slate.pub.btc.pubX == Some(X) && c.slate.shared.value >= c.env.txFee(1, 1, 1)
    ensures CheckTime(c.slate.pub, c.grin, c.btc).Ok? ==>
              MwReveal(c, h) == ContractA(c.env, c.slate.shared, c.slate.shared.value - c.env.txFee(1, 1, 1), 0, X,
                                          c.spend, h)
  {
    hide CheckTime, DealSpend, ContractSign, ContractRead, FromV4;
  }

  lemma MwExecNeeds(c: MwExec, h: seq<Msg>)
    ensures MwExecute(c, h).Ok? ==>
              && CheckTime(c.slate.pub, c.grin, c.btc).Ok? && c.slate.pub.btc.pubX.Some?
              && c.slate.shared.value >= c.env.txFee(1, 1, 1) && MwReveal(c, h).Ok?
  {
    hide CheckTime, DealSpend, ContractSign, ContractRead, FromV4, RedeemTx;
  }

  /** Alice's side: time check, contract, extraction, redeem. */
  method ExecPhaseMw(c: MwExec, slate: SwapSlate, st: Stream) returns (r: Result<BtcTx>)
    requires slate.HoldsMw(c.slate)
    modifies slate, st
    ensures old(st.heard) <= st.heard && (old(st.broken) ==> st.broken)
    ensures var f := MwExecute(c, Since(old(st.heard), st.heard));
            && (r.Ok? ==> f.Ok? && r.value == f.value.redeem && slate.pub == f.value.pub)
            && (r.Ok? ==> slate.swapped == Some(f.value.swapped))
            && (r.Err? ==> f.Err? || st.broken)
    ensures r.Ok? ==>
              var h := Since(old(st.heard), st.heard);
              st.said == old(st.said) + [MwExecLine(c, 0, h), MwExecLine(c, 2, h)]
  {
    hide PointOf, CheckTime, ContractA, MwReveal, LockProgram, RedeemData, SpendLockTx, DealSpend, ContractSign, FromV4,
         ToV4, ContractRead;
    assert Since(st.heard, st.heard) == [];
    MwExecNeeds(c, []);
    var enough := CheckTime(slate.pub, c.grin, c.btc);
    if enough.Err? {
      return Err(enough.error);
    }
    slate.pub := slate.pub.(status := EXECUTING);
    var coin, fee := slate.sharedCoin.value, c.env.txFee(1, 1, 1);
    if slate.pub.btc.pubX.None? {
      return Err(BadKey);
    } else if coin.value < fee {
      return Err(Overflow);
    }
    var contract := DContractAlice(c.env, st, coin, coin.value - fee, 0, slate.pub.btc.pubX.value, c.spend);
    MwExecSplits(c, slate.pub.btc.pubX.value, Since(old(st.heard), st.heard));
    MwExecNeeds(c, Since(old(st.heard), st.heard));
    var w :- contract;
    var p := slate.pub.btc;
    if p.pubA.None? || p.pubB.None? || p.lockTime.None? {
      return Err(BadKey);
    }
    var unsigned :- SpendLockTx(c.e, PointOf(c.sk2), slate.lock.value, p.amount, BTC_FEE, 0);
    var script := LockProgram(c.e, p.pubA.value, p.pubX.value, p.pubB.value, p.lockTime.value);
    var tx := SignLockTransactionRedeemer(c.e, unsigned, 0, script, slate.sk.value, w);
    if |tx.outputs| == 0 {
      return Err(IndexOutOfBounds);
    }
    if !c.sent {
      return Err(NodeFailure);
    }
    slate.swapped := Some(BtcInput(c.e.txid(tx), 0, tx.outputs[0].value, c.sk2, PointOf(c.sk2), tx.outputs[0].script));
    slate.pub := slate.pub.(status := FINISHED);
    r := Ok(tx);
  }

  lemma BtcExecSplits(c: BtcExec, h: seq<Msg>)
    requires c.slate.shared.value >= c.env.txFee(1, 1, 1) && CheckTime(c.slate.pub, c.grin, c.btc).Ok?
    ensures var k := ContractB(c.env, c.slate.shared, c.slate.shared.value - c.env.txFee(1, 1, 1), 0, c.slate.x,
                               c.nonce, c.recv, h);
            && (BtcExecute(c, h).Ok? <==> k.Ok? && k.value.0.tx.Some? && c.pushed)
            && (BtcExecute(c, h).Ok? ==>
                  BtcExecute(c, h).value == BtcFinished(c.slate.pub.(status := FINISHED), k.value.1,
                                                        k.value.0.tx.value))
  {
    hide CheckTime, ContractRespond, ContractFinish, FromV4;
  }

  lemma BtcExecNeeds(c: BtcExec, h: seq<Msg>)
    ensures BtcExecute(c, h).Ok? ==>
              CheckTime(c.slate.pub, c.grin, c.btc).Ok? && c.slate.shared.value >= c.env.txFee(1, 1, 1)
  {
    hide CheckTime, ContractRespond, ContractFinish, FromV4;
  }

  /** Bob's side: time check, contract, push. */
  method ExecPhaseBtc(c: BtcExec, slate: SwapSlate, st: Stream) returns (r: Result<Transaction>)
    requires slate.HoldsBtc(c.slate)
    modifies slate, st
    ensures old(st.heard) <= st.heard && (old(st.broken) ==> st.broken)
    ensures var g := BtcExecute(c, Since(old(st.heard), st.heard));
            && (r.Ok? ==> g.Ok? && r.value == g.value.contract && slate.pub == g.value.pub)
            && (r.Ok? ==> slate.swappedCoin == Some(g.value.swapped))
            && (r.Err? ==> g.Err? || st.broken)
    ensures r.Ok? ==>
              var h := Since(old(st.heard), st.heard);
              st.said == old(st.said) + [BtcExecLine(c, 1, h), BtcExecLine(c, 3, h)]
  {
    hide CheckTime, BtcExecute, ContractRespond, ContractFinish, FromV4, ToV4;
    assert Since(st.heard, st.heard) == [];
    BtcExecNeeds(c, []);
    var enough := CheckTime(slate.pub, c.grin, c.btc);
    if enough.Err? {
      return Err(enough.error);
    }
    slate.pub := slate.pub.(status := EXECUTING);
    var coin, fee := slate.sharedCoin.value, c.env.txFee(1, 1, 1);
    if coin.value < fee {
      return Err(Overflow);
    }
    var contract := DContractBob(c.env, st, coin, coin.value - fee, 0, slate.x.value, c.nonce, c.recv);
    BtcExecSplits(c, Since(old(st.heard), st.heard));
    var k :- contract;
    slate.swappedCoin := Some(k.1);
    if k.0.tx.None? {
      return Err(NoTransaction);
    }
    if !c.pushed {
      return Err(NodeFailure);
    }
    slate.pub := slate.pub.(status := FINISHED);
    r := Ok(k.0.tx.value);
  }

  // ---------------------------------------------------------------- refund

  method RefundMw(m: MwLocked, slate: SwapSlate, grin: nat, btc: nat, pushed: bool) returns (r: Result<Transaction>)
    requires slate.HoldsMw(m)
    modifies slate`pub
    ensures match MwRefundPhase(m, grin, btc, pushed)
            case Ok(f) => r == Ok(f.tx) && slate.pub == f.pub
            case Err(e) => r == Err(e) && slate.pub == old(slate.pub)
  {
    var _ :- CheckRefund(slate.pub, grin, btc);
    if !pushed {
      return Err(NodeFailure);
    }
    slate.pub := slate.pub.(status := FAILED);
    r := Ok(slate.refundTx.value);
  }

  method RefundBtc(c: BtcRefunder, slate: SwapSlate) returns (r: Result<BtcTx>)
    requires slate.HoldsBtc(c.slate)
    modifies slate
    ensures match BtcRefundPhase(c)
            case Ok(f) => && r == Ok(f.tx) && slate.pub == f.pub && |f.tx.outputs| == 1
                          && slate.refunded == Some(BtcInput(c.e.txid(f.tx), 0, f.tx.outputs[0].value, c.sk2,
                                                             PointOf(c.sk2), f.tx.outputs[0].script))
            case Err(e) => r == Err(e) && slate.pub == old(slate.pub)
  {
    hide PointOf, LockProgram, RefundData, CheckRefund;
    var _ :- CheckRefund(slate.pub, c.grin, c.btc);
    var times :- LockTimes(slate.pub);
    var p := slate.pub.btc;
    if p.pubA.None? {
      return Err(BadKey);
    } else if times.1 >= U32 {
      return Err(Overflow);
    }
    var unsigned :- SpendLockTx(c.e, PointOf(c.sk2), slate.lock.value, p.amount, BTC_FEE, times.1);
    var script := LockProgram(c.e, p.pubA.value, PointOf(slate.x.value), PointOf(slate.sk.value), times.1);
    var tx := SignLockTransactionRefund(c.e, unsigned, 0, script, slate.sk.value);
    if !c.sent {
      return Err(NodeFailure);
    }
    slate.refunded := Some(BtcInput(c.e.txid(tx), 0, tx.outputs[0].value, c.sk2, PointOf(c.sk2), tx.outputs[0].script));
    slate.pub := slate.pub.(status := FAILED);
    r := Ok(tx);
  }
}
