/** The swap slate, its initial form, the timing rules and the loop that waits for the locked bitcoin. */
module SwapState {
  import opened Wrappers
  import opened Curve

  datatype Status = INITIALIZED | SETUP | EXECUTING | FINISHED | FAILED

  datatype Currency = BTC | GRIN

  datatype MwPub = MwPub(amount: nat, timelock: nat, lockTime: Option<int>, offered: bool)

  datatype BtcPub = BtcPub(amount: nat, timelock: nat, offered: bool, lockTime: Option<int>,
                           pubA: Option<Point>, pubB: Option<Point>, pubX: Option<Point>)

  datatype Meta = Meta(server: string, port: string)

  /** The part of the swap slate both parties hold and whose checksum they compare. */
  datatype PubSlate = PubSlate(status: Status, mw: MwPub, btc: BtcPub, meta: Meta)

  const BTC_BLOCK_TIME: nat := 10
  const GRIN_BLOCK_TIME: nat := 1
  const MAX_ATTEMPTS: nat := 120

  // ---------------------------------------------------------------- init

  function InitSlate(from: Currency, to: Currency, fromAmount: nat, toAmount: nat, minutes: nat,
                     meta: Meta): Option<PubSlate> {
    if from == to then None
    else Some(PubSlate(INITIALIZED,
      MwPub(if from == GRIN then fromAmount else toAmount, minutes / GRIN_BLOCK_TIME, None, from == GRIN),
      BtcPub(if from == BTC then fromAmount else toAmount, minutes / BTC_BLOCK_TIME, from == BTC, None, None, None,
             None),
      meta))
  }

  /** What init puts on a fresh slate: the amounts by currency, which side offers, and the minutes in blocks of either
      chain; nothing is agreed on yet. */
  lemma InitExact(from: Currency, to: Currency, fromAmount: nat, toAmount: nat, minutes: nat, meta: Meta, s: PubSlate)
    ensures InitSlate(from, to, fromAmount, toAmount, minutes, meta) == Some(s) <==>
              (&& from != to && s.status == INITIALIZED && s.meta == meta
               && (from == BTC ==> s.btc.amount == fromAmount && s.mw.amount == toAmount)
               && (from == GRIN ==> s.mw.amount == fromAmount && s.btc.amount == toAmount)
               && (s.btc.offered <==> from == BTC) && (s.mw.offered <==> from == GRIN)
               && s.mw.timelock == minutes && s.btc.timelock == minutes / 10
               && s.mw.lockTime == s.btc.lockTime == None
               && s.btc.pubA == s.btc.pubB == s.btc.pubX == None)
  {
    if from != to && s.status == INITIALIZED {
      assert s == PubSlate(s.status, MwPub(s.mw.amount, s.mw.timelock, s.mw.lockTime, s.mw.offered),
                           BtcPub(s.btc.amount, s.btc.timelock, s.btc.offered, s.btc.lockTime, s.btc.pubA, s.btc.pubB,
                                  s.btc.pubX), s.meta);
    }
  }

  // ---------------------------------------------------------------- timing

  /** Both lock heights are an hour of blocks away. */
  predicate EnoughTime(lockGrin: int, lockBtc: int, grin: nat, btc: nat) {
    grin + 60 / GRIN_BLOCK_TIME <= lockGrin && btc + 60 / BTC_BLOCK_TIME <= lockBtc
  }

  /** Both lock heights have passed. */
  predicate CanRefund(lockGrin: int, lockBtc: int, grin: nat, btc: nat) {
    grin > lockGrin && btc > lockBtc
  }

  // ---------------------------------------------------------------- waiting for funds

  /** The outcome of polling from the i-th balance answer on. */
  function Poll(balances: nat -> nat, amount: nat, i: nat): bool
    requires i <= MAX_ATTEMPTS
    decreases MAX_ATTEMPTS - i
  {
    if i == MAX_ATTEMPTS then false
    else if balances(i) > 0 then balances(i) == amount
    else Poll(balances, amount, i + 1)
  }

  /** The first positive one of the first 120 balances is the amount. */
  ghost predicate Shows(balances: nat -> nat, amount: nat) {
    exists i :: 0 <= i < 120 && balances(i) == amount > 0 && forall j :: 0 <= j < i ==> balances(j) == 0
  }

  lemma {:induction false} PollFrom(balances: nat -> nat, amount: nat, i: nat)
    requires i <= MAX_ATTEMPTS && forall j :: 0 <= j < i ==> balances(j) == 0
    ensures Poll(balances, amount, i) <==> Shows(balances, amount)
    decreases MAX_ATTEMPTS - i
  {
    if i < MAX_ATTEMPTS && balances(i) == 0 {
      PollFrom(balances, amount, i + 1);
    }
  }

  lemma PollExact(balances: nat -> nat, amount: nat)
    ensures Poll(balances, amount, 0) <==> Shows(balances, amount)
  {
    PollFrom(balances, amount, 0);
  }

  /** The verification loop: at most MAX_ATTEMPTS answers are asked for, and the loop succeeds exactly when the
      first positive answer among them is the agreed amount. */
  method VerifyFunds(balances: nat -> nat, amount: nat) returns (verified: bool, polls: nat)
    ensures polls <= MAX_ATTEMPTS
    ensures verified == Poll(balances, amount, 0)
    ensures verified <==> exists i :: 0 <= i < MAX_ATTEMPTS && balances(i) == amount > 0 && forall j :: 0 <= j < i ==>
        balances(j) == 0
    ensures forall j :: 0 <= j < polls - 1 ==> balances(j) == 0
  {
    verified := false;
    polls := 0;
    var attempts := 0;
    while !verified && attempts < MAX_ATTEMPTS
      invariant polls <= MAX_ATTEMPTS && attempts <= MAX_ATTEMPTS
      invariant !verified && attempts < MAX_ATTEMPTS ==> polls == attempts
      invariant !verified && attempts < MAX_ATTEMPTS ==> Poll(balances, amount, attempts) == Poll(balances, amount, 0)
      invariant !verified && attempts < MAX_ATTEMPTS ==> forall j :: 0 <= j < polls ==> balances(j) == 0
      invariant forall j :: 0 <= j < polls - 1 ==> balances(j) == 0
      invariant verified ==> polls > 0 && balances(polls - 1) == amount > 0 && Poll(balances, amount, 0)
      invariant !verified && attempts == MAX_ATTEMPTS ==>
                  !Poll(balances, amount, 0)
                  && ((polls == MAX_ATTEMPTS && balances(polls - 1) == 0)
                   || (polls > 0 && balances(polls - 1) > 0 && balances(polls - 1) != amount))
      decreases !verified, MAX_ATTEMPTS - attempts
    {
      var balance := balances(polls);
      polls := polls + 1;
      if balance > 0 {
        if balance != amount {
          attempts := MAX_ATTEMPTS;
        } else {
          verified := true;
        }
      } else {
        attempts := attempts + 1;
      }
    }
    assert verified ==> 0 <= polls - 1 < MAX_ATTEMPTS && forall j :: 0 <= j < polls - 1 ==> balances(j) == 0;
  }

  // ---------------------------------------------------------------- runs with non-decreasing heights

  /** Heights one after another, as both nodes report them over time. */
  ghost predicate Rising(grin: seq<nat>, btc: seq<nat>) {
    |grin| == |btc| && forall i, j :: 0 <= i <= j < |grin| ==> grin[i] <= grin[j] && btc[i] <= btc[j]
  }

  /** Over any history of heights, execution is possible exactly while an hour of blocks is left on both chains and a
      refund exactly once both locks have passed; the two are never both possible, and a refund starts at least 61 Grin
      and 7 Bitcoin blocks after any execution. */
  lemma TimingExclusion(lockGrin: int, lockBtc: int, grin: seq<nat>, btc: seq<nat>, i: nat, j: nat)
    requires Rising(grin, btc) && i < |grin| && j < |grin|
    ensures EnoughTime(lockGrin, lockBtc, grin[i], btc[i]) <==> grin[i] + 60 <= lockGrin && btc[i] + 6 <= lockBtc
    ensures CanRefund(lockGrin, lockBtc, grin[j], btc[j]) <==> grin[j] > lockGrin && btc[j] > lockBtc
    ensures EnoughTime(lockGrin, lockBtc, grin[i], btc[i]) && CanRefund(lockGrin, lockBtc, grin[j], btc[j]) ==>
              i < j && grin[j] >= grin[i] + 61 && btc[j] >= btc[i] + 7
  {
    var early, late := if i <= j then i else j, if i <= j then j else i;
    assert grin[early] <= grin[late];
  }
}
