/** The stages every two-party payment passes through, from the first spender's slate to the closing
    signature, and exactly which slates the closing party can finalise. */
module Stages {
  import opened Wrappers
  import opened Curve
  import opened Transactions
  import opened Slates
  import opened SlateProofs
  import opened Wire
  import opened Coins
  import opened CoinProofs

  // ---------------------------------------------------------------- closing a run

  /** What remains to be true of a slate on which everyone but the closing party has signed. */
  ghost predicate Publishable(env: Env, s: Slate, cs: seq<Secret>)
    requires s.tx.Some? && KernelFeatures(s).Ok?
  {
    var tx := s.tx.value;
    && |tx.kernels| == 1
    && env.txFee(|tx.inputs|, |tx.outputs|, 1) <= tx.kernels[0].features.fee
    && env.txFee(|tx.inputs|, |tx.outputs|, 1) <= s.amount + s.fee
    && Sum(OutValues(tx.outputs)) + tx.kernels[0].features.fee == Sum(InValues(tx.inputs))
    && Ledger(tx, Sum(Xs(cs)))
    && ChallengesCoincide(env, cs, KernelFeatures(s).value, tx.kernels[0].features)
  }

  ghost predicate AllTrue(bs: seq<bool>) { forall i :: 0 <= i < |bs| ==> bs[i] }

  lemma SignedFinalizeExact(env: Env, s: Slate, cs: seq<Secret>, signed: seq<bool>)
    requires Built(env, s, cs, signed) && Fresh(cs) && AllTrue(signed) && |cs| > 0
    requires s.tx.Some? && ProofsValid(env, s.tx.value)
    ensures Finalize(env, s).Ok? <==> Publishable(env, s, cs)
    ensures Finalize(env, s).Ok? ==>
              && Finalize(env, s).value.tx.Some?
              && TxValid(env, Finalize(env, s).value.tx.value)
              && Finalize(env, s).value == s.(tx := Finalize(env, s).value.tx)
              && Finalize(env, s).value.tx.value == s.tx.value.(kernels := Finalize(env, s).value.tx.value.kernels)
              && |s.tx.value.kernels| == 1 == |Finalize(env, s).value.tx.value.kernels|
              && Finalize(env, s).value.tx.value.kernels[0].features == s.tx.value.kernels[0].features
  {
    TotalsOfSecrets(env, s, cs, signed);
    HonestFinalize(env, s, cs, signed);
    if |s.tx.value.kernels| == 1 {
      KernelUnderOtherFeatures(env, s, cs, signed, s.tx.value.kernels[0].features);
      CongAdd(Sum(Keys(s.participants)), Sum(Xs(cs)), s.tx.value.offset, s.tx.value.offset);
    }
  }

  /** The closing party's fin_tx: it always gets to sign, and finalises exactly the publishable slates. */
  lemma FinTxExact(env: Env, s: Slate, cs: seq<Secret>, signed: seq<bool>, i: nat)
    requires Built(env, s, cs, signed) && Fresh(cs) && i < |cs| == NumParticipants(s)
    requires AllTrue(signed[i := true])
    requires s.tx.Some? && ProofsValid(env, s.tx.value)
    ensures FinTx(env, s, cs[i].x, cs[i].k, true, None, None).Ok? <==> Publishable(env, s, cs)
    ensures FinTx(env, s, cs[i].x, cs[i].k, true, None, None).Ok? ==>
              var f := FinTx(env, s, cs[i].x, cs[i].k, true, None, None).value;
              && f.tx.Some?
              && TxValid(env, f.tx.value)
              && f == s.(tx := f.tx, participants := f.participants)
              && f.tx.value == s.tx.value.(kernels := f.tx.value.kernels)
              && |s.tx.value.kernels| == 1 == |f.tx.value.kernels|
              && f.tx.value.kernels[0].features == s.tx.value.kernels[0].features
              && FillRound2(env, s, cs[i].x, cs[i].k).Ok?
              && Finalize(env, FillRound2(env, s, cs[i].x, cs[i].k).value) == Ok(f)
  {
    TotalsOfSecrets(env, s, cs, signed);
    SignEntry(env, s, cs, signed, i);
    var t := FillRound2(env, s, cs[i].x, cs[i].k).value;
    SignedFinalizeExact(env, t, cs, signed[i := true]);
    assert Publishable(env, t, cs) <==> Publishable(env, s, cs);
  }

  // ---------------------------------------------------------------- stages of a payment

  /** What the parties agreed to build: who spends what, for how much, under which lock, with how many
      announced outputs and participants. */
  datatype Deal = Deal(coins: seq<Coin>, fund: nat, timelock: nat, numOut: nat, numParts: nat)

  /** The features the participants sign under. */
  function TimelockFeatures(fee: nat, timelock: nat): Features {
    if timelock == 0 then Plain(fee) else HeightLocked(fee, timelock)
  }

  function DealFee(env: Env, d: Deal): nat { env.txFee(|d.coins|, d.numOut, 1) }

  function DealSurplus(env: Env, d: Deal): int { Surplus(env, d.coins, d.fund, d.numOut) }

  function DealFeatures(env: Env, d: Deal): Features { TimelockFeatures(DealFee(env, d), d.timelock) }

  /** A slate on its way through a deal: its table, and a transaction that spends the coins to the change and
      the outputs added so far, whose blinding factors the given keys account for. */
  ghost predicate Stage(env: Env, d: Deal, s: Slate, cs: seq<Secret>, signed: seq<bool>, changeKey: int,
                        outs: seq<Output>, keys: int) {
    && Built(env, s, cs, signed)
    && s.numParticipants == d.numParts > 0
    && s.amount == d.fund && s.fee == DealFee(env, d)
    && FeaturesMatch(s, d.timelock)
    && Readable(env, d.coins)
    && s.tx.Some?
    && s.tx.value.inputs == InputsFor(env, d.coins)
    && s.tx.value.outputs == ChangeOutputs(DealSurplus(env, d), changeKey) + outs
    && s.tx.value.offset == s.offset
    && ProofsValid(env, s.tx.value)
    && Ledger(s.tx.value, keys)
  }

  lemma StageFeatures(env: Env, d: Deal, s: Slate, cs: seq<Secret>, signed: seq<bool>, changeKey: int,
                      outs: seq<Output>, keys: int)
    requires Stage(env, d, s, cs, signed, changeKey, outs, keys)
    ensures KernelFeatures(s) == Ok(DealFeatures(env, d))
  {
  }

  ghost function DealSecret(env: Env, d: Deal, r: SpendRandom): Secret {
    SpendSecret(env, d.coins, d.fund, d.numOut, r)
  }

  function DealSpend(env: Env, d: Deal, r: SpendRandom): Result<SpendResult> {
    SpendCoins(env, d.coins, d.fund, d.timelock, d.numOut, d.numParts, r)
  }

  lemma SpendStage(env: Env, d: Deal, others: seq<int>, r: SpendRandom)
    requires AllOpen(env, d.coins, others) && d.numParts > 0
    requires SpendGuard(env, d.coins, d.fund, d.numOut).Ok?
    requires GoodSecret(DealSecret(env, d, r))
    ensures DealSpend(env, d, r).Ok?
    ensures var sp := DealSpend(env, d, r).value;
            var c := DealSecret(env, d, r);
            && sp.key == c.x && sp.nonce == c.k
            && sp.change == ChangeCoin(env, DealSurplus(env, d), r.changeKey)
            && Stage(env, d, sp.slate, [c], NoneSigned(1), r.changeKey, [], c.x - Sum(others))
  {
    hide Mod, Sum;
    SpendBuilds(env, d.coins, others, d.fund, d.timelock, d.numOut, d.numParts, r);
    var sp := DealSpend(env, d, r).value;
    assert sp.slate.tx.value.outputs == ChangeOutputs(DealSurplus(env, d), r.changeKey) + [];
    SurplusBound(env, d);
  }

  lemma SurplusBound(env: Env, d: Deal)
    requires SpendGuard(env, d.coins, d.fund, d.numOut).Ok?
    ensures DealSurplus(env, d) < U64
    ensures d.fund < U64
  {
  }

  lemma GuardFirst(env: Env, d: Deal, r: SpendRandom)
    ensures DealSpend(env, d, r).Ok? ==> SpendGuard(env, d.coins, d.fund, d.numOut).Ok?
    ensures SpendGuard(env, d.coins, d.fund, d.numOut).Ok? && d.numOut > 1 ==> DealSurplus(env, d) >= 0
  {
    hide Mod, Sum;
  }

  lemma CarryStage(env: Env, d: Deal, s: Slate, cs: seq<Secret>, signed: seq<bool>, changeKey: int, outs: seq<Output>,
                   keys: int)
    requires Stage(env, d, s, cs, signed, changeKey, outs, keys)
    ensures Stage(env, d, Carry(env, s), cs, signed, changeKey, outs, keys)
    ensures |Carry(env, s).tx.value.kernels| == 1
    ensures Carry(env, s).tx.value.kernels[0].features == Plain(DealFee(env, d))
  {
    hide Mod, Sum, Carry, Built;
    CarryBuilt(env, s, cs, signed);
  }

  lemma ReceiveStage(env: Env, d: Deal, s: Slate, cs: seq<Secret>, changeKey: int, keys: int, r: RecvRandom)
    requires Stage(env, d, s, cs, NoneSigned(|cs|), changeKey, [], keys)
    requires GoodSecret(Secret(r.key, r.nonce)) && DistinctNonces(cs + [Secret(r.key, r.nonce)]) && d.fund < U64
    ensures AddReceiver(env, s, d.fund, r).Ok?
    ensures var t := AddReceiver(env, s, d.fund, r).value;
            && Stage(env, d, t, cs + [Secret(r.key, r.nonce)], NoneSigned(|cs| + 1), changeKey,
                     [ReceiverOutput(d.fund, r)], keys + r.key)
            && |t.tx.value.kernels| == 1
            && t.tx.value.kernels[0].features == DealFeatures(env, d)
  {
    hide Mod, Sum, Built, Ledger, AddReceiver, ChangeOutputs;
    AddReceiverBuilds(env, s, cs, d.fund, r, keys);
    StageFeatures(env, d, s, cs, NoneSigned(|cs|), changeKey, [], keys);
  }

  lemma EntryStage(env: Env, d: Deal, s: Slate, cs: seq<Secret>, changeKey: int, outs: seq<Output>, keys: int,
                   c: Secret)
    requires Stage(env, d, s, cs, NoneSigned(|cs|), changeKey, outs, keys)
    requires GoodSecret(c) && DistinctNonces(cs + [c])
    ensures FillRound1(s, c.x, c.k).Ok?
    ensures Stage(env, d, FillRound1(s, c.x, c.k).value, cs + [c], NoneSigned(|cs| + 1), changeKey, outs, keys)
  {
    hide Mod, Sum, FillRound1, Ledger, ChangeOutputs;
    AddEntry(env, s, cs, c);
  }

  lemma SharedSpendStage(env: Env, d: Deal, s: Slate, cs: seq<Secret>, changeKey: int, keys: int, coin: Coin,
                         nonce: int)
    requires Stage(env, d, s, cs, NoneSigned(|cs|), changeKey, [], keys) && |d.coins| == 1
    requires GoodSecret(Secret(0 - coin.blind, nonce)) && DistinctNonces(cs + [Secret(0 - coin.blind, nonce)])
    ensures DSpendCoins(env, [coin], s, d.fund, d.timelock, nonce).Ok?
    ensures var r := DSpendCoins(env, [coin], s, d.fund, d.timelock, nonce).value;
            && r.key == 0 - coin.blind && r.nonce == nonce
            && Stage(env, d, r.slate, cs + [Secret(0 - coin.blind, nonce)], NoneSigned(|cs| + 1), changeKey, [], keys)
  {
    hide Mod, Sum, DSpendCoins, Ledger, ChangeOutputs, Built;
    DSpendBuilds(env, coin, s, cs, d.fund, d.timelock, nonce);
  }

  lemma OutputStage(env: Env, d: Deal, s: Slate, cs: seq<Secret>, signed: seq<bool>, changeKey: int, keys: int,
                    o: Output, blind: int)
    requires Stage(env, d, s, cs, signed, changeKey, [], keys)
    requires VerifyProof(env, o.commit, o.proof) && o.commit.r == Mod(blind)
    ensures Stage(env, d, s.(tx := Some(WithOutput(s.tx.value, o))), cs, signed, changeKey, [o], keys + blind)
  {
    hide Mod, Sum, Built, Ledger, ChangeOutputs;
    var t := s.(tx := Some(WithOutput(s.tx.value, o)));
    LedgerAddOutput(s.tx.value, keys, o, blind);
    BuiltIgnoresTx(env, s, t, cs, signed);
    assert t.tx.value.outputs == ChangeOutputs(DealSurplus(env, d), changeKey) + [o];
  }

  lemma KernelStage(env: Env, d: Deal, s: Slate, cs: seq<Secret>, signed: seq<bool>, changeKey: int, outs: seq<Output>,
                    keys: int)
    requires Stage(env, d, s, cs, signed, changeKey, outs, keys)
    ensures UpdateKernel(s).Ok?
    ensures var t := UpdateKernel(s).value;
            && Stage(env, d, t, cs, signed, changeKey, outs, keys)
            && UpdateKernel(t) == Ok(t)
            && |t.tx.value.kernels| == 1
            && t.tx.value.kernels[0].features == DealFeatures(env, d)
            && t == s.(tx := t.tx)
  {
    hide Mod, Sum, Built, ChangeOutputs;
    StageFeatures(env, d, s, cs, signed, changeKey, outs, keys);
    var t := UpdateKernel(s).value;
    BuiltIgnoresTx(env, s, t, cs, signed);
  }

  function ReceiverOutput(fund: nat, r: RecvRandom): Output {
    Output(PlainOutput, Commit(fund, r.key), Bullet(fund, r.key))
  }

  lemma SignStage(env: Env, d: Deal, s: Slate, cs: seq<Secret>, signed: seq<bool>, changeKey: int, outs: seq<Output>,
                  keys: int, i: nat)
    requires Stage(env, d, s, cs, signed, changeKey, outs, keys) && Fresh(cs)
    requires i < |cs| == d.numParts
    ensures FillRound2(env, s, cs[i].x, cs[i].k).Ok?
    ensures var t := FillRound2(env, s, cs[i].x, cs[i].k).value;
            && Stage(env, d, t, cs, signed[i := true], changeKey, outs, keys)
            && t.tx == s.tx
  {
    hide Mod, Sum, FillRound2, Ledger, ChangeOutputs;
    TotalsOfSecrets(env, s, cs, signed);
    SignEntry(env, s, cs, signed, i);
  }

  /** The fee allows for the outputs there are. */
  ghost predicate FeeCovers(env: Env, d: Deal) {
    env.txFee(|d.coins|, if DealSurplus(env, d) > 0 then 2 else 1, 1) <= DealFee(env, d)
  }

  /** The checks a payment to one output of the fund value must still pass. */
  ghost predicate Sound(env: Env, d: Deal, cs: seq<Secret>, kernel: Features) {
    && DealSurplus(env, d) >= 0
    && FeeCovers(env, d)
    && ChallengesCoincide(env, cs, DealFeatures(env, d), kernel)
  }

  lemma PaymentChecks(env: Env, d: Deal, others: seq<int>, changeKey: int, o: Output, s: Slate)
    requires AllOpen(env, d.coins, others) && Readable(env, d.coins) && o.commit.v == d.fund
    requires s.tx.Some? && s.tx.value.inputs == InputsFor(env, d.coins)
    requires s.tx.value.outputs == ChangeOutputs(DealSurplus(env, d), changeKey) + [o]
    requires |s.tx.value.kernels| == 1
    requires s.fee == s.tx.value.kernels[0].features.fee == DealFee(env, d)
    ensures var fee := env.txFee(|s.tx.value.inputs|, |s.tx.value.outputs|, 1);
            fee <= s.tx.value.kernels[0].features.fee && fee <= s.amount + s.fee <==> FeeCovers(env, d)
    ensures Sum(OutValues(s.tx.value.outputs)) + s.tx.value.kernels[0].features.fee == Sum(InValues(s.tx.value.inputs))
       <==> DealSurplus(env, d) >= 0
  {
    hide Sum, Mod;
    SpendBalance(env, d.coins, others, d.fund, d.numOut, changeKey, o);
    var k := s.tx.value.kernels[0];
    assert s.tx.value.kernels == [k];
    SingleKernelSums(k);
    assert |s.tx.value.outputs| == if DealSurplus(env, d) > 0 then 2 else 1;
  }

  /** A valid transaction that spends exactly these coins to one payment, under this kernel; what is left after the
      payment and the fee goes to one more output, and there is none without a surplus. */
  ghost predicate Paid(env: Env, coins: seq<Coin>, fund: nat, fee: nat, kernel: Features, tx: Transaction,
                       payment: Commitment) {
    var surplus := Sum(Values(coins)) - fund - fee;
    && TxValid(env, tx)
    && |tx.inputs| == |coins|
    && (forall i :: 0 <= i < |coins| ==>
          tx.inputs[i].features.PlainOutput? && env.readCommit(coins[i].text) == Some(tx.inputs[i].commit))
    && (forall i :: 0 <= i < |tx.outputs| ==> tx.outputs[i].features.PlainOutput?)
    && |tx.outputs| == (if surplus > 0 then 2 else 1)
    && (surplus > 0 ==> tx.outputs[0].commit.v == surplus)
    && tx.outputs[|tx.outputs| - 1].commit == payment && payment.v == fund
    && |tx.kernels| == 1 && tx.kernels[0].features == kernel && kernel.fee == fee
  }

  /** A coin its owner can spend alone: it opens to its value under the stored blinding factor, and an output of the
      transaction commits to just that. */
  ghost predicate Owns(env: Env, tx: Transaction, coin: Coin, value: int) {
    && coin.value == value
    && env.readCommit(coin.text) == Some(Commit(coin.value, coin.blind))
    && exists i :: 0 <= i < |tx.outputs| && tx.outputs[i].commit == Commit(coin.value, coin.blind)
  }

  /** The change coin handed out is the spender's and worth the surplus; there is one exactly when something is left. */
  ghost predicate ChangeRight(env: Env, tx: Transaction, surplus: int, change: Option<Coin>) {
    (change.Some? <==> surplus > 0) && (change.Some? ==> Owns(env, tx, change.value, surplus))
  }

  /** Closing a staged payment leaves just that. */
  lemma ClosedPays(env: Env, d: Deal, s: Slate, f: Slate, cs: seq<Secret>, signed: seq<bool>, changeKey: int, o: Output,
                   keys: int)
    requires GoodEnv(env) && Stage(env, d, s, cs, signed, changeKey, [o], keys) && Closed(env, s, f)
    requires o.commit.v == d.fund && o.features.PlainOutput? && s.tx.value.kernels[0].features.fee == DealFee(env, d)
    ensures Paid(env, d.coins, d.fund, env.txFee(|d.coins|, d.numOut, 1), s.tx.value.kernels[0].features, f.tx.value,
                 o.commit)
    ensures ChangeRight(env, f.tx.value, Sum(Values(d.coins)) - d.fund - env.txFee(|d.coins|, d.numOut, 1),
                        ChangeCoin(env, DealSurplus(env, d), changeKey))
  {
    hide Mod, Sum, Built, Ledger, ProofsValid, TxValid, Commit;
    var tx := f.tx.value;
    assert tx.outputs == ChangeOutputs(DealSurplus(env, d), changeKey) + [o];
    if DealSurplus(env, d) > 0 {
      assert tx.outputs[0].commit == Commit(DealSurplus(env, d), changeKey);
      CommitValue(DealSurplus(env, d), changeKey);
    }
  }

  lemma CommitValue(v: int, r: int)
    ensures Commit(v, r).v == v
  {
  }

  /** What a receiver stores opens the output it added. */
  lemma ReceivedOwns(env: Env, tx: Transaction, fund: nat, key: int)
    requires GoodEnv(env) && |tx.outputs| > 0 && tx.outputs[|tx.outputs| - 1].commit == Commit(fund, key)
    ensures Owns(env, tx, NewCoin(env, Commit(fund, key), key, fund), fund)
  {
    hide Mod, Commit;
  }

  /** One coin spent for this value at the fee of one output: it has to cover both, and any surplus must find its
      second output covered by that fee too. */
  ghost predicate SingleSpend(env: Env, coin: Coin, fund: nat) {
    && Fundable(env, [coin], fund, 1)
    && fund + env.txFee(1, 1, 1) <= coin.value
    && (fund + env.txFee(1, 1, 1) < coin.value ==> env.txFee(1, 2, 1) <= env.txFee(1, 1, 1))
  }

  lemma SingleSpendExact(env: Env, coin: Coin, fund: nat, timelock: nat, numParts: nat)
    ensures var d := Deal([coin], fund, timelock, 1, numParts);
            SingleSpend(env, coin, fund) <==>
              SpendGuard(env, [coin], fund, 1).Ok? && DealSurplus(env, d) >= 0 && FeeCovers(env, d)
  {
    hide Sum, SpendGuard;
    GuardExact(env, [coin], fund, 1);
    assert Values([coin]) == [] + [coin.value as int];
    SumAppend([], coin.value);
    assert Sum([]) == 0 by { EmptyTotal(); }
  }

  lemma EmptyTotal()
    ensures Sum([]) == 0
  {
  }

  /** The last signer's fin_tx on a payment with everybody else's signature. */
  lemma CloseStage(env: Env, d: Deal, others: seq<int>, s: Slate, cs: seq<Secret>, signed: seq<bool>, changeKey: int,
                   o: Output, i: nat)
    requires Stage(env, d, s, cs, signed, changeKey, [o], Sum(Xs(cs))) && Fresh(cs)
    requires AllOpen(env, d.coins, others) && o.commit.v == d.fund
    requires i < |cs| == d.numParts && AllTrue(signed[i := true])
    requires |s.tx.value.kernels| == 1 && s.tx.value.kernels[0].features.fee == DealFee(env, d)
    ensures FinTx(env, s, cs[i].x, cs[i].k, true, None, None).Ok? <==> Sound(env, d, cs, s.tx.value.kernels[0].features)
    ensures FinTx(env, s, cs[i].x, cs[i].k, true, None, None).Ok? ==>
              Closed(env, s, FinTx(env, s, cs[i].x, cs[i].k, true, None, None).value)
    ensures FinTx(env, s, cs[i].x, cs[i].k, true, None, None).Ok? && d.timelock == 0
              && s.tx.value.kernels[0].features == Plain(DealFee(env, d)) ==>
              Carry(env, FinTx(env, s, cs[i].x, cs[i].k, true, None, None).value)
              == FinTx(env, s, cs[i].x, cs[i].k, true, None, None).value
  {
    hide Mod, Sum, FinTx, Ledger, ChallengesCoincide, ChangeOutputs, FeeCovers, CheckFees, Fresh, FillRound2, Finalize,
         TxValid;
    FinTxExact(env, s, cs, signed, i);
    PaymentChecks(env, d, others, changeKey, o, s);
    StageFeatures(env, d, s, cs, signed, changeKey, [o], Sum(Xs(cs)));
    if FinTx(env, s, cs[i].x, cs[i].k, true, None, None).Ok? && d.timelock == 0
       && s.tx.value.kernels[0].features == Plain(DealFee(env, d)) {
      SignStage(env, d, s, cs, signed, changeKey, [o], Sum(Xs(cs)), i);
      PlainRoundTrip(env, FillRound2(env, s, cs[i].x, cs[i].k).value);
    }
  }

  /** Closing keeps the signatures: everyone's honest one. */
  lemma ClosedSignatures(env: Env, d: Deal, s: Slate, cs: seq<Secret>, signed: seq<bool>, changeKey: int,
                         outs: seq<Output>, keys: int, i: nat)
    requires Stage(env, d, s, cs, signed, changeKey, outs, keys) && Fresh(cs)
    requires i < |cs| == d.numParts && AllTrue(signed[i := true])
    requires FinTx(env, s, cs[i].x, cs[i].k, true, None, None).Ok?
    ensures var f := FinTx(env, s, cs[i].x, cs[i].k, true, None, None).value;
            && KernelFeatures(s).Ok? && |f.participants| == |cs|
            && forall j :: 0 <= j < |cs| ==>
                 f.participants[j] == Participant(PointOf(cs[j].x), PointOf(cs[j].k), Some(HonestSig(env, s, cs[j])))
  {
    hide Mod, Sum, Ledger, ChangeOutputs, FillRound2, TxValid;
    SignStage(env, d, s, cs, signed, changeKey, outs, keys, i);
    var t := FillRound2(env, s, cs[i].x, cs[i].k).value;
    StageFeatures(env, d, s, cs, signed, changeKey, outs, keys);
    StageFeatures(env, d, t, cs, signed[i := true], changeKey, outs, keys);
    TotalsOfSecrets(env, s, cs, signed);
    TotalsOfSecrets(env, t, cs, signed[i := true]);
    forall j | 0 <= j < |cs| ensures HonestSig(env, t, cs[j]) == HonestSig(env, s, cs[j]) { }
  }

  /** A slate with the body of a staged one and an honest table is staged too. */
  lemma Restage(env: Env, d: Deal, s: Slate, t: Slate, cs: seq<Secret>, signed: seq<bool>, signed': seq<bool>,
                changeKey: int, outs: seq<Output>, keys: int)
    requires Stage(env, d, s, cs, signed, changeKey, outs, keys)
    requires t == s.(tx := t.tx, participants := t.participants) && t.tx.Some?
    requires t.tx.value == s.tx.value.(kernels := t.tx.value.kernels)
    requires Built(env, t, cs, signed')
    ensures Stage(env, d, t, cs, signed', changeKey, outs, keys)
  {
    hide Mod, Sum, ChangeOutputs, Built;
  }

  /** A closed slate whose kernel was rebuilt before closing: the peer rebuilds, finalises and gets the same. */
  lemma RebuiltStage(env: Env, d: Deal, s: Slate, cs: seq<Secret>, signed: seq<bool>, changeKey: int, outs: seq<Output>,
                     keys: int, i: nat)
    requires Stage(env, d, s, cs, signed, changeKey, outs, keys) && Fresh(cs)
    requires i < |cs| == d.numParts && UpdateKernel(s) == Ok(s)
    requires FinTx(env, s, cs[i].x, cs[i].k, true, None, None).Ok?
    ensures var f := FinTx(env, s, cs[i].x, cs[i].k, true, None, None).value;
            && UpdateKernel(Carry(env, f)).Ok?
            && Finalize(env, UpdateKernel(Carry(env, f)).value) == Ok(f)
  {
    hide Mod, Sum, Ledger, ChangeOutputs, FillRound2, Finalize, TxValid, Carry;
    SignStage(env, d, s, cs, signed, changeKey, outs, keys, i);
    var t := FillRound2(env, s, cs[i].x, cs[i].k).value;
    StageFeatures(env, d, s, cs, signed, changeKey, outs, keys);
    StageFeatures(env, d, t, cs, signed[i := true], changeKey, outs, keys);
    RebuiltAgreement(env, t);
  }

  /** A finalised slate: a valid transaction with the same body and kernel features. */
  ghost predicate Closed(env: Env, s: Slate, f: Slate)
    requires s.tx.Some?
  {
    && f.tx.Some?
    && TxValid(env, f.tx.value)
    && f == s.(tx := f.tx, participants := f.participants)
    && f.tx.value == s.tx.value.(kernels := f.tx.value.kernels)
    && |s.tx.value.kernels| == 1 == |f.tx.value.kernels|
    && f.tx.value.kernels[0].features == s.tx.value.kernels[0].features
  }
}
