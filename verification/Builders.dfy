/** The plain and shared transaction builders, as honest runs of both endpoints over the wire, and exactly
    when such a run ends in a valid transaction. */
module Builders {
  import opened Wrappers
  import opened Curve
  import opened Transactions
  import opened Slates
  import opened SlateProofs
  import opened Wire
  import opened Coins
  import opened CoinProofs
  import opened SharedCoin
  import opened Stages

  // ---------------------------------------------------------------- what receivers store

  lemma ReceivedCoin(env: Env, s: Slate, fund: nat, r: RecvRandom)
    ensures RecvCoins(env, s, fund, r).Ok? ==>
              RecvCoins(env, s, fund, r).value.coin == NewCoin(env, Commit(fund, r.key), r.key, fund)
  {
    hide Mod, AddReceiver, FillRound2, Commit;
  }

  lemma SomeOutput(env: Env, coins: seq<Coin>, fund: nat, fee: nat, tx: Transaction, payment: Commitment)
    requires exists m :: Paid(env, coins, fund, fee, m, tx, payment)
    ensures |tx.outputs| > 0 && tx.outputs[|tx.outputs| - 1].commit == payment
  {
    hide TxValid, Sum;
  }

  lemma OneTotal(c: Coin)
    ensures Sum(Values([c])) == c.value
  {
    assert Values([c]) == [] + [c.value as int];
    SumAppend([], c.value);
  }

  // ---------------------------------------------------------------- dBuildMWTx

  datatype BuildOutcome = BuildOutcome(alice: Slate, bob: Slate, change: Option<Coin>, coin: Coin)

  function DBuild(env: Env, coins: seq<Coin>, fund: nat, timelock: nat, ra: SpendRandom,
                  rb: RecvRandom): Result<BuildOutcome> {
    var sp :- DealSpend(env, Deal(coins, fund, timelock, 2, 2), ra);
    var rc :- RecvCoins(env, Carry(env, sp.slate), fund, rb);
    var fin :- FinTx(env, Carry(env, rc.slate), sp.key, sp.nonce, true, None, None);
    Ok(BuildOutcome(fin, Carry(env, fin), sp.change, rc.coin))
  }

  lemma DBuildToClose(env: Env, d: Deal, ra: SpendRandom, rb: RecvRandom)
    requires d.numOut == 2 && d.numParts == 2 && AllOpen(env, d.coins, Zeros(|d.coins|))
    requires Fresh([DealSecret(env, d, ra), Secret(rb.key, rb.nonce)])
    requires SpendGuard(env, d.coins, d.fund, 2).Ok?
    ensures DealSpend(env, d, ra).Ok?
    ensures var sp := DealSpend(env, d, ra).value;
            var cs := [DealSecret(env, d, ra), Secret(rb.key, rb.nonce)];
            && sp.key == cs[0].x && sp.nonce == cs[0].k
            && sp.change == ChangeCoin(env, DealSurplus(env, d), ra.changeKey)
            && RecvCoins(env, Carry(env, sp.slate), d.fund, rb).Ok?
            && var rc := RecvCoins(env, Carry(env, sp.slate), d.fund, rb).value;
               && Stage(env, d, Carry(env, rc.slate), cs, [false, true], ra.changeKey, [ReceiverOutput(d.fund, rb)],
                        Sum(Xs(cs)))
               && |Carry(env, rc.slate).tx.value.kernels| == 1
               && Carry(env, rc.slate).tx.value.kernels[0].features == Plain(DealFee(env, d))
  {
    hide Mod, Sum, SpendGuard, FillRound2, AddReceiver, Carry, Stage, DealSpend, Surplus, DealSecret;
    var c0, c1 := DealSecret(env, d, ra), Secret(rb.key, rb.nonce);
    var cs := [c0, c1];
    assert GoodSecret(cs[0]) && GoodSecret(cs[1]) && [c0] + [c1] == cs;
    SumZeros(|d.coins|);
    SurplusBound(env, d);
    SpendStage(env, d, Zeros(|d.coins|), ra);
    var sp := DealSpend(env, d, ra).value;
    CarryStage(env, d, sp.slate, [c0], NoneSigned(1), ra.changeKey, [], c0.x);
    var w0 := Carry(env, sp.slate);
    ReceiveStage(env, d, w0, [c0], ra.changeKey, c0.x, rb);
    var t := AddReceiver(env, w0, d.fund, rb).value;
    TwoSecrets(c0, c1);
    SignStage(env, d, t, cs, NoneSigned(2), ra.changeKey, [ReceiverOutput(d.fund, rb)], Sum(Xs(cs)), 1);
    assert NoneSigned(2)[1 := true] == [false, true];
    var rc := RecvCoins(env, w0, d.fund, rb).value;
    CarryStage(env, d, rc.slate, cs, [false, true], ra.changeKey, [ReceiverOutput(d.fund, rb)], Sum(Xs(cs)));
  }

  /** An honest dBuildMWTx run ends in a valid transaction exactly when the inputs pass spend_coins and the
      transaction is not time-locked (or the two kernel messages share their challenge): Alice never rebuilds
      the kernel after the wire has made it plain. */
  lemma DBuildExact(env: Env, coins: seq<Coin>, fund: nat, timelock: nat, ra: SpendRandom, rb: RecvRandom)
    requires GoodEnv(env) && AllOpen(env, coins, Zeros(|coins|))
    requires Fresh([SpendSecret(env, coins, fund, 2, ra), Secret(rb.key, rb.nonce)])
    ensures DBuild(env, coins, fund, timelock, ra, rb).Ok? <==>
              (Fundable(env, coins, fund, 2)
               && ChallengesCoincide(env, [SpendSecret(env, coins, fund, 2, ra), Secret(rb.key, rb.nonce)],
                 TimelockFeatures(env.txFee(|coins|, 2, 1), timelock), Plain(env.txFee(|coins|, 2, 1))))
    ensures DBuild(env, coins, fund, timelock, ra, rb).Ok? ==>
              var res := DBuild(env, coins, fund, timelock, ra, rb).value;
              var fee := env.txFee(|coins|, 2, 1);
              && res.alice.tx.Some? && res.bob == Carry(env, res.alice) && (timelock == 0 ==> res.bob == res.alice)
              && Paid(env, coins, fund, fee, Plain(fee), res.alice.tx.value, Commit(fund, rb.key))
              && ChangeRight(env, res.alice.tx.value, Sum(Values(coins)) - fund - fee, res.change)
              && Owns(env, res.alice.tx.value, res.coin, fund)
  {
    hide Mod, Sum, FillRound2, RecvCoins, Carry, Stage, FinTx, ChallengesCoincide, DealSpend, SpendSecret, TxValid,
         Fresh, Paid, ChangeRight, Owns, Commit, Fundable, SpendGuard;
    var d := Deal(coins, fund, timelock, 2, 2);
    GuardFirst(env, d, ra);
    GuardExact(env, coins, fund, 2);
    if SpendGuard(env, coins, fund, 2).Ok? {
      var cs := [DealSecret(env, d, ra), Secret(rb.key, rb.nonce)];
      DBuildToClose(env, d, ra, rb);
      var sp := DealSpend(env, d, ra).value;
      var w1 := Carry(env, RecvCoins(env, Carry(env, sp.slate), fund, rb).value.slate);
      CommitValue(fund, rb.key);
      CloseStage(env, d, Zeros(|coins|), w1, cs, [false, true], ra.changeKey, ReceiverOutput(fund, rb), 0);
      assert FeeCovers(env, d);
      if FinTx(env, w1, cs[0].x, cs[0].k, true, None, None).Ok? {
        var f := FinTx(env, w1, cs[0].x, cs[0].k, true, None, None).value;
        ClosedPays(env, d, w1, f, cs, [false, true], ra.changeKey, ReceiverOutput(fund, rb), Sum(Xs(cs)));
        SomeOutput(env, coins, fund, env.txFee(|coins|, 2, 1), f.tx.value, Commit(fund, rb.key));
        ReceivedCoin(env, Carry(env, sp.slate), fund, rb);
        ReceivedOwns(env, f.tx.value, fund, rb.key);
      }
    }
  }

  /** In terms a caller can check: unless the challenge hash happens to take both kernel messages for the same, an
      honest run succeeds exactly when the inputs pass and no time lock is asked for. */
  lemma DBuildPlainOnly(env: Env, coins: seq<Coin>, fund: nat, timelock: nat, ra: SpendRandom, rb: RecvRandom)
    requires GoodEnv(env) && AllOpen(env, coins, Zeros(|coins|))
    requires Fresh([SpendSecret(env, coins, fund, 2, ra), Secret(rb.key, rb.nonce)])
    requires timelock != 0 ==>
               !ChallengesCoincide(env, [SpendSecret(env, coins, fund, 2, ra), Secret(rb.key, rb.nonce)],
                  HeightLocked(env.txFee(|coins|, 2, 1), timelock), Plain(env.txFee(|coins|, 2, 1)))
    ensures DBuild(env, coins, fund, timelock, ra, rb).Ok? <==> Fundable(env, coins, fund, 2) && timelock == 0
  {
    hide Mod, Sum, DBuild, Fundable, Paid, ChangeRight, Owns, Fresh, ChallengesCoincide;
    DBuildExact(env, coins, fund, timelock, ra, rb);
    SameFeatures(env, [SpendSecret(env, coins, fund, 2, ra), Secret(rb.key, rb.nonce)],
                 Plain(env.txFee(|coins|, 2, 1)));
  }

  // ---------------------------------------------------------------- dSharedOutMWTx

  datatype SharedOutcome = SharedOutcome(alice: Slate, bob: Slate, change: Option<Coin>, coinA: Coin, coinB: Coin)

  function SharedOut(env: Env, coins: seq<Coin>, fund: nat, timelock: nat, ra: SpendRandom, rs: SharedRandom,
                     rb: SharedRandom): Result<SharedOutcome> {
    var sp :- DealSpend(env, Deal(coins, fund, timelock, 2, 3), ra);
    var (t, ctx) :- DRecvCoinsR1(env, sp.slate, fund, rs);
    var (rc, ctx2) :- DRecvCoinsR2(env, Carry(env, t), fund, ctx, rb);
    var r3 :- DRecvCoinsR3(env, Carry(env, rc.slate), ctx2, rs);
    var fin :- FinTx(env, r3.slate, sp.key, sp.nonce, true, None, None);
    Ok(SharedOutcome(fin, Carry(env, fin), sp.change, r3.coin, rc.coin))
  }

  ghost function SharedSecrets(env: Env, d: Deal, ra: SpendRandom, rs: SharedRandom, rb: SharedRandom): seq<Secret> {
    [DealSecret(env, d, ra), Secret(rs.blind, rs.nonce), Secret(rb.blind, rb.nonce)]
  }

  /** Two stored coins are shares of one commitment to the same value. */
  ghost predicate SharedPair(env: Env, a: Coin, b: Coin) {
    a.text == b.text && a.value == b.value && Opens(env, a, b.blind) && Opens(env, b, a.blind)
  }

  /** The coin a party stores for its share of a jointly owned commitment. */
  function ShareOf(env: Env, value: nat, mine: int, theirs: int): Coin {
    NewCoin(env, Commit(value, mine + theirs), mine, value)
  }

  lemma SharedOutRound1(env: Env, d: Deal, ra: SpendRandom, rs: SharedRandom, rb: SharedRandom)
    requires d.numOut == 2 && d.numParts == 3 && AllOpen(env, d.coins, Zeros(|d.coins|))
    requires Fresh(SharedSecrets(env, d, ra, rs, rb)) && ProofFresh(env, rs, rb)
    requires SpendGuard(env, d.coins, d.fund, 2).Ok?
    ensures DealSpend(env, d, ra).Ok?
    ensures var sp := DealSpend(env, d, ra).value;
            var cs := SharedSecrets(env, d, ra, rs, rb);
            && sp.key == cs[0].x && sp.nonce == cs[0].k
            && sp.change == ChangeCoin(env, DealSurplus(env, d), ra.changeKey)
            && DRecvCoinsR1(env, sp.slate, d.fund, rs).Ok?
            && var (t, ctx) := DRecvCoinsR1(env, sp.slate, d.fund, rs).value;
               && Ok(ctx) == ProofRound1(env, NewContext(d.fund, Commit(d.fund, rs.blind)), rs.proofNonce)
               && Stage(env, d, t, cs[..2], NoneSigned(2), ra.changeKey, [], cs[0].x)
  {
    hide Mod, Sum, SpendGuard, FillRound1, DealSpend, Surplus, DealSecret, Built;
    var cs := SharedSecrets(env, d, ra, rs, rb);
    assert GoodSecret(cs[0]) && GoodSecret(cs[1]) && [cs[0]] + [cs[1]] == cs[..2];
    SumZeros(|d.coins|);
    SpendStage(env, d, Zeros(|d.coins|), ra);
    var sp := DealSpend(env, d, ra).value;
    EntryStage(env, d, sp.slate, [cs[0]], ra.changeKey, [], cs[0].x, cs[1]);
  }

  lemma SharedOutRound2(env: Env, d: Deal, t: Slate, ctx: ProofContext, ra: SpendRandom, rs: SharedRandom,
                        rb: SharedRandom)
    requires d.numParts == 3 && Fresh(SharedSecrets(env, d, ra, rs, rb)) && ProofFresh(env, rs, rb)
    requires Ok(ctx) == ProofRound1(env, NewContext(d.fund, Commit(d.fund, rs.blind)), rs.proofNonce)
    requires d.fund < U64
    requires Stage(env, d, t, SharedSecrets(env, d, ra, rs, rb)[..2], NoneSigned(2), ra.changeKey, [],
                   SharedSecrets(env, d, ra, rs, rb)[0].x)
    ensures DRecvCoinsR2(env, t, d.fund, ctx, rb).Ok?
    ensures var (rc, ctx2) := DRecvCoinsR2(env, t, d.fund, ctx, rb).value;
            var cs := SharedSecrets(env, d, ra, rs, rb);
            && SharedContext(env, d.fund, rs, rb).Ok?
            && ctx2 == SharedContext(env, d.fund, rs, rb).value.0
            && rc.coin == NewCoin(env, ctx2.commit, rb.blind, d.fund)
            && Stage(env, d, rc.slate, cs, [false, false, true], ra.changeKey, [], cs[0].x)
  {
    hide Mod, Sum, FillRound1, FillRound2, Built, Ledger, ProofRound1, ProofRound2, DealSecret;
    var cs := SharedSecrets(env, d, ra, rs, rb);
    SharedCoinOpens(env, d.fund, rs, rb);
    assert GoodSecret(cs[2]) && cs[..2] + [cs[2]] == cs;
    EntryStage(env, d, t, cs[..2], ra.changeKey, [], cs[0].x, cs[2]);
    var u := FillRound1(t, rb.blind, rb.nonce).value;
    SignStage(env, d, u, cs, NoneSigned(3), ra.changeKey, [], cs[0].x, 2);
    assert NoneSigned(3)[2 := true] == [false, false, true];
  }

  lemma SharedOutRound3(env: Env, d: Deal, s: Slate, ra: SpendRandom, rs: SharedRandom, rb: SharedRandom)
    requires d.numParts == 3 && Fresh(SharedSecrets(env, d, ra, rs, rb)) && ProofFresh(env, rs, rb)
    requires d.fund < U64 && SharedContext(env, d.fund, rs, rb).Ok?
    requires Stage(env, d, s, SharedSecrets(env, d, ra, rs, rb), [false, false, true], ra.changeKey, [],
                   SharedSecrets(env, d, ra, rs, rb)[0].x)
    ensures DRecvCoinsR3(env, s, SharedContext(env, d.fund, rs, rb).value.0, rs).Ok?
    ensures var r3 := DRecvCoinsR3(env, s, SharedContext(env, d.fund, rs, rb).value.0, rs).value;
            var cs := SharedSecrets(env, d, ra, rs, rb);
            && r3.coin == NewCoin(env, Commit(d.fund, rs.blind + rb.blind), rs.blind, d.fund)
            && Stage(env, d, r3.slate, cs, [false, true, true], ra.changeKey, [SharedOutput(env, d.fund, rs, rb)],
                     Sum(Xs(cs)))
            && |r3.slate.tx.value.kernels| == 1
            && r3.slate.tx.value.kernels[0].features == DealFeatures(env, d)
  {
    hide Mod, Sum, FillRound2, Built, Ledger, ProofRound1, UpdateKernel, DealSecret, FinishProof, VerifyProof,
         ChangeOutputs, ProofsValid;
    var cs := SharedSecrets(env, d, ra, rs, rb);
    SharedCoinOpens(env, d.fund, rs, rb);
    var o := SharedOutput(env, d.fund, rs, rb);
    ThreeSecrets(cs[0], cs[1], cs[2]);
    OutputStage(env, d, s, cs, [false, false, true], ra.changeKey, cs[0].x, o, rs.blind + rb.blind);
    var t := s.(tx := Some(WithOutput(s.tx.value, o)));
    SignStage(env, d, t, cs, [false, false, true], ra.changeKey, [o], Sum(Xs(cs)), 1);
    var u := FillRound2(env, t, rs.blind, rs.nonce).value;
    assert [false, false, true][1 := true] == [false, true, true];
    KernelStage(env, d, u, cs, [false, true, true], ra.changeKey, [o], Sum(Xs(cs)));
  }

  /** The shared output with its multiparty proof. */
  function SharedOutput(env: Env, fund: nat, rs: SharedRandom, rb: SharedRandom): Output
    requires SharedContext(env, fund, rs, rb).Ok? && FinishProof(SharedContext(env, fund, rs, rb).value.1).Ok?
  {
    Output(PlainOutput, SharedContext(env, fund, rs, rb).value.1.commit,
           FinishProof(SharedContext(env, fund, rs, rb).value.1).value)
  }

  /** An honest dSharedOutMWTx run succeeds exactly when the inputs pass spend_coins, whatever the time lock;
      its transaction is valid, carries the agreed kernel, and pays the fund value to a coin of which each party
      stores one share. */
  lemma SharedOutExact(env: Env, coins: seq<Coin>, fund: nat, timelock: nat, ra: SpendRandom, rs: SharedRandom,
                       rb: SharedRandom)
    requires GoodEnv(env) && AllOpen(env, coins, Zeros(|coins|))
    requires Fresh(SharedSecrets(env, Deal(coins, fund, timelock, 2, 3), ra, rs, rb)) && ProofFresh(env, rs, rb)
    ensures SharedOut(env, coins, fund, timelock, ra, rs, rb).Ok? <==> Fundable(env, coins, fund, 2)
    ensures SharedOut(env, coins, fund, timelock, ra, rs, rb).Ok? ==>
              var res := SharedOut(env, coins, fund, timelock, ra, rs, rb).value;
              var fee := env.txFee(|coins|, 2, 1);
              && res.alice.tx.Some? && res.bob == Carry(env, res.alice) && (timelock == 0 ==> res.bob == res.alice)
              && Paid(env, coins, fund, fee, if timelock == 0 then Plain(fee) else HeightLocked(fee, timelock),
                      res.alice.tx.value, Commit(fund, rs.blind + rb.blind))
              && ChangeRight(env, res.alice.tx.value, Sum(Values(coins)) - fund - fee, res.change)
              && SharedPair(env, res.coinA, res.coinB)
              && res.coinA == ShareOf(env, fund, rs.blind, rb.blind)
                  && res.coinB == ShareOf(env, fund, rb.blind, rs.blind)
  {
    hide Mod, Sum, FillRound2, DRecvCoinsR1, DRecvCoinsR2, DRecvCoinsR3, Carry, FinTx, ChallengesCoincide, DealSpend,
         SpendSecret, TxValid, Fresh, SharedContext, FinishProof, Built, Ledger, ProofsValid, ProofRound1, Paid,
         ChangeRight, Fundable, SpendGuard;
    var d := Deal(coins, fund, timelock, 2, 3);
    GuardFirst(env, d, ra);
    GuardExact(env, coins, fund, 2);
    if SpendGuard(env, coins, fund, 2).Ok? {
      var cs := SharedSecrets(env, d, ra, rs, rb);
      SurplusBound(env, d);
      SharedOutRound1(env, d, ra, rs, rb);
      var sp := DealSpend(env, d, ra).value;
      var (t, ctx) := DRecvCoinsR1(env, sp.slate, fund, rs).value;
      CarryStage(env, d, t, cs[..2], NoneSigned(2), ra.changeKey, [], cs[0].x);
      SharedOutRound2(env, d, Carry(env, t), ctx, ra, rs, rb);
      var (rc, ctx2) := DRecvCoinsR2(env, Carry(env, t), fund, ctx, rb).value;
      CarryStage(env, d, rc.slate, cs, [false, false, true], ra.changeKey, [], cs[0].x);
      SharedOutRound3(env, d, Carry(env, rc.slate), ra, rs, rb);
      SharedCoinOpens(env, fund, rs, rb);
      var r3 := DRecvCoinsR3(env, Carry(env, rc.slate), ctx2, rs).value;
      CloseStage(env, d, Zeros(|coins|), r3.slate, cs, [false, true, true], ra.changeKey,
                 SharedOutput(env, fund, rs, rb), 0);
      assert FeeCovers(env, d);
      assert ChallengesCoincide(env, cs, DealFeatures(env, d),
                                DealFeatures(env, d)) by { SameFeatures(env, cs, DealFeatures(env, d)); }
      var f := FinTx(env, r3.slate, cs[0].x, cs[0].k, true, None, None).value;
      ClosedPays(env, d, r3.slate, f, cs, [false, true, true], ra.changeKey, SharedOutput(env, fund, rs, rb),
                 Sum(Xs(cs)));
    }
  }

  lemma SameFeatures(env: Env, cs: seq<Secret>, m: Features)
    ensures ChallengesCoincide(env, cs, m, m)
  {
  }

  // ---------------------------------------------------------------- dSharedInpMWTx

  datatype InpOutcome = InpOutcome(alice: Slate, bob: Slate, change: Option<Coin>, coin: Coin)

  /** Alice opens with her share, Bob adds his share, his output and two signatures, Alice closes, Bob rebuilds
      and finalises his own copy. */
  function SharedInp(env: Env, a: Coin, b: Coin, fund: nat, timelock: nat, ra: SpendRandom, nonceB: int,
                     rb: RecvRandom): Result<InpOutcome> {
    var sp :- DealSpend(env, Deal([a], fund, timelock, 1, 3), ra);
    var ds :- DSpendCoins(env, [b], Carry(env, sp.slate), fund, timelock, nonceB);
    var rc :- RecvCoins(env, ds.slate, fund, rb);
    var f1 :- FinTx(env, rc.slate, ds.key, ds.nonce, false, None, None);
    var u :- UpdateKernel(Carry(env, f1));
    var fin :- FinTx(env, u, sp.key, sp.nonce, true, None, None);
    var v :- UpdateKernel(Carry(env, fin));
    var own :- Finalize(env, v);
    Ok(InpOutcome(fin, own, sp.change, rc.coin))
  }

  ghost function InpSecrets(env: Env, d: Deal, b: Coin, ra: SpendRandom, nonceB: int, rb: RecvRandom): seq<Secret> {
    [DealSecret(env, d, ra), Secret(0 - b.blind, nonceB), Secret(rb.key, rb.nonce)]
  }

  lemma OneOther(x: int)
    ensures Sum([x]) == x
  {
    SumAppend([], x);
    assert [] + [x] == [x];
  }

  /** Up to the point where the receiver of a shared spend has its output and entry on the slate. */
  lemma SharedSpendOpens(env: Env, d: Deal, a: Coin, b: Coin, ra: SpendRandom, nonceB: int, rb: RecvRandom)
    requires d.coins == [a] && d.numParts == 3 && Opens(env, a, b.blind)
    requires Fresh(InpSecrets(env, d, b, ra, nonceB, rb))
    requires SpendGuard(env, d.coins, d.fund, d.numOut).Ok?
    ensures DealSpend(env, d, ra).Ok?
    ensures var sp := DealSpend(env, d, ra).value;
            var cs := InpSecrets(env, d, b, ra, nonceB, rb);
            && sp.key == cs[0].x && sp.nonce == cs[0].k
            && sp.change == ChangeCoin(env, DealSurplus(env, d), ra.changeKey)
            && DSpendCoins(env, [b], Carry(env, sp.slate), d.fund, d.timelock, nonceB).Ok?
            && var ds := DSpendCoins(env, [b], Carry(env, sp.slate), d.fund, d.timelock, nonceB).value;
               && ds.key == cs[1].x && ds.nonce == cs[1].k
               && AddReceiver(env, ds.slate, d.fund, rb).Ok?
               && Stage(env, d, AddReceiver(env, ds.slate, d.fund, rb).value, cs, NoneSigned(3), ra.changeKey,
                        [ReceiverOutput(d.fund, rb)], Sum(Xs(cs)))
  {
    hide Mod, Sum, SpendGuard, AddReceiver, Carry, Stage, DealSpend, DealSecret, DSpendCoins, ReceiverOutput;
    var cs := InpSecrets(env, d, b, ra, nonceB, rb);
    assert GoodSecret(cs[0]) && GoodSecret(cs[1]) && GoodSecret(cs[2]);
    assert [cs[0]] + [cs[1]] == cs[..2] && cs[..2] + [cs[2]] == cs;
    OneOther(b.blind);
    SurplusBound(env, d);
    SpendStage(env, d, [b.blind], ra);
    var sp := DealSpend(env, d, ra).value;
    var keys := cs[0].x - b.blind;
    CarryStage(env, d, sp.slate, [cs[0]], NoneSigned(1), ra.changeKey, [], keys);
    SharedSpendStage(env, d, Carry(env, sp.slate), [cs[0]], ra.changeKey, keys, b, nonceB);
    var ds := DSpendCoins(env, [b], Carry(env, sp.slate), d.fund, d.timelock, nonceB).value;
    ReceiveStage(env, d, ds.slate, cs[..2], ra.changeKey, keys, rb);
    ThreeSecrets(cs[0], cs[1], cs[2]);
  }

  lemma SharedInpToClose(env: Env, d: Deal, t: Slate, cs: seq<Secret>, changeKey: int, o: Output, rb: RecvRandom)
    requires |cs| == 3 == d.numParts && Fresh(cs) && cs[2] == Secret(rb.key, rb.nonce)
    requires Stage(env, d, t, cs, NoneSigned(3), changeKey, [o], Sum(Xs(cs)))
    ensures FillRound2(env, t, rb.key, rb.nonce).Ok?
    ensures var u := FillRound2(env, t, rb.key, rb.nonce).value;
            && FinTx(env, u, cs[1].x, cs[1].k, false, None, None).Ok?
            && var f1 := FinTx(env, u, cs[1].x, cs[1].k, false, None, None).value;
               && UpdateKernel(Carry(env, f1)).Ok?
               && var w := UpdateKernel(Carry(env, f1)).value;
                  && Stage(env, d, w, cs, [false, true, true], changeKey, [o], Sum(Xs(cs)))
                  && UpdateKernel(w) == Ok(w)
                  && |w.tx.value.kernels| == 1
                  && w.tx.value.kernels[0].features == DealFeatures(env, d)
  {
    hide Mod, Sum, FillRound2, Carry, Built, Ledger, ChangeOutputs, Fresh, UpdateKernel;
    SignStage(env, d, t, cs, NoneSigned(3), changeKey, [o], Sum(Xs(cs)), 2);
    assert NoneSigned(3)[2 := true] == [false, false, true];
    var u := FillRound2(env, t, rb.key, rb.nonce).value;
    SignStage(env, d, u, cs, [false, false, true], changeKey, [o], Sum(Xs(cs)), 1);
    assert [false, false, true][1 := true] == [false, true, true];
    var f1 := FinTx(env, u, cs[1].x, cs[1].k, false, None, None).value;
    CarryStage(env, d, f1, cs, [false, true, true], changeKey, [o], Sum(Xs(cs)));
    KernelStage(env, d, Carry(env, f1), cs, [false, true, true], changeKey, [o], Sum(Xs(cs)));
  }

  /** An honest dSharedInpMWTx run succeeds exactly when the shared value covers the fund value and the fee and
      the fee still covers the outputs: any surplus adds a change output the one-output fee was not computed for.
      Both parties then hold the same valid transaction under the agreed lock. */
  lemma SharedInpExact(env: Env, a: Coin, b: Coin, fund: nat, timelock: nat, ra: SpendRandom, nonceB: int,
                       rb: RecvRandom)
    requires GoodEnv(env) && Opens(env, a, b.blind)
    requires Fresh(InpSecrets(env, Deal([a], fund, timelock, 1, 3), b, ra, nonceB, rb))
    ensures SharedInp(env, a, b, fund, timelock, ra, nonceB, rb).Ok? <==>
              SingleSpend(env, a, fund)
    ensures SharedInp(env, a, b, fund, timelock, ra, nonceB, rb).Ok? ==>
              var res := SharedInp(env, a, b, fund, timelock, ra, nonceB, rb).value;
              && res.alice == res.bob
              && res.bob.tx.Some?
              && SpendsShared(env, a, fund, timelock, res.bob.tx.value, rb)
              && ChangeRight(env, res.bob.tx.value, a.value - fund - env.txFee(1, 1, 1), res.change)
              && Owns(env, res.bob.tx.value, res.coin, fund)
  {
    hide Mod, Sum, FillRound2, AddReceiver, DSpendCoins, Carry, FinTx, ChallengesCoincide, DealSpend,
         SpendSecret, TxValid, Fresh, Built, Ledger, ProofsValid, Finalize, UpdateKernel, ChangeOutputs, Paid,
         ChangeRight, Owns, SingleSpend, SpendGuard, Commit;
    var d := Deal([a], fund, timelock, 1, 3);
    GuardFirst(env, d, ra);
    SingleSpendExact(env, a, fund, timelock, 3);
    if SpendGuard(env, [a], fund, 1).Ok? {
      var cs := InpSecrets(env, d, b, ra, nonceB, rb);
      SharedSpendOpens(env, d, a, b, ra, nonceB, rb);
      var sp := DealSpend(env, d, ra).value;
      var ds := DSpendCoins(env, [b], Carry(env, sp.slate), fund, timelock, nonceB).value;
      var t := AddReceiver(env, ds.slate, fund, rb).value;
      var o := ReceiverOutput(fund, rb);
      SharedInpToClose(env, d, t, cs, ra.changeKey, o, rb);
      var u := FillRound2(env, t, rb.key, rb.nonce).value;
      var f1 := FinTx(env, u, cs[1].x, cs[1].k, false, None, None).value;
      var w := UpdateKernel(Carry(env, f1)).value;
      CommitValue(fund, rb.key);
      CloseStage(env, d, [b.blind], w, cs, [false, true, true], ra.changeKey, o, 0);
      assert ChallengesCoincide(env, cs, DealFeatures(env, d),
                                DealFeatures(env, d)) by { SameFeatures(env, cs, DealFeatures(env, d)); }
      if FinTx(env, w, sp.key, sp.nonce, true, None, None).Ok? {
        RebuiltStage(env, d, w, cs, [false, true, true], ra.changeKey, [o], Sum(Xs(cs)), 0);
        var f := FinTx(env, w, sp.key, sp.nonce, true, None, None).value;
        ClosedPays(env, d, w, f, cs, [false, true, true], ra.changeKey, o, Sum(Xs(cs)));
        OneTotal(a);
        ReceivedCoin(env, ds.slate, fund, rb);
        SomeOutput(env, [a], fund, env.txFee(1, 1, 1), f.tx.value, Commit(fund, rb.key));
        ReceivedOwns(env, f.tx.value, fund, rb.key);
      }
    }
  }

  /** A valid transaction that spends just the shared coin, pays this value to the receiver's key and carries the
      kernel of the agreed lock. */
  ghost predicate SpendsShared(env: Env, a: Coin, fund: nat, timelock: nat, tx: Transaction, rb: RecvRandom) {
    var fee := env.txFee(1, 1, 1);
    Paid(env, [a], fund, fee, if timelock == 0 then Plain(fee) else HeightLocked(fee, timelock), tx,
         Commit(fund, rb.key))
  }
}
