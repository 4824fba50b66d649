/** In every builder the whole table is present before anybody signs, and the receiver of a contract is the third
    participant in every slate the other party reads. */
module SigningOrder {
  import opened Wrappers
  import opened Curve
  import opened Transactions
  import opened Slates
  import opened SlateProofs
  import opened Wire
  import opened Coins
  import opened CoinProofs
  import opened SharedCoin
  import opened Stages
  import opened Builders
  import opened Contract

  /** Nobody has signed, or everybody's entry is there. */
  ghost predicate Orderly(s: Slate) { Unsigned(s.participants) || |s.participants| == NumParticipants(s) }

  lemma StageOrderly(env: Env, d: Deal, s: Slate, cs: seq<Secret>, signed: seq<bool>, changeKey: int, outs: seq<Output>,
                     keys: int)
    requires Stage(env, d, s, cs, signed, changeKey, outs, keys)
    requires signed == NoneSigned(|cs|) || |cs| == d.numParts
    ensures Orderly(s)
  {
    hide Mod, Sum;
  }

  lemma BuildOrder(env: Env, coins: seq<Coin>, fund: nat, timelock: nat, ra: SpendRandom, rb: RecvRandom)
    requires GoodEnv(env) && AllOpen(env, coins, Zeros(|coins|)) && Fundable(env, coins, fund, 2)
    requires Fresh([SpendSecret(env, coins, fund, 2, ra), Secret(rb.key, rb.nonce)])
    ensures DealSpend(env, Deal(coins, fund, timelock, 2, 2), ra).Ok?
    ensures var sp := DealSpend(env, Deal(coins, fund, timelock, 2, 2), ra).value;
            && Orderly(sp.slate)
            && RecvCoins(env, Carry(env, sp.slate), fund, rb).Ok?
            && Orderly(Carry(env, RecvCoins(env, Carry(env, sp.slate), fund, rb).value.slate))
  {
    hide Mod, Sum, RecvCoins, Carry, DealSpend, SpendSecret, Stage, Orderly, SpendGuard;
    var d := Deal(coins, fund, timelock, 2, 2);
    var cs := [DealSecret(env, d, ra), Secret(rb.key, rb.nonce)];
    GuardExact(env, coins, fund, 2);
    DBuildToClose(env, d, ra, rb);
    assert GoodSecret(cs[0]);
    SpendStage(env, d, Zeros(|coins|), ra);
    var sp := DealSpend(env, d, ra).value;
    StageOrderly(env, d, sp.slate, [cs[0]], NoneSigned(1), ra.changeKey, [], cs[0].x - Sum(Zeros(|coins|)));
    StageOrderly(env, d, Carry(env, RecvCoins(env, Carry(env, sp.slate), fund, rb).value.slate), cs, [false, true],
                 ra.changeKey,
                 [ReceiverOutput(fund, rb)], Sum(Xs(cs)));
  }

  lemma SharedOutOrder(env: Env, coins: seq<Coin>, fund: nat, timelock: nat, ra: SpendRandom, rs: SharedRandom,
                       rb: SharedRandom)
    requires GoodEnv(env) && AllOpen(env, coins, Zeros(|coins|)) && Fundable(env, coins, fund, 2)
    requires Fresh(SharedSecrets(env, Deal(coins, fund, timelock, 2, 3), ra, rs, rb)) && ProofFresh(env, rs, rb)
    ensures DealSpend(env, Deal(coins, fund, timelock, 2, 3), ra).Ok?
    ensures var sp := DealSpend(env, Deal(coins, fund, timelock, 2, 3), ra).value;
            && DRecvCoinsR1(env, sp.slate, fund, rs).Ok?
            && var (t, ctx) := DRecvCoinsR1(env, sp.slate, fund, rs).value;
               && Orderly(t)
               && DRecvCoinsR2(env, Carry(env, t), fund, ctx, rb).Ok?
               && Orderly(DRecvCoinsR2(env, Carry(env, t), fund, ctx, rb).value.0.slate)
  {
    hide Mod, Sum, Carry, DealSpend, SpendSecret, Built, Ledger, Orderly, DRecvCoinsR1, DRecvCoinsR2, ProofRound1,
         SharedContext;
    var d := Deal(coins, fund, timelock, 2, 3);
    var cs := SharedSecrets(env, d, ra, rs, rb);
    GuardExact(env, coins, fund, 2);
    SurplusBound(env, d);
    SharedOutRound1(env, d, ra, rs, rb);
    var sp := DealSpend(env, d, ra).value;
    var (t, ctx) := DRecvCoinsR1(env, sp.slate, fund, rs).value;
    StageOrderly(env, d, t, cs[..2], NoneSigned(2), ra.changeKey, [], cs[0].x);
    CarryStage(env, d, t, cs[..2], NoneSigned(2), ra.changeKey, [], cs[0].x);
    SharedOutRound2(env, d, Carry(env, t), ctx, ra, rs, rb);
    var (rc, ctx2) := DRecvCoinsR2(env, Carry(env, t), fund, ctx, rb).value;
    StageOrderly(env, d, rc.slate, cs, [false, false, true], ra.changeKey, [], cs[0].x);
  }

  /** Both ways of spending a shared coin: the second spender and the receiver have joined before the first
      signature, so it is made over three entries. */
  lemma SharedSpendOrder(env: Env, a: Coin, b: Coin, fund: nat, timelock: nat, ra: SpendRandom, nonceB: int,
                         rb: RecvRandom)
    requires GoodEnv(env) && Opens(env, a, b.blind) && Fundable(env, [a], fund, 1)
    requires Fresh(InpSecrets(env, Deal([a], fund, timelock, 1, 3), b, ra, nonceB, rb))
    ensures DealSpend(env, Deal([a], fund, timelock, 1, 3), ra).Ok?
    ensures var sp := DealSpend(env, Deal([a], fund, timelock, 1, 3), ra).value;
            && DSpendCoins(env, [b], Carry(env, sp.slate), fund, timelock, nonceB).Ok?
            && var ds := DSpendCoins(env, [b], Carry(env, sp.slate), fund, timelock, nonceB).value;
               && AddReceiver(env, ds.slate, fund, rb).Ok?
               && var t := AddReceiver(env, ds.slate, fund, rb).value;
                  Unsigned(t.participants) && |t.participants| == NumParticipants(t) == 3
  {
    hide Mod, Sum, Carry, DealSpend, SpendSecret, Ledger, AddReceiver, DSpendCoins, ProofsValid;
    var d := Deal([a], fund, timelock, 1, 3);
    GuardExact(env, [a], fund, 1);
    SharedSpendOpens(env, d, a, b, ra, nonceB, rb);
  }

  /** In every contract run that completes, the receiver's entry is at index 2 of both slates Alice reads, first
      with the adapted and then with the plain signature. */
  lemma ReceiverIsThird(env: Env, a: Coin, b: Coin, fund: nat, timelock: nat, X: Point, x: int, ra: SpendRandom,
                        nonceB: int, rb: RecvRandom)
    requires GoodEnv(env) && Opens(env, a, b.blind)
    requires Fresh(InpSecrets(env, Deal([a], fund, timelock, 1, 3), b, ra, nonceB, rb))
    requires DContract(env, a, b, fund, timelock, X, x, ra, nonceB, rb).Ok?
    ensures var sp := DealSpend(env, Deal([a], fund, timelock, 1, 3), ra).value;
            var ds := DSpendCoins(env, [b], Carry(env, sp.slate), fund, timelock, nonceB).value;
            var ap := AptRecvCoins(env, ds.slate, fund, x, rb).value;
            var w, final := Carry(env, ap.slate), DContract(env, a, b, fund, timelock, X, x, ra, nonceB,
                                                            rb).value.alice;
            && |w.participants| == |final.participants| == 3
            && w.participants[2] == Participant(PointOf(rb.key), PointOf(rb.nonce), Some(ap.adapted))
            && final.participants[2] == Participant(PointOf(rb.key), PointOf(rb.nonce), Some(ap.plain))
  {
    hide Mod, Sum, AddReceiver, AptRecvCoins, DSpendCoins, Carry, FinTx, ChallengesCoincide, DealSpend, SpendSecret,
         TxValid,
         Fresh, Built, Ledger, ProofsValid, ReplaceSig, ChangeOutputs, SumsValid, FeeCovers, SpendGuard,
             NumParticipants;
    var d := Deal([a], fund, timelock, 1, 3);
    var cs := InpSecrets(env, d, b, ra, nonceB, rb);
    GuardFirst(env, d, ra);
    SharedSpendOpens(env, d, a, b, ra, nonceB, rb);
    var sp := DealSpend(env, d, ra).value;
    var ds := DSpendCoins(env, [b], Carry(env, sp.slate), fund, timelock, nonceB).value;
    var t := AddReceiver(env, ds.slate, fund, rb).value;
    var o := ReceiverOutput(fund, rb);
    ContractOpens(env, d, ds.slate, cs, ra.changeKey, o, x, rb);
    var ap := AptRecvCoins(env, ds.slate, fund, x, rb).value;
    var w := Carry(env, ap.slate);
    ContractReturns(env, d, t, w, cs, ra.changeKey, o, x, X);
    var v := Carry(env, FinTx(env, w, cs[0].x, cs[0].k, false, Some(X), None).value);
    var r := ReplaceSig(v, ap.adapted, ap.plain).value;
    FinWithReplacement(env, v, cs[1].x, cs[1].k, ap.adapted, ap.plain);
    ClosedSignatures(env, d, r, cs, [true, false, true], ra.changeKey, [o], Sum(Xs(cs)), 1);
    CarrySigs(env, FinTx(env, r, cs[1].x, cs[1].k, true, None, None).value);
  }
}
