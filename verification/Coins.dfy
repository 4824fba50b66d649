/** Spending and receiving coins on a slate: the building blocks of every Grin transaction of the swap.
    Keys, nonces and offsets that the wallet draws at random are parameters. */
module Coins {
  import opened Wrappers
  import opened Curve
  import opened Transactions
  import opened Slates

  /** A coin as the wallet stores it: the commitment as text, this party's share of the blinding factor,
      and the value. */
  datatype Coin = Coin(text: string, blind: int, value: nat)

  function NewCoin(env: Env, c: Commitment, blind: int, value: nat): Coin { Coin(env.commitText(c), blind, value) }

  // ---------------------------------------------------------------- spend_coins

  datatype SpendRandom = SpendRandom(id: nat, changeKey: int, nonce: int, offset: Scalar)

  datatype SpendResult = SpendResult(slate: Slate, key: int, nonce: int, change: Option<Coin>)

  function Values(coins: seq<Coin>): seq<int> { seq(|coins|, i requires 0 <= i < |coins| => coins[i].value) }
  function Blinds(coins: seq<Coin>): seq<int> { seq(|coins|, i requires 0 <= i < |coins| => coins[i].blind) }

  predicate HasDuplicate(coins: seq<Coin>) {
    exists i, j :: 0 <= i < |coins| && 0 <= j < |coins| && i != j && coins[i].text == coins[j].text
  }

  predicate Readable(env: Env, coins: seq<Coin>) {
    forall i :: 0 <= i < |coins| ==> env.readCommit(coins[i].text).Some?
  }

  function InputsFor(env: Env, coins: seq<Coin>): seq<Input>
    requires Readable(env, coins)
  {
    seq(|coins|, i requires 0 <= i < |coins| => Input(PlainOutput, env.readCommit(coins[i].text).value))
  }

  /** The surplus left after the transferred value and the fee; negative when there is a shortfall. */
  function Surplus(env: Env, coins: seq<Coin>, fund: nat, numOut: nat): int {
    Sum(Values(coins)) - fund - env.txFee(|coins|, numOut, 1)
  }

  function ChangeOutputs(surplus: int, changeKey: int): seq<Output> {
    if surplus > 0 then [Output(PlainOutput, Commit(surplus, changeKey), Bullet(surplus, changeKey))] else []
  }

  function ChangeCoin(env: Env, surplus: int, changeKey: int): Option<Coin> {
    if surplus > 0 then Some(NewCoin(env, Commit(surplus, changeKey), changeKey, surplus)) else None
  }

  /** Output keys minus input keys minus the offset. */
  function SpendKey(coins: seq<Coin>, surplus: int, r: SpendRandom): int {
    0 - Sum(Blinds(coins)) + (if surplus > 0 then r.changeKey else 0) - r.offset
  }

  function SpendSlate(env: Env, coins: seq<Coin>, fund: nat, timelock: nat, numOut: nat, numParts: nat,
                      r: SpendRandom): Slate
    requires Readable(env, coins)
  {
    BlankWithKernelFeatures(r.id, numParts, if timelock != 0 then 2 else 0,
                            if timelock != 0 then Some(timelock) else None)
      .(fee := env.txFee(|coins|, numOut, 1), amount := fund, offset := r.offset,
        tx := Some(Transaction(InputsFor(env, coins),
                               ChangeOutputs(Surplus(env, coins, fund, numOut), r.changeKey), [], r.offset)))
  }

  function SpendGuard(env: Env, coins: seq<Coin>, fund: nat, numOut: nat): Result<()> {
    var total, fee := Sum(Values(coins)), env.txFee(|coins|, numOut, 1);
    if total >= U64 then Err(Overflow)
    else if |coins| == 0 then Err(NoInputs)
    else if fund == 0 then Err(BadFundValue)
    else if numOut > 1 && fund + fee >= U64 then Err(Overflow)
    else if (numOut > 1 && total < fund + fee) || total < fund then Err(TooLittleValue)
    else if HasDuplicate(coins) then Err(DuplicateInput)
    else if fee == 0 || fee >= FEE_LIMIT then Err(BadFee)
    else if !Readable(env, coins) then Err(BadText)
    else if total >= I64 || fund >= I64 then Err(Overflow)
    else Ok(())
  }

  function SpendCoins(env: Env, coins: seq<Coin>, fund: nat, timelock: nat, numOut: nat, numParts: nat,
                      r: SpendRandom): Result<SpendResult> {
    var _ :- SpendGuard(env, coins, fund, numOut);
    var surplus := Surplus(env, coins, fund, numOut);
    var key := SpendKey(coins, surplus, r);
    var s :- FillRound1(SpendSlate(env, coins, fund, timelock, numOut, numParts, r), key, r.nonce);
    Ok(SpendResult(s, key, r.nonce, ChangeCoin(env, surplus, r.changeKey)))
  }

  // ---------------------------------------------------------------- d_spend_coins

  predicate FeaturesMatch(s: Slate, timelock: nat) {
    if timelock != 0 then s.features == 2 && s.lockHeight == Some(timelock) else s.features == 0
  }

  function TxOrEmpty(s: Slate): Transaction { if s.tx.None? then EMPTY_TX else s.tx.value }

  function DSpendCoins(env: Env, coins: seq<Coin>, s: Slate, fund: nat, timelock: nat,
                       nonce: int): Result<SpendResult> {
    if !ProofsValid(env, TxOrEmpty(s)) then Err(InvalidRangeProof)
    else if s.amount != fund then Err(AmountMismatch)
    else if |TxOrEmpty(s).inputs| != |coins| then Err(InputCountMismatch)
    else if !FeaturesMatch(s, timelock) then Err(TimelockMismatch)
    else
      var key := 0 - Sum(Blinds(coins));
      var t :- FillRound1(s, key, nonce);
      Ok(SpendResult(t, key, nonce, None))
  }

  // ---------------------------------------------------------------- recv_coins and its adapted variant

  datatype RecvRandom = RecvRandom(key: int, nonce: int)

  datatype RecvResult = RecvResult(slate: Slate, coin: Coin)

  datatype AptRecvResult = AptRecvResult(slate: Slate, coin: Coin, adapted: Sig, plain: Sig)

  /** The receiver's output, a fresh kernel and the receiver's table entry. */
  function AddReceiver(env: Env, s: Slate, fund: nat, r: RecvRandom): Result<Slate> {
    if !ProofsValid(env, TxOrEmpty(s)) then Err(InvalidRangeProof) else
    var tx := WithOutput(TxOrEmpty(s), Output(PlainOutput, Commit(fund, r.key), Bullet(fund, r.key)));
    var t :- UpdateKernel(s.(tx := Some(tx)));
    FillRound1(t, r.key, r.nonce)
  }

  function RecvCoins(env: Env, s: Slate, fund: nat, r: RecvRandom): Result<RecvResult> {
    var t :- AddReceiver(env, s, fund, r);
    var u :- FillRound2(env, t, r.key, r.nonce);
    Ok(RecvResult(u, NewCoin(env, Commit(fund, r.key), r.key, fund)))
  }

  function AptRecvCoins(env: Env, s: Slate, fund: nat, x: int, r: RecvRandom): Result<AptRecvResult> {
    var t :- AddReceiver(env, s, fund, r);
    var m :- SigningContext(t);
    var n, k := NonceTotal(t.participants), KeyTotal(t.participants);
    var plain := Sign(env.challenge, m, r.key, r.nonce, 0, n, k);
    var adapted := Sign(env.challenge, m, r.key, r.nonce, x, n, k);
    var u :- SetSig(t, PointOf(r.key), PointOf(r.nonce), adapted);
    Ok(AptRecvResult(u, NewCoin(env, Commit(fund, r.key), r.key, fund), adapted, plain))
  }

  // ---------------------------------------------------------------- shared coins

  /** The multiparty range proof context two receivers pass back and forth. */
  datatype ProofContext = ProofContext(t1: Option<Point>, t2: Option<Point>, amount: nat, tauX: Scalar,
                                       commit: Commitment)

  function NewContext(amount: nat, c: Commitment): ProofContext { ProofContext(None, None, amount, 0, c) }

  /** The first contribution sets the point, later ones are added to it. */
  function AddPoint(t: Option<Point>, p: Point): Result<Option<Point>> {
    if t.None? then Ok(Some(p))
    else if PointOf(t.value.dlog + p.dlog) == INFINITY then Err(KeySumIsInfinity)
    else Ok(Some(PointOf(t.value.dlog + p.dlog)))
  }

  function ProofRound1(env: Env, ctx: ProofContext, nonce: int): Result<ProofContext> {
    var share := env.proofShare(nonce);
    var t1 :- AddPoint(ctx.t1, PointOf(share.0));
    var t2 :- AddPoint(ctx.t2, PointOf(share.1));
    Ok(ctx.(t1 := t1, t2 := t2))
  }

  function ProofRound2(env: Env, ctx: ProofContext, blind: int, nonce: int): Result<ProofContext> {
    if ctx.t1.None? || ctx.t2.None? then Err(BadKey) else
    var share, k := env.proofShare(nonce), env.proofChallenge(ctx.t1.value, ctx.t2.value, ctx.commit);
    Ok(ctx.(tauX := Mod(ctx.tauX + Mod(k.a * share.0 + k.b * share.1 + k.z * blind))))
  }

  function FinishProof(ctx: ProofContext): Result<RangeProof> {
    if ctx.t1.None? || ctx.t2.None? then Err(BadKey)
    else Ok(MultiParty(ctx.amount, ctx.t1.value, ctx.t2.value, ctx.tauX))
  }

  datatype SharedRandom = SharedRandom(blind: int, nonce: int, proofNonce: int)

  function DRecvCoinsR1(env: Env, s: Slate, fund: nat, r: SharedRandom): Result<(Slate, ProofContext)> {
    if !ProofsValid(env, TxOrEmpty(s)) then Err(InvalidRangeProof) else
    var t :- FillRound1(s, r.blind, r.nonce);
    var ctx :- ProofRound1(env, NewContext(fund, Commit(fund, r.blind)), r.proofNonce);
    Ok((t, ctx))
  }

  function DRecvCoinsR2(env: Env, s: Slate, fund: nat, ctx: ProofContext, r: SharedRandom)
    : Result<(RecvResult, ProofContext)>
  {
    if !ProofsValid(env, TxOrEmpty(s)) then Err(InvalidRangeProof) else
    var c1 :- ProofRound1(env, ctx.(commit := AddCommit(ctx.commit, Commit(0, r.blind))), r.proofNonce);
    var c2 :- ProofRound2(env, c1, r.blind, r.proofNonce);
    var t :- FillRound1(s, r.blind, r.nonce);
    var u :- FillRound2(env, t, r.blind, r.nonce);
    Ok((RecvResult(u, NewCoin(env, c2.commit, r.blind, fund)), c2))
  }

  function DRecvCoinsR3(env: Env, s: Slate, ctx: ProofContext, r: SharedRandom): Result<RecvResult> {
    var c1 :- ProofRound2(env, ctx, r.blind, r.proofNonce);
    var proof :- FinishProof(c1);
    if s.tx.None? then Err(NoTransaction) else
    var t := s.(tx := Some(WithOutput(s.tx.value, Output(PlainOutput, ctx.commit, proof))));
    var u :- FillRound2(env, t, r.blind, r.nonce);
    var v :- UpdateKernel(u);
    Ok(RecvResult(v, NewCoin(env, ctx.commit, r.blind, ctx.amount)))
  }

  // ---------------------------------------------------------------- fin_tx

  /** Where the loop over the participant slots finds this signature. */
  function FindSig(ps: seq<Participant>, n: nat, sig: Sig, i: nat): (r: Result<nat>)
    requires i <= n
    ensures r.Ok? ==> i <= r.value <= n
    ensures r.Ok? && r.value < n ==> r.value < |ps| && ps[r.value].sig == Some(sig)
    decreases n - i
  {
    if i == n then Ok(n)
    else if i >= |ps| then Err(IndexOutOfBounds)
    else if ps[i].sig == Some(sig) then Ok(i)
    else FindSig(ps, n, sig, i + 1)
  }

  function ReplaceSig(s: Slate, old_: Sig, new_: Sig): Result<Slate> {
    var i :- FindSig(s.participants, NumParticipants(s), old_, 0);
    Ok(if i == NumParticipants(s) then s
       else s.(participants := s.participants[i := s.participants[i].(sig := Some(new_))]))
  }

  /** Signing against an adapted signature: every signature present must verify under the extra key X. */
  function SignAdapted(env: Env, s: Slate, x: int, k: int, X: Point): Result<Slate> {
    var m :- SigningContext(s);
    if !(forall i :: 0 <= i < |s.participants| ==> SigAccepted(env, s, s.participants[i], m, X))
    then Err(InvalidPartialSignature)
    else if PointOf(x) == INFINITY || PointOf(k) == INFINITY then Err(BadKey)
    else SetSig(s, PointOf(x), PointOf(k),
                Sign(env.challenge, m, x, k, 0, NonceTotal(s.participants), KeyTotal(s.participants)))
  }

  function SignPlain(env: Env, s: Slate, x: int, k: int, replace: Option<(Sig, Sig)>): Result<Slate> {
    if replace.None? then FillRound2(env, s, x, k) else
    var t :- ReplaceSig(s, replace.value.0, replace.value.1);
    FillRound2(env, t, x, k)
  }

  function FinTx(env: Env, s: Slate, x: int, k: int, finalize: bool, pubX: Option<Point>,
                 replace: Option<(Sig, Sig)>): Result<Slate> {
    if s.tx.None? then Err(NoTransaction)
    else if !ProofsValid(env, s.tx.value) then Err(InvalidRangeProof)
    else
      var t :- if pubX.Some? then SignAdapted(env, s, x, k, pubX.value) else SignPlain(env, s, x, k, replace);
      if finalize then Finalize(env, t) else Ok(t)
  }
}
