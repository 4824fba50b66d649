/** The builders split at their sends and receives: what each endpoint computes between two messages, and that
    the endpoints of one builder, joined by the wire, are the builder. */
module Endpoints {
  import opened Wrappers
  import opened Curve
  import opened Transactions
  import opened Slates
  import opened Wire
  import opened Coins
  import opened Stages
  import opened Builders
  import opened Contract

  /** One line between the two parties. Closed is what a party reads when its peer has stopped. */
  datatype Msg = Key(p: Point) | Text(s: string) | SlateText(v: SlateV4) | Context(c: ProofContext) | Closed

  function Nth(h: seq<Msg>, k: nat): Msg { if k < |h| then h[k] else Closed }

  function AsKey(m: Msg): Result<Point> { if m.Key? then Ok(m.p) else Err(BadText) }
  function AsText(m: Msg): Result<string> { if m.Text? then Ok(m.s) else Err(BadText) }
  function AsSlate(env: Env, m: Msg): Result<Slate> { if m.SlateText? then Ok(FromV4(env, m.v)) else Err(BadText) }
  function AsContext(m: Msg): Result<ProofContext> { if m.Context? then Ok(m.c) else Err(BadText) }

  // ---------------------------------------------------------------- dSharedOutMWTx

  datatype ShareOpening = ShareOpening(spend: SpendResult, slate: Slate, ctx: ProofContext)

  datatype ShareClosing = ShareClosing(slate: Slate, change: Option<Coin>, coin: Coin)

  function ShareOpen(env: Env, coins: seq<Coin>, fund: nat, timelock: nat, ra: SpendRandom,
                     rs: SharedRandom): Result<ShareOpening> {
    var sp :- DealSpend(env, Deal(coins, fund, timelock, 2, 3), ra);
    var (t, ctx) :- DRecvCoinsR1(env, sp.slate, fund, rs);
    Ok(ShareOpening(sp, t, ctx))
  }

  function ShareClose(env: Env, o: ShareOpening, s: Slate, ctx: ProofContext, rs: SharedRandom): Result<ShareClosing> {
    var r3 :- DRecvCoinsR3(env, s, ctx, rs);
    var fin :- FinTx(env, r3.slate, o.spend.key, o.spend.nonce, true, None, None);
    Ok(ShareClosing(fin, o.spend.change, r3.coin))
  }

  lemma SharedOutByEndpoints(env: Env, coins: seq<Coin>, fund: nat, timelock: nat, ra: SpendRandom, rs: SharedRandom,
                             rb: SharedRandom)
    ensures SharedOut(env, coins, fund, timelock, ra, rs, rb) ==
      var o :- ShareOpen(env, coins, fund, timelock, ra, rs);
      var (rc, ctx2) :- DRecvCoinsR2(env, Carry(env, o.slate), fund, o.ctx, rb);
      var f :- ShareClose(env, o, Carry(env, rc.slate), ctx2, rs);
      Ok(SharedOutcome(f.slate, Carry(env, f.slate), f.change, f.coin, rc.coin))
  {
    hide DealSpend, DRecvCoinsR1, DRecvCoinsR2, DRecvCoinsR3, FinTx, Carry;
  }

  // ---------------------------------------------------------------- dSharedInpMWTx

  datatype SpendReply = SpendReply(slate: Slate, coin: Coin)

  function SpendClose(env: Env, sp: SpendResult, s: Slate): Result<Slate> {
    var u :- UpdateKernel(s);
    FinTx(env, u, sp.key, sp.nonce, true, None, None)
  }

  function SpendRespond(env: Env, b: Coin, s: Slate, fund: nat, timelock: nat, nonceB: int,
                        rb: RecvRandom): Result<SpendReply> {
    var ds :- DSpendCoins(env, [b], s, fund, timelock, nonceB);
    var rc :- RecvCoins(env, ds.slate, fund, rb);
    var f1 :- FinTx(env, rc.slate, ds.key, ds.nonce, false, None, None);
    Ok(SpendReply(f1, rc.coin))
  }

  function SpendOwn(env: Env, s: Slate): Result<Slate> {
    var v :- UpdateKernel(s);
    Finalize(env, v)
  }

  lemma SharedInpByEndpoints(env: Env, a: Coin, b: Coin, fund: nat, timelock: nat, ra: SpendRandom, nonceB: int,
                             rb: RecvRandom)
    ensures SharedInp(env, a, b, fund, timelock, ra, nonceB, rb) ==
      var sp :- DealSpend(env, Deal([a], fund, timelock, 1, 3), ra);
      var r :- SpendRespond(env, b, Carry(env, sp.slate), fund, timelock, nonceB, rb);
      var fin :- SpendClose(env, sp, Carry(env, r.slate));
      var own :- SpendOwn(env, Carry(env, fin));
      Ok(InpOutcome(fin, own, sp.change, r.coin))
  {
    hide DealSpend, DSpendCoins, RecvCoins, FinTx, Finalize, UpdateKernel, Carry;
  }

  // ---------------------------------------------------------------- dContractMWTx

  datatype ContractReply = ContractReply(spend: SpendResult, recv: AptRecvResult)

  datatype Countersigned = Countersigned(slate: Slate, adapted: Sig)

  function ContractRespond(env: Env, b: Coin, s: Slate, fund: nat, timelock: nat, x: int, nonceB: int,
                           rb: RecvRandom): Result<ContractReply> {
    var ds :- DSpendCoins(env, [b], s, fund, timelock, nonceB);
    var ap :- AptRecvCoins(env, ds.slate, fund, x, rb);
    Ok(ContractReply(ds, ap))
  }

  function ContractSign(env: Env, sp: SpendResult, s: Slate, X: Point): Result<Countersigned> {
    var adapted :- ThirdSig(s);
    var p3 :- FinTx(env, s, sp.key, sp.nonce, false, Some(X), None);
    Ok(Countersigned(p3, adapted))
  }

  function ContractFinish(env: Env, r: ContractReply, s: Slate): Result<Slate> {
    FinTx(env, s, r.spend.key, r.spend.nonce, true, None, Some((r.recv.adapted, r.recv.plain)))
  }

  function ContractRead(s: Slate, adapted: Sig): Result<Scalar> {
    var plain :- ThirdSig(s);
    Ok(ExtractWitness(plain, adapted))
  }

  lemma ContractByEndpoints(env: Env, a: Coin, b: Coin, fund: nat, timelock: nat, X: Point, x: int, ra: SpendRandom,
                            nonceB: int, rb: RecvRandom)
    ensures DContract(env, a, b, fund, timelock, X, x, ra, nonceB, rb) ==
      var sp :- DealSpend(env, Deal([a], fund, timelock, 1, 3), ra);
      var r :- ContractRespond(env, b, Carry(env, sp.slate), fund, timelock, x, nonceB, rb);
      var c :- ContractSign(env, sp, Carry(env, r.recv.slate), X);
      var fin :- ContractFinish(env, r, Carry(env, c.slate));
      var revealed :- ContractRead(Carry(env, fin), c.adapted);
      Ok(ContractOutcome(Carry(env, fin), fin, sp.change, r.recv.coin, revealed))
  {
    hide DealSpend, DSpendCoins, AptRecvCoins, FinTx, ThirdSig, Carry, ExtractWitness;
  }
}
