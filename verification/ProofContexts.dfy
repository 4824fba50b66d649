/** The multiparty range proof context as the object both receivers add to, and the three rounds that use it. */
module ProofContexts {
  import opened Wrappers
  import opened Curve
  import opened Transactions
  import opened Slates
  import opened Coins
  import opened TxSlates
  import opened GrinCore

  /** A point is absent until the first contribution sets it. */
  class MPBPContext {
    var t1: Option<Point>
    var t2: Option<Point>
    var amount: nat
    var tauX: Scalar
    var commit: Commitment

    function Value(): ProofContext
      reads this
    {
      ProofContext(t1, t2, amount, tauX, commit)
    }

    constructor (c: ProofContext)
      ensures Value() == c
    {
      t1, t2, amount, tauX, commit := c.t1, c.t2, c.amount, c.tauX, c.commit;
    }

    method AddCommit(c: Commitment)
      modifies this`commit
      ensures commit == Curve.AddCommit(old(commit), c)
    {
      commit := Commitment(commit.v + c.v, Mod(commit.r + c.r));
    }

    method AddT1(p: Point) returns (r: Result<()>)
      modifies this`t1
      ensures match AddPoint(old(t1), p)
              case Ok(t) => r == Ok(()) && t1 == t
              case Err(e) => r == Err(e)
    {
      if t1.None? {
        t1 := Some(p);
      } else {
        var sum := PointOf(t1.value.dlog + p.dlog);
        if sum == INFINITY {
          return Err(KeySumIsInfinity);
        }
        t1 := Some(sum);
      }
      r := Ok(());
    }

    method AddT2(p: Point) returns (r: Result<()>)
      modifies this`t2
      ensures match AddPoint(old(t2), p)
              case Ok(t) => r == Ok(()) && t2 == t
              case Err(e) => r == Err(e)
    {
      if t2.None? {
        t2 := Some(p);
      } else {
        var sum := PointOf(t2.value.dlog + p.dlog);
        if sum == INFINITY {
          return Err(KeySumIsInfinity);
        }
        t2 := Some(sum);
      }
      r := Ok(());
    }

    method AddTauX(share: Scalar)
      modifies this`tauX
      ensures tauX == Mod(old(tauX) + share)
    {
      tauX := Mod(tauX + share);
    }

    method Round1(env: Env, nonce: int) returns (r: Result<()>)
      modifies this
      ensures match ProofRound1(env, old(Value()), nonce)
              case Ok(c) => r == Ok(()) && Value() == c
              case Err(e) => r == Err(e)
    {
      var share := env.proofShare(nonce);
      var _ :- AddT1(PointOf(share.0));
      r := AddT2(PointOf(share.1));
    }

    method Round2(env: Env, blind: int, nonce: int) returns (r: Result<()>)
      modifies this
      ensures match ProofRound2(env, old(Value()), blind, nonce)
              case Ok(c) => r == Ok(()) && Value() == c
              case Err(e) => r == Err(e)
    {
      if t1.None? || t2.None? {
        return Err(BadKey);
      }
      var share, k := env.proofShare(nonce), env.proofChallenge(t1.value, t2.value, commit);
      AddTauX(Mod(k.a * share.0 + k.b * share.1 + k.z * blind));
      r := Ok(());
    }
  }

  // ---------------------------------------------------------------- the rounds of a shared receive

  method DRecvCoinsR1(env: Env, s: Slate, fund: nat, r: SharedRandom) returns (res: Result<(Slate, ProofContext)>)
    ensures res == Coins.DRecvCoinsR1(env, s, fund, r)
  {
    hide Mod, ProofRound1, Slates.AddParticipantInfo;
    var slate := new TxSlate(s);
    var valid := VerifyOutputs(env, if slate.tx.None? then EMPTY_TX else slate.tx.value);
    if !valid {
      return Err(InvalidRangeProof);
    }
    var filled := slate.FillRound1(r.blind, r.nonce);
    if filled.Err? {
      return Err(filled.error);
    }
    var ctx := new MPBPContext(NewContext(fund, Commit(fund, r.blind)));
    var proved := ctx.Round1(env, r.proofNonce);
    if proved.Err? {
      return Err(proved.error);
    }
    res := Ok((slate.Value(), ctx.Value()));
  }

  method DRecvCoinsR2(env: Env, s: Slate, fund: nat, c: ProofContext,
                      r: SharedRandom) returns (res: Result<(RecvResult, ProofContext)>)
    ensures res == Coins.DRecvCoinsR2(env, s, fund, c, r)
  {
    hide Mod, ProofRound1, ProofRound2, Slates.AddParticipantInfo, Slates.FillRound2;
    var slate := new TxSlate(s);
    var ctx := new MPBPContext(c);
    var valid := VerifyOutputs(env, if slate.tx.None? then EMPTY_TX else slate.tx.value);
    if !valid {
      return Err(InvalidRangeProof);
    }
    ctx.AddCommit(Commit(0, r.blind));
    var first := ctx.Round1(env, r.proofNonce);
    if first.Err? {
      return Err(first.error);
    }
    var second := ctx.Round2(env, r.blind, r.proofNonce);
    if second.Err? {
      return Err(second.error);
    }
    var filled := slate.FillRound1(r.blind, r.nonce);
    if filled.Err? {
      return Err(filled.error);
    }
    var signed := slate.FillRound2(env, r.blind, r.nonce);
    if signed.Err? {
      return Err(signed.error);
    }
    res := Ok((RecvResult(slate.Value(), NewCoin(env, ctx.commit, r.blind, fund)), ctx.Value()));
  }

  method DRecvCoinsR3(env: Env, s: Slate, c: ProofContext, r: SharedRandom) returns (res: Result<RecvResult>)
    ensures res == Coins.DRecvCoinsR3(env, s, c, r)
  {
    hide Mod, ProofRound2, Slates.UpdateKernel, Slates.FillRound2;
    var slate := new TxSlate(s);
    var ctx := new MPBPContext(c);
    var commit, amount := ctx.commit, ctx.amount;
    var second := ctx.Round2(env, r.blind, r.proofNonce);
    if second.Err? {
      return Err(second.error);
    }
    var proof :- FinishProof(ctx.Value());
    if slate.tx.None? {
      return Err(NoTransaction);
    }
    slate.tx := Some(WithOutput(slate.tx.value, Output(PlainOutput, commit, proof)));
    var signed := slate.FillRound2(env, r.blind, r.nonce);
    if signed.Err? {
      return Err(signed.error);
    }
    var renewed := slate.UpdateKernel();
    if renewed.Err? {
      return Err(renewed.error);
    }
    res := Ok(RecvResult(slate.Value(), NewCoin(env, commit, r.blind, amount)));
  }
}
