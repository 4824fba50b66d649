/** The coin two parties own together: its commitment, its opening and its range proof. */
module SharedCoin {
  import opened Wrappers
  import opened Curve
  import opened Transactions
  import opened Coins

  /** The proof context after Alice's first round, Bob's two rounds and Alice's second. */
  function SharedContext(env: Env, fund: nat, a: SharedRandom, b: SharedRandom): Result<(ProofContext, ProofContext)> {
    var c1 :- ProofRound1(env, NewContext(fund, Commit(fund, a.blind)), a.proofNonce);
    var c2 :- ProofRound1(env, c1.(commit := AddCommit(c1.commit, Commit(0, b.blind))), b.proofNonce);
    var c3 :- ProofRound2(env, c2, b.blind, b.proofNonce);
    var c4 :- ProofRound2(env, c3, a.blind, a.proofNonce);
    Ok((c3, c4))
  }

  ghost predicate ProofFresh(env: Env, a: SharedRandom, b: SharedRandom) {
    && PointOf(env.proofShare(a.proofNonce).0 + env.proofShare(b.proofNonce).0) != INFINITY
    && PointOf(env.proofShare(a.proofNonce).1 + env.proofShare(b.proofNonce).1) != INFINITY
  }

  /** Nobody adds a share to a proof, or finishes it, before both of its points are there. */
  lemma PointsFirst(env: Env, ctx: ProofContext, blind: int, nonce: int)
    ensures ProofRound2(env, ctx, blind, nonce).Ok? <==> ctx.t1.Some? && ctx.t2.Some?
    ensures FinishProof(ctx).Ok? <==> ctx.t1.Some? && ctx.t2.Some?
    ensures ProofRound1(env, ctx, nonce).Ok? ==>
              ProofRound2(env, ProofRound1(env, ctx, nonce).value, blind, nonce).Ok?
  {
    hide Mod;
  }

  lemma ModCombination(x: int, a: int, y: int, b: int, z: int, c: int)
    ensures Mod(x * Mod(a) + y * Mod(b) + z * Mod(c)) == Mod(x * a + y * b + z * c)
  {
    hide Mod;
    ModMul(x, a);
    ModMul(y, b);
    ModMul(z, c);
    CongAdd(x * Mod(a), x * a, y * Mod(b), y * b);
    CongAdd(x * Mod(a) + y * Mod(b), x * a + y * b, z * Mod(c), z * c);
  }

  lemma SharesAddUp(k: Coefficients, a1: int, a2: int, a3: int, b1: int, b2: int, b3: int)
    ensures Mod(Mod(0 + Mod(k.a * b1 + k.b * b2 + k.z * b3)) + Mod(k.a * a1 + k.b * a2 + k.z * a3))
         == Mod(k.a * (a1 + b1) + k.b * (a2 + b2) + k.z * (a3 + b3))
  {
    hide Mod;
    NestedSum(k.a * b1 + k.b * b2 + k.z * b3, k.a * a1 + k.b * a2 + k.z * a3);
    Regroup(k, a1, a2, a3, b1, b2, b3);
  }

  lemma NestedSum(b: int, a: int)
    ensures Mod(Mod(0 + Mod(b)) + Mod(a)) == Mod(b + a)
  {
    ModIdem(b);
    ModAdd(b, a);
  }

  lemma Regroup(k: Coefficients, a1: int, a2: int, a3: int, b1: int, b2: int, b3: int)
    ensures (k.a * b1 + k.b * b2 + k.z * b3) + (k.a * a1 + k.b * a2 + k.z * a3)
         == k.a * (a1 + b1) + k.b * (a2 + b2) + k.z * (a3 + b3)
  {
  }

  /** After the three rounds both parties hold the same commitment, it opens to the value under the sum of
      their shares, T1, T2 and tau_x are the sums of both contributions, and the finished proof verifies. */
  lemma SharedCoinOpens(env: Env, fund: nat, a: SharedRandom, b: SharedRandom)
    requires ProofFresh(env, a, b) && fund < U64
    ensures SharedContext(env, fund, a, b).Ok?
    ensures var (c3, c4) := SharedContext(env, fund, a, b).value;
            var sa, sb := env.proofShare(a.proofNonce), env.proofShare(b.proofNonce);
            && c3.commit == c4.commit == Commit(fund, a.blind + b.blind)
            && c3.amount == c4.amount == fund
            && c4.t1 == Some(PointOf(sa.0 + sb.0)) && c4.t2 == Some(PointOf(sa.1 + sb.1))
            && var k := env.proofChallenge(c4.t1.value, c4.t2.value, c4.commit);
               c4.tauX == Mod(k.a * (sa.0 + sb.0) + k.b * (sa.1 + sb.1) + k.z * (a.blind + b.blind))
    ensures var c4 := SharedContext(env, fund, a, b).value.1;
            FinishProof(c4).Ok? && VerifyProof(env, c4.commit, FinishProof(c4).value)
  {
    hide Mod;
    var sa, sb := env.proofShare(a.proofNonce), env.proofShare(b.proofNonce);
    ModAdd(sa.0, sb.0);
    ModAdd(sa.1, sb.1);
    ModAdd(a.blind, b.blind);
    var (c3, c4) := SharedContext(env, fund, a, b).value;
    var k := env.proofChallenge(c4.t1.value, c4.t2.value, c4.commit);
    SharesAddUp(k, sa.0, sa.1, a.blind, sb.0, sb.1, b.blind);
    ModCombination(k.a, sa.0 + sb.0, k.b, sa.1 + sb.1, k.z, a.blind + b.blind);
    ModIdem(k.a * (sa.0 + sb.0) + k.b * (sa.1 + sb.1) + k.z * (a.blind + b.blind));
  }
}
