/** What the slate operations guarantee, for any number of participants. */
module SlateProofs {
  import opened Wrappers
  import opened Curve
  import opened Transactions
  import opened Slates

  // ---------------------------------------------------------------- aggregation

  ghost predicate AllSigned(ps: seq<Participant>) {
    forall i :: 0 <= i < |ps| ==> ps[i].sig.Some?
  }

  ghost function SigNonces(ps: seq<Participant>): seq<int>
    requires AllSigned(ps)
  {
    seq(|ps|, i requires 0 <= i < |ps| => ps[i].sig.value.R.dlog)
  }

  /** Every signature satisfies the partial equation under the one challenge e. */
  ghost predicate AllAccepted(ps: seq<Participant>, e: int)
    requires AllSigned(ps)
  {
    forall i :: 0 <= i < |ps| ==> Mod(ps[i].sig.value.s) == Mod(ps[i].sig.value.R.dlog + e * ps[i].key.dlog)
  }

  lemma LastSums(ps: seq<Participant>)
    requires |ps| > 0 && AllSigned(ps)
    ensures var init, last := ps[..|ps| - 1], ps[|ps| - 1];
            && Sum(Keys(ps)) == Sum(Keys(init)) + last.key.dlog
            && Sum(SigNonces(ps)) == Sum(SigNonces(init)) + last.sig.value.R.dlog
            && Sum(SigScalars(ps)) == Sum(SigScalars(init)) + last.sig.value.s
  {
    var init, last := ps[..|ps| - 1], ps[|ps| - 1];
    assert Keys(ps)[..|ps| - 1] == Keys(init);
    assert SigNonces(ps)[..|ps| - 1] == SigNonces(init);
    SumAppend(SigScalars(init), last.sig.value.s);
  }

  lemma MulDistributes(e: int, a: int, b: int)
    ensures e * (a + b) == e * a + e * b
  {
  }

  lemma StepSum(ss: int, rs: int, ks: int, e: int, s: int, r: int, k: int, ss': int, rs': int, ks': int)
    requires Mod(ss) == Mod(rs + e * ks)
    requires Mod(s) == Mod(r + e * k)
    requires ss' == ss + s && rs' == rs + r && ks' == ks + k
    ensures Mod(ss') == Mod(rs' + e * ks')
  {
    hide Mod;
    CongAdd(ss, rs + e * ks, s, r + e * k);
    MulDistributes(e, ks, k);
  }

  lemma EmptySums(e: int)
    ensures Mod(Sum(SigScalars([]))) == Mod(Sum(SigNonces([])) + e * Sum(Keys([])))
  {
  }

  /** The partial equations add up. */
  lemma {:induction false} EquationsAddUp(ps: seq<Participant>, e: int)
    requires AllSigned(ps) && AllAccepted(ps, e)
    ensures Mod(Sum(SigScalars(ps))) == Mod(Sum(SigNonces(ps)) + e * Sum(Keys(ps)))
  {
    hide Mod, Sum;
    if |ps| == 0 {
      EmptySums(e);
    } else {
      var init, last := ps[..|ps| - 1], ps[|ps| - 1];
      EquationsAddUp(init, e);
      LastSums(ps);
      StepSum(Sum(SigScalars(init)), Sum(SigNonces(init)), Sum(Keys(init)), e,
              last.sig.value.s, last.sig.value.R.dlog, last.key.dlog,
              Sum(SigScalars(ps)), Sum(SigNonces(ps)), Sum(Keys(ps)));
    }
  }

  /** Accepted partial signatures from every participant aggregate into a valid signature under the key
      sum exactly when their nonces add up to the nonce sum in the table. */
  lemma AggregationExact(env: Env, s: Slate, m: Features)
    requires AllSigned(s.participants)
    requires forall i :: 0 <= i < |s.participants| ==> SigAccepted(env, s, s.participants[i], m, INFINITY)
    ensures VerifyCompleted(env.challenge, Aggregate(s.participants), m, KeyTotal(s.participants))
       <==> PointOf(Sum(SigNonces(s.participants))) == NonceTotal(s.participants)
  {
    hide Mod, Sum;
    ModZero();
    var ps := s.participants;
    var e := env.challenge(NonceTotal(ps), KeyTotal(ps), m);
    forall i | 0 <= i < |ps|
      ensures Mod(ps[i].sig.value.s) == Mod(ps[i].sig.value.R.dlog + e * ps[i].key.dlog)
    {
      assert SigAccepted(env, s, ps[i], m, INFINITY);
    }
    EquationsAddUp(ps, e);
    var rs, ns, ks := Sum(SigNonces(ps)), Sum(Nonces(ps)), Sum(Keys(ps));
    ModLinear(ns, e, ks, 0);
    ModCancel(rs, ns, e * ks);
    ModIdem(Sum(SigScalars(ps)));
  }

  // ---------------------------------------------------------------- honest tables

  /** A participant's signing key and nonce. */
  datatype Secret = Secret(x: int, k: int)

  ghost predicate GoodSecret(c: Secret) { PointOf(c.x) != INFINITY && PointOf(c.k) != INFINITY }

  ghost predicate DistinctNonces(cs: seq<Secret>) {
    forall i, j :: 0 <= i < j < |cs| ==> PointOf(cs[i].k) != PointOf(cs[j].k)
  }

  ghost function HonestSig(env: Env, s: Slate, c: Secret): Sig
    requires KernelFeatures(s).Ok?
  {
    Sign(env.challenge, KernelFeatures(s).value, c.x, c.k, 0, NonceTotal(s.participants), KeyTotal(s.participants))
  }

  /** The table lists exactly these secrets' public parts in this order, and entry i carries its honest
      signature if signed[i] and none otherwise. */
  ghost predicate Built(env: Env, s: Slate, cs: seq<Secret>, signed: seq<bool>) {
    && |s.participants| == |cs| == |signed|
    && KernelFeatures(s).Ok?
    && (forall i :: 0 <= i < |cs| ==> GoodSecret(cs[i]))
    && DistinctNonces(cs)
    && (forall i :: 0 <= i < |cs| ==> Matches(s.participants[i], PointOf(cs[i].x), PointOf(cs[i].k)))
    && (forall i :: 0 <= i < |cs| ==>
         s.participants[i].sig == if signed[i] then Some(HonestSig(env, s, cs[i])) else None)
  }

  ghost predicate SumsValid(s: Slate) {
    KeyTotal(s.participants) != INFINITY && NonceTotal(s.participants) != INFINITY
  }

  ghost function NoneSigned(n: nat): seq<bool> { seq(n, i => false) }

  lemma {:induction false} NobodyMatches(ps: seq<Participant>, key: Point, nonce: Point)
    requires forall i :: 0 <= i < |ps| ==> !Matches(ps[i], key, nonce)
    ensures Others(ps, key, nonce) == ps
    ensures KeptSig(ps, key, nonce, None) == None
  {
    if |ps| > 0 {
      NobodyMatches(ps[..|ps| - 1], key, nonce);
      assert ps == ps[..|ps| - 1] + [ps[|ps| - 1]];
    }
  }

  /** Round 1 adds one entry at the end, as long as nobody has signed yet. */
  lemma AddEntry(env: Env, s: Slate, cs: seq<Secret>, c: Secret)
    requires Built(env, s, cs, NoneSigned(|cs|))
    requires GoodSecret(c) && DistinctNonces(cs + [c])
    ensures FillRound1(s, c.x, c.k).Ok?
    ensures FillRound1(s, c.x, c.k).value
         == s.(participants := s.participants + [Participant(PointOf(c.x), PointOf(c.k), None)])
    ensures Built(env, FillRound1(s, c.x, c.k).value, cs + [c], NoneSigned(|cs| + 1))
  {
    hide Mod, Sum, HonestSig;
    forall i | 0 <= i < |cs|
      ensures !Matches(s.participants[i], PointOf(c.x), PointOf(c.k))
    {
      assert (cs + [c])[i] == cs[i] && (cs + [c])[|cs|] == c;
    }
    NobodyMatches(s.participants, PointOf(c.x), PointOf(c.k));
    BuiltAppend(env, s, cs, c);
  }

  lemma BuiltAppend(env: Env, s: Slate, cs: seq<Secret>, c: Secret)
    requires Built(env, s, cs, NoneSigned(|cs|))
    requires GoodSecret(c) && DistinctNonces(cs + [c])
    ensures Built(env, s.(participants := s.participants + [Participant(PointOf(c.x), PointOf(c.k), None)]), cs + [c],
                  NoneSigned(|cs| + 1))
  {
    hide Mod, Sum, HonestSig;
    var ds, ps := cs + [c], s.participants + [Participant(PointOf(c.x), PointOf(c.k), None)];
    assert forall i :: 0 <= i < |cs| ==> ds[i] == cs[i] && ps[i] == s.participants[i];
  }

  lemma {:induction false} FindsEntry(ps: seq<Participant>, n: nat, key: Point, nonce: Point, i: nat, at: nat)
    requires i <= at < n <= |ps|
    requires Matches(ps[at], key, nonce)
    requires forall j :: i <= j < at ==> !Matches(ps[j], key, nonce)
    ensures FindEntry(ps, n, key, nonce, i) == Ok(at)
    decreases at - i
  {
    if i < at {
      FindsEntry(ps, n, key, nonce, i + 1, at);
    }
  }

  /** Replacing signatures keeps keys, nonces and so every sum and the signed message. */
  lemma SameTable(s: Slate, t: Slate)
    requires |s.participants| == |t.participants|
    requires forall i :: 0 <= i < |s.participants| ==>
               Matches(s.participants[i], t.participants[i].key, t.participants[i].nonce)
    ensures KeyTotal(s.participants) == KeyTotal(t.participants)
    ensures NonceTotal(s.participants) == NonceTotal(t.participants)
  {
    assert Keys(s.participants) == Keys(t.participants);
    assert Nonces(s.participants) == Nonces(t.participants);
  }

  lemma HonestAccepted(env: Env, s: Slate, cs: seq<Secret>, signed: seq<bool>)
    requires Built(env, s, cs, signed) && SumsValid(s)
    ensures VerifyPartSigs(env, s) == Ok(())
    ensures |cs| > 0 ==> SigningContext(s) == KernelFeatures(s)
    ensures forall i :: 0 <= i < |cs| ==> SigAccepted(env, s, s.participants[i], KernelFeatures(s).value, INFINITY)
  {
    hide Mod, Sum;
    ModZero();
    var m := KernelFeatures(s).value;
    forall i | 0 <= i < |cs|
      ensures SigAccepted(env, s, s.participants[i], m, INFINITY)
    {
      if signed[i] {
        SignVerifies(env.challenge, m, cs[i].x, cs[i].k, 0,
                     NonceTotal(s.participants), KeyTotal(s.participants), INFINITY);
      }
    }
  }

  /** Once every entry is present, round 2 by participant i succeeds and adds exactly its signature. */
  lemma SignEntry(env: Env, s: Slate, cs: seq<Secret>, signed: seq<bool>, i: nat)
    requires Built(env, s, cs, signed) && SumsValid(s)
    requires i < |cs| == NumParticipants(s)
    ensures FillRound2(env, s, cs[i].x, cs[i].k).Ok?
    ensures var t := FillRound2(env, s, cs[i].x, cs[i].k).value;
            && t == s.(participants := t.participants)
            && Built(env, t, cs, signed[i := true])
            && SumsValid(t)
  {
    hide Mod, Sum;
    HonestAccepted(env, s, cs, signed);
    forall j | 0 <= j < i
      ensures !Matches(s.participants[j], PointOf(cs[i].x), PointOf(cs[i].k))
    {
      assert PointOf(cs[j].k) != PointOf(cs[i].k);
    }
    FindsEntry(s.participants, NumParticipants(s), PointOf(cs[i].x), PointOf(cs[i].k), 0, i);
    var t := FillRound2(env, s, cs[i].x, cs[i].k).value;
    SameTable(s, t);
  }

  lemma SigNoncesOf(env: Env, s: Slate, cs: seq<Secret>, signed: seq<bool>)
    requires Built(env, s, cs, signed) && (forall i :: 0 <= i < |signed| ==> signed[i])
    ensures AllSigned(s.participants) && SigNonces(s.participants) == Nonces(s.participants)
  {
    forall i | 0 <= i < |cs|
      ensures s.participants[i].sig.Some? && s.participants[i].sig.value.R == s.participants[i].nonce
    {
      assert s.participants[i].sig == Some(HonestSig(env, s, cs[i]));
    }
  }

  /** A fully signed honest table always completes into the aggregate signature. */
  lemma HonestSignature(env: Env, s: Slate, cs: seq<Secret>, signed: seq<bool>)
    requires Built(env, s, cs, signed) && SumsValid(s) && |cs| > 0
    requires forall i :: 0 <= i < |signed| ==> signed[i]
    ensures FinalizeSignature(env, s) == Ok(Aggregate(s.participants))
  {
    HonestAccepted(env, s, cs, signed);
    SigNoncesOf(env, s, cs, signed);
    AggregationExact(env, s, KernelFeatures(s).value);
  }

  /** What finalisation of a fully signed honest table adds to the signature checks: one kernel, the fee,
      valid range proofs, balance of values and of blinding factors, and the kernel signature under the
      features the kernel carries. */
  ghost predicate ReadyToPublish(env: Env, s: Slate, tx: Transaction) {
    && |tx.kernels| == 1
    && env.txFee(|tx.inputs|, |tx.outputs|, 1) <= tx.kernels[0].features.fee
    && env.txFee(|tx.inputs|, |tx.outputs|, 1) <= s.amount + s.fee
    && ProofsValid(env, tx)
    && Sum(OutValues(tx.outputs)) + tx.kernels[0].features.fee == Sum(InValues(tx.inputs))
    && Mod(Sum(OutBlinds(tx.outputs)) - Sum(InBlinds(tx.inputs))) == Mod(Sum(Keys(s.participants)) + tx.offset)
    && VerifyCompleted(env.challenge, Aggregate(s.participants), tx.kernels[0].features, KeyTotal(s.participants))
  }

  /** Finalisation completeness and soundness: an honest, fully signed slate is finalised exactly when it is
      ready, and then the result is that transaction with the excess and the aggregate signature filled in. */
  lemma HonestFinalize(env: Env, s: Slate, cs: seq<Secret>, signed: seq<bool>)
    requires Built(env, s, cs, signed) && SumsValid(s) && |cs| > 0
    requires forall i :: 0 <= i < |signed| ==> signed[i]
    requires s.tx.Some?
    ensures Finalize(env, s).Ok? <==> ReadyToPublish(env, s, s.tx.value)
    ensures Finalize(env, s).Ok? ==>
              var tx := s.tx.value;
              var final := ReplaceKernel(tx, Kernel(tx.kernels[0].features, KeyTotal(s.participants),
                                                    Aggregate(s.participants)));
              Finalize(env, s).value == s.(tx := Some(final)) && TxValid(env, final)
  {
    hide Mod, Sum;
    HonestSignature(env, s, cs, signed);
    var tx := s.tx.value;
    if |tx.kernels| == 1 {
      var k := Kernel(tx.kernels[0].features, KeyTotal(s.participants), Aggregate(s.participants));
      var final := ReplaceKernel(tx, k);
      SingleKernelSums(k);
      SingleKernelSums(tx.kernels[0]);
      assert tx.kernels == [tx.kernels[0]];
      ModAdd(Sum(Keys(s.participants)), tx.offset);
      assert final.kernels[0] == k;
    }
  }

  /** When the kernel carries the slate's own features, its signature check is the aggregate's. */
  lemma OwnFeaturesVerify(env: Env, s: Slate, cs: seq<Secret>, signed: seq<bool>)
    requires Built(env, s, cs, signed) && SumsValid(s) && |cs| > 0
    requires forall i :: 0 <= i < |signed| ==> signed[i]
    ensures VerifyCompleted(env.challenge, Aggregate(s.participants), KernelFeatures(s).value, KeyTotal(s.participants))
  {
    HonestSignature(env, s, cs, signed);
    HonestAccepted(env, s, cs, signed);
  }
}
