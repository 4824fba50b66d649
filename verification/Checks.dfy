/** What every operation has checked before it goes on, whatever the other party sent. */
module Checks {
  import opened Wrappers
  import opened Curve
  import opened Transactions
  import opened Slates
  import opened Coins
  import opened Contract
  import opened Stages
  import opened Wire
  import opened Endpoints
  import opened Bitcoin
  import opened Decimal
  import opened SwapState
  import opened Locking
  import opened Execution

  // ---------------------------------------------------------------- range proofs

  /** An output of this slate has a proof that fails. */
  ghost predicate Forged(env: Env, s: Slate, i: nat) {
    && s.tx.Some? && i < |s.tx.value.outputs|
    && !VerifyProof(env, s.tx.value.outputs[i].commit, s.tx.value.outputs[i].proof)
  }

  /** Nobody spends, receives, signs or finalises on top of an output whose proof fails. */
  lemma ForgedRefused(env: Env, s: Slate, i: nat, coins: seq<Coin>, fund: nat, timelock: nat, x: int, k: int,
                      r: RecvRandom, h: SharedRandom, ctx: ProofContext, finalize: bool, pubX: Option<Point>,
                      replace: Option<(Sig, Sig)>)
    requires Forged(env, s, i)
    ensures DSpendCoins(env, coins, s, fund, timelock, k) == Err(InvalidRangeProof)
    ensures RecvCoins(env, s, fund, r) == Err(InvalidRangeProof)
    ensures AptRecvCoins(env, s, fund, x, r) == Err(InvalidRangeProof)
    ensures DRecvCoinsR1(env, s, fund, h) == Err(InvalidRangeProof)
    ensures DRecvCoinsR2(env, s, fund, ctx, h) == Err(InvalidRangeProof)
    ensures FinTx(env, s, x, k, finalize, pubX, replace) == Err(InvalidRangeProof)
    ensures Finalize(env, s).Err?
  {
    hide Mod, Sum, VerifyProof, FinalizeSignature, CheckFees;
    assert !ProofsValid(env, s.tx.value);
    if Finalize(env, s).Ok? {
      FinalValid(env, s);
    }
  }

  lemma FinalValid(env: Env, s: Slate)
    requires Finalize(env, s).Ok?
    ensures s.tx.Some? && Finalize(env, s).value.tx.Some? && TxValid(env, Finalize(env, s).value.tx.value)
    ensures Finalize(env, s).value.tx.value == s.tx.value.(kernels := Finalize(env, s).value.tx.value.kernels)
  {
    hide Mod, Sum, TxValid, FinalizeSignature;
  }

  /** What fin_tx hands out as final is a valid transaction, whoever had a hand in the slate. */
  lemma FinishedValid(env: Env, s: Slate, x: int, k: int, pubX: Option<Point>, replace: Option<(Sig, Sig)>)
    requires FinTx(env, s, x, k, true, pubX, replace).Ok?
    ensures var f := FinTx(env, s, x, k, true, pubX, replace).value;
            f.tx.Some? && TxValid(env, f.tx.value)
  {
    hide Mod, Sum, TxValid, Finalize, SignAdapted, SignPlain;
    var t := if pubX.Some? then SignAdapted(env, s, x, k, pubX.value) else SignPlain(env, s, x, k, replace);
    FinalValid(env, t.value);
  }

  /** Without a transaction there is nothing to prove, to sign or to finish. */
  lemma MissingRefused(env: Env, s: Slate, x: int, k: int, ctx: ProofContext, h: SharedRandom, finalize: bool,
                       pubX: Option<Point>, replace: Option<(Sig, Sig)>)
    requires s.tx.None?
    ensures DRecvCoinsR3(env, s, ctx, h).Err? && FinTx(env, s, x, k, finalize, pubX, replace).Err?
    ensures UpdateKernel(s).Err? && Finalize(env, s).Err?
  {
    hide Mod, Sum, ProofRound2, FinishProof, FinalizeSignature;
  }

  // ---------------------------------------------------------------- nothing out of nothing

  lemma {:induction false} PartOfSum(xs: seq<int>, i: nat)
    requires i < |xs| && forall j :: 0 <= j < |xs| ==> xs[j] >= 0
    ensures 0 <= xs[i] <= Sum(xs)
  {
    var n := |xs| - 1;
    NotNegative(xs[..n]);
    if i < n {
      PartOfSum(xs[..n], i);
    }
  }

  lemma {:induction false} NotNegative(xs: seq<int>)
    requires forall j :: 0 <= j < |xs| ==> xs[j] >= 0
    ensures Sum(xs) >= 0
  {
    if |xs| > 0 {
      NotNegative(xs[..|xs| - 1]);
    }
  }

  /** A valid transaction creates nothing: every output is worth between zero and all the inputs together, below 2^64,
      and outputs and fees add up to exactly the inputs. */
  lemma NothingCreated(env: Env, tx: Transaction, i: nat)
    requires TxValid(env, tx) && i < |tx.outputs|
    ensures 0 <= tx.outputs[i].commit.v < 0x1_0000_0000_0000_0000
    ensures tx.outputs[i].commit.v <= Sum(InValues(tx.inputs))
    ensures Sum(OutValues(tx.outputs)) + Sum(Fees(tx.kernels)) == Sum(InValues(tx.inputs))
  {
    hide Mod, Sum, BlindBalanced, KernelValid;
    assert VerifyProof(env, tx.outputs[i].commit, tx.outputs[i].proof);
    PartOfSum(OutValues(tx.outputs), i) by {
      forall j | 0 <= j < |tx.outputs| ensures OutValues(tx.outputs)[j] >= 0 {
        assert VerifyProof(env, tx.outputs[j].commit, tx.outputs[j].proof);
      }
    }
    NotNegative(Fees(tx.kernels));
  }

  // ---------------------------------------------------------------- partial signatures

  /** Entry i holds a signature that this extra key does not explain: s G is not R + e P + X, with the challenge over
      the sums of the table and the slate's own features. */
  ghost predicate Unexplained(env: Env, s: Slate, i: nat, X: Point) {
    && i < |s.participants| && s.participants[i].sig.Some?
    && (KernelFeatures(s).Ok? ==>
          var sig := s.participants[i].sig.value;
          var e := env.challenge(PointOf(Sum(Nonces(s.participants))), PointOf(Sum(Keys(s.participants))),
                                 KernelFeatures(s).value);
          Mod(sig.s) != Mod(sig.R.dlog + e * s.participants[i].key.dlog + X.dlog))
  }

  /** Nobody signs a slate that holds such a signature, with X or without, and it is not finalised. */
  lemma UnexplainedRefused(env: Env, s: Slate, i: nat, x: int, k: int, X: Point, finalize: bool,
                           replace: Option<(Sig, Sig)>)
    ensures Unexplained(env, s, i, INFINITY) ==>
              && FillRound2(env, s, x, k).Err? && FinTx(env, s, x, k, finalize, None, None).Err?
              && Finalize(env, s).Err?
    ensures Unexplained(env, s, i, X) ==> FinTx(env, s, x, k, finalize, Some(X), replace).Err?
  {
    hide Mod, Sum, ProofsValid, Sign, SetSig, FinalizeTransaction, Aggregate;
    if i < |s.participants| && s.participants[i].sig.Some? {
      assert !Unsigned(s.participants);
    }
  }

  /** Alice reads a witness off a slate exactly when its entry 2 is there and signed: the difference to the signature
      she kept. */
  lemma ReadsThird(s: Slate, adapted: Sig)
    ensures ContractRead(s, adapted).Ok? <==> |s.participants| > 2 && s.participants[2].sig.Some?
    ensures ContractRead(s, adapted).Ok? ==>
              ContractRead(s, adapted).value == Mod(adapted.s - s.participants[2].sig.value.s)
  {
    hide Mod;
    if |s.participants| > 2 && s.participants[2].sig.Some? {
      var plain := s.participants[2].sig.value;
      ModAdd(0 - plain.s, adapted.s);
    }
  }

  /** Reveal or no publish, for arbitrary slates from the peer: once Alice has signed under X, any slate over the same
      table and message that can be finalised, with the same nonce in entry 2, lets her read the logarithm of X. */
  lemma SignedForWitness(env: Env, sp: SpendResult, s: Slate, t: Slate, X: Point)
    requires ContractSign(env, sp, s, X).Ok? && Finalize(env, t).Ok?
    requires |s.participants| == |t.participants| && KernelFeatures(s) == KernelFeatures(t)
    requires forall j :: 0 <= j < |s.participants| ==>
               s.participants[j].key == t.participants[j].key && s.participants[j].nonce == t.participants[j].nonce
    requires |t.participants| > 2 && t.participants[2].sig.Some?
    requires t.participants[2].sig.value.R == ContractSign(env, sp, s, X).value.adapted.R
    ensures ContractRead(t, ContractSign(env, sp, s, X).value.adapted).Ok?
    ensures PointOf(ContractRead(t, ContractSign(env, sp, s, X).value.adapted).value) == X
  {
    hide Mod, Sum, Finalize, SetSig, Sign, ProofsValid, VerifyPartial;
    assert SigAccepted(env, s, s.participants[2], KernelFeatures(s).value, X);
    RevealedWitness(env, s, t, 2, X);
  }

  // ---------------------------------------------------------------- kernel features

  /** The kernel a new slate asked for these features stands for once its fee is set: a plain one for 0 and for numbers
      above 3, a height-locked one for 2 with a height, one against recent duplicates for 3 with at most a week's worth
      of blocks, and none otherwise. */
  lemma NewKernel(id: nat, parts: nat, feat: nat, lock: Option<nat>, fee: nat)
    ensures var k := KernelFeatures(BlankWithKernelFeatures(id, parts, feat, lock).(fee := fee));
            && (feat == 0 || feat > 3 ==> k == Ok(Plain(fee)))
            && (feat == 1 ==> k.Err?)
            && (feat == 2 ==> (k.Ok? <==> lock.Some?) && (k.Ok? ==> k.value == HeightLocked(fee, lock.value)))
            && (feat == 3 ==> (k.Ok? <==> lock.Some? && 1 <= lock.value <= 10080)
                              && (k.Ok? ==> k.value == NoRecentDuplicate(fee, lock.value)))
  {
  }

  // ---------------------------------------------------------------- joining

  /** A second spender joins exactly the slates that name its amount, its number of inputs and its lock, whose outputs
      are proven, and only with a key and a nonce that do not vanish. */
  lemma DSpendExact(env: Env, coins: seq<Coin>, s: Slate, fund: nat, timelock: nat, k: int)
    ensures DSpendCoins(env, coins, s, fund, timelock, k).Ok? <==>
              (&& s.amount == fund
               && (if s.tx.Some? then |s.tx.value.inputs| else 0) == |coins|
               && (if timelock == 0 then s.features == 0 else s.features == 2 && s.lockHeight == Some(timelock))
               && (forall i: nat :: !Forged(env, s, i))
               && Mod(0 - Sum(Blinds(coins))) != 0 && Mod(k) != 0)
  {
    hide Mod, Sum, VerifyProof, Others, KeptSig;
    if forall i: nat :: !Forged(env, s, i) {
      forall i | 0 <= i < |TxOrEmpty(s).outputs|
        ensures VerifyProof(env, TxOrEmpty(s).outputs[i].commit, TxOrEmpty(s).outputs[i].proof)
      {
        assert !Forged(env, s, i);
      }
    }
  }

  /** Storing a signature finds the first entry of its participant; a slot past the table stops it. */
  lemma SetSigExact(s: Slate, key: Point, nonce: Point, sig: Sig)
    ensures var ps, n := s.participants, if s.numParticipants == 0 then 2 else s.numParticipants;
            && (SetSig(s, key, nonce, sig).Ok? <==>
                  |ps| >= n || exists i :: 0 <= i < |ps| && ps[i].key == key && ps[i].nonce == nonce)
            && (SetSig(s, key, nonce, sig).Ok? ==>
                  var t := SetSig(s, key, nonce, sig).value;
                  && t == s.(participants := t.participants) && |t.participants| == |ps|
                  && forall i :: 0 <= i < |ps| ==>
                       t.participants[i] ==
                         if i < n && ps[i].key == key && ps[i].nonce == nonce
                            && (forall j :: 0 <= j < i ==> !(ps[j].key == key && ps[j].nonce == nonce))
                         then ps[i].(sig := Some(sig)) else ps[i])
  {
    FirstEntry(s.participants, NumParticipants(s), key, nonce, 0);
  }

  lemma {:induction false} FirstEntry(ps: seq<Participant>, n: nat, key: Point, nonce: Point, i: nat)
    requires i <= n && i <= |ps|
    requires forall j :: 0 <= j < i ==> !Matches(ps[j], key, nonce)
    ensures var r := FindEntry(ps, n, key, nonce, i);
            && (r.Ok? <==> |ps| >= n || exists j :: 0 <= j < |ps| && Matches(ps[j], key, nonce))
            && (r.Ok? ==> forall j :: 0 <= j < r.value && j < |ps| ==> !Matches(ps[j], key, nonce))
            && (r.Ok? && r.value < n ==> r.value < |ps|)
    decreases n - i
  {
    if i < n && i < |ps| && !Matches(ps[i], key, nonce) {
      FirstEntry(ps, n, key, nonce, i + 1);
    }
  }

  /** Replacing a signature changes the first slot that holds it, and nothing when none does; a slot past the table
      stops it. */
  lemma ReplaceExact(s: Slate, old_: Sig, new_: Sig)
    ensures var ps, n := s.participants, if s.numParticipants == 0 then 2 else s.numParticipants;
            && (ReplaceSig(s, old_, new_).Ok? <==>
                  |ps| >= n || exists i :: 0 <= i < |ps| && ps[i].sig == Some(old_))
            && (ReplaceSig(s, old_, new_).Ok? ==>
                  var t := ReplaceSig(s, old_, new_).value;
                  && t == s.(participants := t.participants) && |t.participants| == |ps|
                  && forall i :: 0 <= i < |ps| ==>
                       t.participants[i] ==
                         if i < n && ps[i].sig == Some(old_) && (forall j :: 0 <= j < i ==> ps[j].sig != Some(old_))
                         then ps[i].(sig := Some(new_)) else ps[i])
  {
    FirstSig(s.participants, NumParticipants(s), old_, 0);
  }

  lemma {:induction false} FirstSig(ps: seq<Participant>, n: nat, sig: Sig, i: nat)
    requires i <= n && i <= |ps|
    requires forall j :: 0 <= j < i ==> ps[j].sig != Some(sig)
    ensures var r := FindSig(ps, n, sig, i);
            && (r.Ok? <==> |ps| >= n || exists j :: 0 <= j < |ps| && ps[j].sig == Some(sig))
            && (r.Ok? ==> forall j :: 0 <= j < r.value && j < |ps| ==> ps[j].sig != Some(sig))
            && (r.Ok? && r.value < n ==> r.value < |ps|)
    decreases n - i
  {
    if i < n && i < |ps| && ps[i].sig != Some(sig) {
      FirstSig(ps, n, sig, i + 1);
    }
  }

  /** Round 2 signs exactly the slates whose partial signatures pass, whose sums stand, whose features can be signed and
      on which the signer, with a key and nonce that do not vanish, is not missing. */
  lemma Round2Exact(env: Env, s: Slate, x: int, k: int)
    ensures var n := if s.numParticipants == 0 then 2 else s.numParticipants;
            FillRound2(env, s, x, k).Ok? <==>
              (&& |s.participants| > 0
               && Mod(Sum(Keys(s.participants))) != 0 && Mod(Sum(Nonces(s.participants))) != 0
               && KernelFeatures(s).Ok? && (forall i: nat :: !Unexplained(env, s, i, INFINITY))
               && Mod(x) != 0 && Mod(k) != 0
               && (|s.participants| >= n
                   || exists i :: 0 <= i < |s.participants| && s.participants[i].key == PointOf(x)
                                  && s.participants[i].nonce == PointOf(k)))
  {
    hide Mod, Sum, Sign, SetSig;
    if KernelFeatures(s).Ok? {
      ExplainedExact(env, s);
      SetSigExact(s, PointOf(x), PointOf(k), Sign(env.challenge, KernelFeatures(s).value, x, k, 0,
                                                  NonceTotal(s.participants), KeyTotal(s.participants)));
    }
  }

  /** A key or nonce that vanishes joins nothing and signs nothing. */
  lemma ZeroRefused(env: Env, s: Slate, x: int, k: int, fund: nat, w: int, finalize: bool, pubX: Option<Point>,
                    replace: Option<(Sig, Sig)>)
    requires Mod(x) == 0 || Mod(k) == 0
    ensures FillRound1(s, x, k).Err? && FillRound2(env, s, x, k).Err?
    ensures RecvCoins(env, s, fund, RecvRandom(x, k)).Err? && AptRecvCoins(env, s, fund, w, RecvRandom(x, k)).Err?
    ensures FinTx(env, s, x, k, finalize, pubX, replace).Err?
  {
    hide Mod, Sum, Sign, SetSig, Commit, ProofsValid, Others, KeptSig;
  }

  /** Whoever built it, a slate is finalised exactly when its key and nonce sums stand, its features can be signed,
      every signature present is explained, their sum signs the slate, its one kernel pays the fee of its shape, as do
      the amount and fee the slate names, and the transaction completed with sum and signature is valid. */
  lemma FinalizeExact(env: Env, s: Slate)
    ensures Finalize(env, s).Ok? <==>
              (&& |s.participants| > 0 && s.tx.Some? && |s.tx.value.kernels| == 1
               && Mod(Sum(Keys(s.participants))) != 0 && Mod(Sum(Nonces(s.participants))) != 0
               && KernelFeatures(s).Ok?
               && (forall i: nat :: !Unexplained(env, s, i, INFINITY))
               && VerifyCompleted(env.challenge, Aggregate(s.participants), KernelFeatures(s).value,
                                  PointOf(Sum(Keys(s.participants))))
               && env.txFee(|s.tx.value.inputs|, |s.tx.value.outputs|, 1) <= s.tx.value.kernels[0].features.fee
               && env.txFee(|s.tx.value.inputs|, |s.tx.value.outputs|, 1) <= s.amount + s.fee
               && TxValid(env, s.tx.value.(kernels := [Kernel(s.tx.value.kernels[0].features,
                                                              PointOf(Sum(Keys(s.participants))),
                                                              Aggregate(s.participants))])))
  {
    hide Mod, Sum, TxValid, VerifyCompleted, Aggregate;
    if s.tx.Some? && |s.tx.value.kernels| == 1 {
      SingleKernelSums(s.tx.value.kernels[0]);
      assert s.tx.value.kernels == [s.tx.value.kernels[0]];
    }
    if KernelFeatures(s).Ok? {
      ExplainedExact(env, s);
    }
  }

  /** Partial signatures pass exactly when there are none, or both sums stand, the features can be signed and each of
      them is explained. */
  lemma PartSigsExact(env: Env, s: Slate)
    ensures VerifyPartSigs(env, s).Ok? <==>
              || (forall i :: 0 <= i < |s.participants| ==> s.participants[i].sig.None?)
              || (&& Mod(Sum(Keys(s.participants))) != 0 && Mod(Sum(Nonces(s.participants))) != 0
                  && KernelFeatures(s).Ok? && forall i: nat :: !Unexplained(env, s, i, INFINITY))
  {
    hide Mod, Sum;
    if KernelFeatures(s).Ok? {
      ExplainedExact(env, s);
    }
  }

  /** In terms of the loop over the entries. */
  lemma ExplainedExact(env: Env, s: Slate)
    requires KernelFeatures(s).Ok?
    ensures (forall i: nat :: !Unexplained(env, s, i, INFINITY)) <==>
              (forall i :: 0 <= i < |s.participants| ==>
                 SigAccepted(env, s, s.participants[i], KernelFeatures(s).value, INFINITY))
  {
    hide Mod, Sum;
    forall i | 0 <= i < |s.participants|
      ensures Unexplained(env, s, i, INFINITY) <==>
                !SigAccepted(env, s, s.participants[i], KernelFeatures(s).value, INFINITY)
    {
    }
  }

  // ---------------------------------------------------------------- setup messages

  /** Whatever the peer writes, Alice goes on exactly when she reads two keys, a lock time in 64 bits, an id and the
      very address she computes from them, her node shows the agreed amount, and her own lock height fits. She then
      keeps output 0 of that transaction, under her key and with the script she computed. */
  lemma VerifyExact(c: MwSide, h: seq<Msg>)
    ensures var time := if Nth(h, 2).Text? then ParseI64(Nth(h, 2).s) else None;
            && (MwVerify(c, h).Ok? <==>
                  (&& Nth(h, 0).Key? && Nth(h, 1).Key? && time.Some? && c.imported && Nth(h, 4).Text?
                   && Nth(h, 3) == Text(c.e.address(LockPubScript(c.e, PointOf(c.draws.sk), Nth(h, 1).p, Nth(h, 0).p,
                                                                  time.value)))
                   && Shows(c.balances, c.start.btc.amount)
                   && c.height + c.start.mw.timelock < 0x8000_0000_0000_0000))
            && (MwVerify(c, h).Ok? ==>
                  var v := MwVerify(c, h).value;
                  && v.lock == BtcInput(Nth(h, 4).s, 0, c.start.btc.amount, c.draws.sk, PointOf(c.draws.sk),
                                        LockPubScript(c.e, PointOf(c.draws.sk), Nth(h, 1).p, Nth(h, 0).p, time.value))
                  && v.lockGrin == c.height + c.start.mw.timelock
                  && v.pub == PubSlate(SETUP, c.start.mw.(lockTime := Some(v.lockGrin)),
                                c.start.btc.(lockTime := time, pubA := Some(PointOf(c.draws.sk)),
                                             pubB := Some(Nth(h, 0).p), pubX := Some(Nth(h, 1).p)), c.start.meta))
  {
    hide PointOf, LockPubScript, Poll, ParseI64, Shows;
    PollExact(c.balances, c.start.btc.amount);
  }

  /** Alice pushes the funding only after that, and whatever slates came from the peer, what she pushes and the refund
      she keeps are valid transactions. */
  lemma LockChecked(c: MwSide, h: seq<Msg>)
    requires MwLock(c, h).Ok?
    ensures MwVerify(c, h).Ok? && MwLock(c, h).value.lock == MwVerify(c, h).value.lock
    ensures TxValid(c.env, MwLock(c, h).value.funding) && TxValid(c.env, MwLock(c, h).value.refundTx)
  {
    hide MwVerify, TxValid, FinTx, Finalize, DRecvCoinsR3, SpendRespond, DRecvCoinsR1, DealSpend, FromV4;
    var o, s, ctx := MwOpen(c, h).value, AsSlate(c.env, Nth(h, 5)).value, AsContext(Nth(h, 6)).value;
    var r3 := DRecvCoinsR3(c.env, s, ctx, c.draws.share).value;
    FinishedValid(c.env, r3.slate, o.spend.key, o.spend.nonce, None, None);
    FinalValid(c.env, UpdateKernel(AsSlate(c.env, Nth(h, 8)).value).value);
  }

  /** Bob completes setup only with a height he could read and a refund he has finalised into a valid transaction. */
  lemma BtcLockChecked(c: BtcSide, h: seq<Msg>)
    requires BtcLock(c, h).Ok?
    ensures Nth(h, 0).Key? && Nth(h, 1).Text? && ParseI64(Nth(h, 1).s).Some? && ParseI64(Nth(h, 1).s).value >= 0
    ensures BtcLock(c, h).value.pub.mw.lockTime == ParseI64(Nth(h, 1).s)
    ensures BtcClose(c, h).Ok? && BtcClose(c, h).value.tx.Some? && TxValid(c.env, BtcClose(c, h).value.tx.value)
  {
    hide PointOf, ParseI64, FundWith, TxValid, FinTx, DRecvCoinsR2, DealSpend, FromV4;
    var sp, s := BtcRefund(c, h).value, AsSlate(c.env, Nth(h, 5)).value;
    FinishedValid(c.env, UpdateKernel(s).value, sp.key, sp.nonce, None, None);
  }

  // ---------------------------------------------------------------- execution messages

  /** Bob pushes only valid contracts, within his hour, whatever slates came from the peer. */
  lemma ContractChecked(c: BtcExec, h: seq<Msg>)
    requires BtcExecute(c, h).Ok?
    ensures TxValid(c.env, BtcExecute(c, h).value.contract)
    ensures c.slate.pub.mw.lockTime.Some? && c.grin + 60 <= c.slate.pub.mw.lockTime.value
    ensures c.slate.pub.btc.lockTime.Some? && c.btc + 6 <= c.slate.pub.btc.lockTime.value
  {
    hide TxValid, FinTx, ContractRespond, FromV4;
    var r, s := BtcRespond(c, h).value, AsSlate(c.env, Nth(h, 1)).value;
    FinishedValid(c.env, s, r.spend.key, r.spend.nonce, None, Some((r.recv.adapted, r.recv.plain)));
  }
}
