/** The contract transaction: spending the shared coin while revealing the discrete logarithm of X. */
module Contract {
  import opened Wrappers
  import opened Curve
  import opened Transactions
  import opened Slates
  import opened SlateProofs
  import opened Wire
  import opened Coins
  import opened CoinProofs
  import opened Stages
  import opened Builders

  // ---------------------------------------------------------------- reveal or no publish

  /** A slate that still holds a signature accepted under X is never finalised, unless X is the identity. */
  lemma AdaptedNeverFinalised(env: Env, s: Slate, i: nat, X: Point)
    requires i < |s.participants| && s.participants[i].sig.Some? && X != INFINITY
    requires KernelFeatures(s).Ok? && SigAccepted(env, s, s.participants[i], KernelFeatures(s).value, X)
    ensures Finalize(env, s).Err?
    ensures forall x, k :: FillRound2(env, s, x, k).Err?
  {
    hide Mod, Sum;
    var p, m := s.participants[i], KernelFeatures(s).value;
    AdaptedIsNotPlain(env.challenge, m, p.sig.value, NonceTotal(s.participants), p.key, KeyTotal(s.participants), X);
    assert !SigAccepted(env, s, p, m, INFINITY);
    assert !Unsigned(s.participants);
    assert VerifyPartSigs(env, s).Err?;
  }

  /** Whatever a later, accepted slate over the same table holds in that entry, it yields the logarithm of X. */
  lemma RevealedWitness(env: Env, s: Slate, t: Slate, i: nat, X: Point)
    requires i < |s.participants| == |t.participants|
    requires s.participants[i].sig.Some? && t.participants[i].sig.Some?
    requires forall j :: 0 <= j < |s.participants| ==>
               Matches(s.participants[j], t.participants[j].key, t.participants[j].nonce)
    requires KernelFeatures(s).Ok? && KernelFeatures(s) == KernelFeatures(t)
    requires SigAccepted(env, s, s.participants[i], KernelFeatures(s).value, X)
    requires Finalize(env, t).Ok?
    requires s.participants[i].sig.value.R == t.participants[i].sig.value.R
    ensures PointOf(ExtractWitness(t.participants[i].sig.value, s.participants[i].sig.value)) == X
  {
    hide Mod, Sum;
    SameTable(s, t);
    assert VerifyPartSigs(env, t).Ok? && !Unsigned(t.participants);
    assert SigAccepted(env, t, t.participants[i], KernelFeatures(t).value, INFINITY);
    ExtractionExact(env.challenge, KernelFeatures(s).value, t.participants[i].sig.value, s.participants[i].sig.value,
                    NonceTotal(s.participants), s.participants[i].key, KeyTotal(s.participants), X);
  }

  // ---------------------------------------------------------------- dContractMWTx

  datatype ContractOutcome = ContractOutcome(alice: Slate, bob: Slate, change: Option<Coin>, coin: Coin,
                                                       revealed: Scalar)

  /** The signature Alice reads at position 2 of a slate. */
  function ThirdSig(s: Slate): Result<Sig> {
    if |s.participants| <= 2 then Err(IndexOutOfBounds)
    else if s.participants[2].sig.None? then Err(MissingSignature)
    else Ok(s.participants[2].sig.value)
  }

  function DContract(env: Env, a: Coin, b: Coin, fund: nat, timelock: nat, X: Point, x: int, ra: SpendRandom,
                     nonceB: int, rb: RecvRandom): Result<ContractOutcome> {
    var sp :- DealSpend(env, Deal([a], fund, timelock, 1, 3), ra);
    var ds :- DSpendCoins(env, [b], Carry(env, sp.slate), fund, timelock, nonceB);
    var ap :- AptRecvCoins(env, ds.slate, fund, x, rb);
    var adapted :- ThirdSig(Carry(env, ap.slate));
    var p3 :- FinTx(env, Carry(env, ap.slate), sp.key, sp.nonce, false, Some(X), None);
    var fin :- FinTx(env, Carry(env, p3), ds.key, ds.nonce, true, None, Some((ap.adapted, ap.plain)));
    var plain :- ThirdSig(Carry(env, fin));
    Ok(ContractOutcome(Carry(env, fin), fin, sp.change, ap.coin, ExtractWitness(plain, adapted)))
  }

  ghost function AdaptedSig(env: Env, s: Slate, c: Secret, x: int): Sig
    requires KernelFeatures(s).Ok?
  {
    Sign(env.challenge, KernelFeatures(s).value, c.x, c.k, x, NonceTotal(s.participants), KeyTotal(s.participants))
  }

  /** The table with everyone's entry, where entry 2 may hold the adapted signature instead of the plain one. */
  ghost predicate Adapted(env: Env, s: Slate, cs: seq<Secret>, x: int, first: bool) {
    && |s.participants| == |cs| == 3
    && KernelFeatures(s).Ok?
    && (forall i :: 0 <= i < 3 ==> GoodSecret(cs[i]))
    && DistinctNonces(cs)
    && (forall i :: 0 <= i < 3 ==> Matches(s.participants[i], PointOf(cs[i].x), PointOf(cs[i].k)))
    && s.participants[0].sig == (if first then Some(HonestSig(env, s, cs[0])) else None)
    && s.participants[1].sig == None
    && s.participants[2].sig == Some(AdaptedSig(env, s, cs[2], x))
  }

  /** apt_recv_coins puts the adapted signature, and nothing else, into the receiver's entry. */
  lemma AdaptEntry(env: Env, t: Slate, cs: seq<Secret>, x: int)
    requires Built(env, t, cs, NoneSigned(3)) && |cs| == 3 == NumParticipants(t) && SumsValid(t)
    ensures SigningContext(t) == KernelFeatures(t)
    ensures var r := SetSig(t, PointOf(cs[2].x), PointOf(cs[2].k), AdaptedSig(env, t, cs[2], x));
            r.Ok? && r.value == t.(participants := r.value.participants) && Adapted(env, r.value, cs, x, false)
  {
    hide Mod, Sum;
    forall j | 0 <= j < 2
      ensures !Matches(t.participants[j], PointOf(cs[2].x), PointOf(cs[2].k))
    {
      assert PointOf(cs[j].k) != PointOf(cs[2].k);
    }
    FindsEntry(t.participants, 3, PointOf(cs[2].x), PointOf(cs[2].k), 0, 2);
    SameTable(t, SetSig(t, PointOf(cs[2].x), PointOf(cs[2].k), AdaptedSig(env, t, cs[2], x)).value);
  }

  /** Alice signs over the adapted signature exactly when it was made for her X. */
  lemma SignOverAdapted(env: Env, s: Slate, cs: seq<Secret>, x: int, X: Point)
    requires Adapted(env, s, cs, x, false) && NumParticipants(s) == 3 && SumsValid(s)
    ensures SignAdapted(env, s, cs[0].x, cs[0].k, X).Ok? <==> X == PointOf(x)
    ensures SignAdapted(env, s, cs[0].x, cs[0].k, X).Ok? ==>
              var t := SignAdapted(env, s, cs[0].x, cs[0].k, X).value;
              t == s.(participants := t.participants) && Adapted(env, t, cs, x, true) && SumsValid(t)
  {
    hide Mod, Sum;
    var m := KernelFeatures(s).value;
    SignVerifies(env.challenge, m, cs[2].x, cs[2].k, x, NonceTotal(s.participants), KeyTotal(s.participants), X);
    assert SigAccepted(env, s, s.participants[2], m, X) <==> X == PointOf(x);
    if X == PointOf(x) {
      FindsEntry(s.participants, 3, PointOf(cs[0].x), PointOf(cs[0].k), 0, 0);
      SameTable(s, SignAdapted(env, s, cs[0].x, cs[0].k, X).value);
    }
  }

  /** Bob's replacement finds the adapted signature in entry 2 and restores an honest table. */
  lemma ReplaceAdapted(env: Env, s: Slate, cs: seq<Secret>, x: int)
    requires Adapted(env, s, cs, x, true) && NumParticipants(s) == 3
    ensures var r := ReplaceSig(s, AdaptedSig(env, s, cs[2], x), HonestSig(env, s, cs[2]));
            r.Ok? && r.value == s.(participants := r.value.participants) && Built(env, r.value, cs, [true, false, true])
  {
    hide Mod, Sum;
    var old_ := AdaptedSig(env, s, cs[2], x);
    assert s.participants[0].sig.value.R == PointOf(cs[0].k) != PointOf(cs[2].k) == old_.R;
    assert FindSig(s.participants, 3, old_, 2) == Ok(2);
    assert FindSig(s.participants, 3, old_, 1) == Ok(2);
    assert FindSig(s.participants, 3, old_, 0) == Ok(2);
    SameTable(s, ReplaceSig(s, old_, HonestSig(env, s, cs[2])).value);
  }

  lemma AdaptedIgnoresTx(env: Env, s: Slate, t: Slate, cs: seq<Secret>, x: int, first: bool)
    requires t == s.(tx := t.tx) && Adapted(env, s, cs, x, first)
    ensures Adapted(env, t, cs, x, first)
    ensures AdaptedSig(env, t, cs[2], x) == AdaptedSig(env, s, cs[2], x)
    ensures HonestSig(env, t, cs[2]) == HonestSig(env, s, cs[2])
    ensures SumsValid(s) <==> SumsValid(t)
  {
    hide Mod, Sum;
    assert HonestSig(env, t, cs[0]) == HonestSig(env, s, cs[0]);
  }

  /** Trips over the wire keep the body of the transaction and leave a plain kernel. */
  lemma CarryBody(env: Env, s: Slate)
    requires s.tx.Some? && s.tx.value.offset == s.offset && s.features != 1
    ensures Carry(env, s) == s.(tx := Carry(env, s).tx)
    ensures Carry(env, s).tx.Some?
    ensures var tx := Carry(env, s).tx.value;
            tx == s.tx.value.(kernels := tx.kernels) && |tx.kernels| == 1 && tx.kernels[0].features == Plain(s.fee)
  {
    hide Mod, Sum;
    CarryShape(env, s);
  }

  /** Bob's opening: the slate Alice reads holds the adapted signature at position 2. */
  lemma ContractOpens(env: Env, d: Deal, s: Slate, cs: seq<Secret>, changeKey: int, o: Output, x: int, r: RecvRandom)
    requires |cs| == 3 == d.numParts && Fresh(cs) && cs[2] == Secret(r.key, r.nonce)
    requires AddReceiver(env, s, d.fund, r).Ok?
    requires Stage(env, d, AddReceiver(env, s, d.fund, r).value, cs, NoneSigned(3), changeKey, [o], Sum(Xs(cs)))
    ensures AptRecvCoins(env, s, d.fund, x, r).Ok?
    ensures var t := AddReceiver(env, s, d.fund, r).value;
            var ap := AptRecvCoins(env, s, d.fund, x, r).value;
            var w := Carry(env, ap.slate);
            && KernelFeatures(t).Ok?
            && ap.adapted == AdaptedSig(env, t, cs[2], x) && ap.plain == HonestSig(env, t, cs[2])
            && ThirdSig(w) == Ok(ap.adapted)
            && w == t.(tx := w.tx, participants := w.participants) && w.tx.Some?
            && w.tx.value == t.tx.value.(kernels := w.tx.value.kernels)
            && Adapted(env, w, cs, x, false) && SumsValid(w) && NumParticipants(w) == 3
            && AdaptedSig(env, w, cs[2], x) == ap.adapted && HonestSig(env, w, cs[2]) == ap.plain
  {
    hide Mod, Sum, AddReceiver, Carry, Ledger, ChangeOutputs, ProofsValid;
    var t := AddReceiver(env, s, d.fund, r).value;
    TotalsOfSecrets(env, t, cs, NoneSigned(3));
    AdaptEntry(env, t, cs, x);
    var ap := AptRecvCoins(env, s, d.fund, x, r).value;
    SameTable(t, ap.slate);
    CarryBody(env, ap.slate);
    AdaptedIgnoresTx(env, ap.slate, Carry(env, ap.slate), cs, x, false);
  }

  /** Alice's signature and Bob's replacement: the slate Bob closes is honest again. */
  lemma ContractReturns(env: Env, d: Deal, t: Slate, w: Slate, cs: seq<Secret>, changeKey: int, o: Output, x: int,
                        X: Point)
    requires |cs| == 3 && Stage(env, d, t, cs, NoneSigned(3), changeKey, [o], Sum(Xs(cs)))
    requires w == t.(tx := w.tx, participants := w.participants) && w.tx.Some?
    requires w.tx.value == t.tx.value.(kernels := w.tx.value.kernels)
    requires Adapted(env, w, cs, x, false) && SumsValid(w) && NumParticipants(w) == 3
    ensures FinTx(env, w, cs[0].x, cs[0].k, false, Some(X), None).Ok? <==> X == PointOf(x)
    ensures FinTx(env, w, cs[0].x, cs[0].k, false, Some(X), None).Ok? ==>
              var v := Carry(env, FinTx(env, w, cs[0].x, cs[0].k, false, Some(X), None).value);
              var r := ReplaceSig(v, AdaptedSig(env, w, cs[2], x), HonestSig(env, w, cs[2]));
              && r.Ok?
              && r.value == v.(participants := r.value.participants)
              && Stage(env, d, r.value, cs, [true, false, true], changeKey, [o], Sum(Xs(cs)))
              && |r.value.tx.value.kernels| == 1
              && r.value.tx.value.kernels[0].features == Plain(DealFee(env, d))
              && KernelFeatures(r.value).Ok? && HonestSig(env, r.value, cs[2]) == HonestSig(env, w, cs[2])
  {
    hide Mod, Sum, Carry, Ledger, ChangeOutputs, SignAdapted, ReplaceSig, Built, Adapted, SumsValid;
    SignOverAdapted(env, w, cs, x, X);
    if X == PointOf(x) {
      var p3 := FinTx(env, w, cs[0].x, cs[0].k, false, Some(X), None).value;
      SigsKept(env, w, p3, cs, x);
      CarryBody(env, p3);
      var v := Carry(env, p3);
      AdaptedIgnoresTx(env, p3, v, cs, x, true);
      ReplaceAdapted(env, v, cs, x);
      var r := ReplaceSig(v, AdaptedSig(env, v, cs[2], x), HonestSig(env, v, cs[2])).value;
      SigsRestored(env, v, r, cs, x);
      Restage(env, d, t, r, cs, NoneSigned(3), [true, false, true], changeKey, [o], Sum(Xs(cs)));
    }
  }

  lemma SigsKept(env: Env, s: Slate, t: Slate, cs: seq<Secret>, x: int)
    requires Adapted(env, s, cs, x, false) && Adapted(env, t, cs, x, true)
    requires t == s.(participants := t.participants)
    ensures AdaptedSig(env, t, cs[2], x) == AdaptedSig(env, s, cs[2], x)
    ensures HonestSig(env, t, cs[2]) == HonestSig(env, s, cs[2])
  {
    hide Mod, Sum;
    SameTable(s, t);
  }

  lemma SigsRestored(env: Env, s: Slate, t: Slate, cs: seq<Secret>, x: int)
    requires Adapted(env, s, cs, x, true) && Built(env, t, cs, [true, false, true])
    requires t == s.(participants := t.participants)
    ensures HonestSig(env, t, cs[2]) == HonestSig(env, s, cs[2])
  {
    hide Mod, Sum;
    SameTable(s, t);
  }

  /** Replacing first and then signing is what fin_tx does with a replacement pair. */
  lemma FinWithReplacement(env: Env, s: Slate, x: int, k: int, old_: Sig, new_: Sig)
    requires s.tx.Some? && ReplaceSig(s, old_, new_).Ok?
    requires ReplaceSig(s, old_, new_).value.tx == s.tx
    ensures FinTx(env, s, x, k, true, None, Some((old_, new_)))
         == FinTx(env, ReplaceSig(s, old_, new_).value, x, k, true, None, None)
  {
    hide Mod, Sum, ReplaceSig, FillRound2, Finalize;
  }

  lemma ExtractedIsX(env: Env, s: Slate, c: Secret, x: int)
    requires KernelFeatures(s).Ok?
    ensures ExtractWitness(HonestSig(env, s, c), AdaptedSig(env, s, c, x)) == Mod(x)
  {
    hide Mod, Sum;
    var m, n, k := KernelFeatures(s).value, NonceTotal(s.participants), KeyTotal(s.participants);
    ModZero();
    SignVerifies(env.challenge, m, c.x, c.k, x, n, k, PointOf(x));
    SignVerifies(env.challenge, m, c.x, c.k, 0, n, k, INFINITY);
    ExtractionExact(env.challenge, m, HonestSig(env, s, c), AdaptedSig(env, s, c, x), n, PointOf(c.x), k, PointOf(x));
  }

  /** Both parties' conditions on a contract run. */
  ghost predicate ContractCondition(env: Env, a: Coin, fund: nat, timelock: nat, cs: seq<Secret>, X: Point, x: int) {
    var fee := env.txFee(1, 1, 1);
    && SingleSpend(env, a, fund)
    && X == PointOf(x)
    && ChallengesCoincide(env, cs, if timelock == 0 then Plain(fee) else HeightLocked(fee, timelock), Plain(fee))
  }

  /** An honest dContractMWTx run succeeds exactly when X is Bob's statement, the shared value covers fund value
      and fee with no output the fee does not cover, and the transaction is not time-locked (Bob never rebuilds
      the kernel). It then yields a valid transaction spending the shared coin, and Alice extracts x. */
  lemma ContractExact(env: Env, a: Coin, b: Coin, fund: nat, timelock: nat, X: Point, x: int, ra: SpendRandom,
                      nonceB: int, rb: RecvRandom)
    requires GoodEnv(env) && Opens(env, a, b.blind)
    requires Fresh(InpSecrets(env, Deal([a], fund, timelock, 1, 3), b, ra, nonceB, rb))
    ensures DContract(env, a, b, fund, timelock, X, x, ra, nonceB, rb).Ok? <==>
              ContractCondition(env, a, fund, timelock,
                                InpSecrets(env, Deal([a], fund, timelock, 1, 3), b, ra, nonceB, rb), X, x)
    ensures DContract(env, a, b, fund, timelock, X, x, ra, nonceB, rb).Ok? ==>
              var res := DContract(env, a, b, fund, timelock, X, x, ra, nonceB, rb).value;
              && res.revealed == Mod(x) && PointOf(res.revealed) == X
              && res.bob.tx.Some?
              && PaysContract(env, fund, a, res.bob.tx.value, rb)
              && ChangeRight(env, res.bob.tx.value, a.value - fund - env.txFee(1, 1, 1), res.change)
              && Owns(env, res.bob.tx.value, res.coin, fund)
              && res.alice == Carry(env, res.bob) && (timelock == 0 ==> res.alice == res.bob)
  {
    hide Mod, Sum, AddReceiver, AptRecvCoins, DSpendCoins, Carry, FinTx, ChallengesCoincide, DealSpend, SpendSecret,
         TxValid,
         Fresh, Built, Ledger, ProofsValid, ReplaceSig, ChangeOutputs, Adapted, SumsValid, FeeCovers, SpendGuard,
         NumParticipants, Paid, ChangeRight, Owns, SingleSpend, Commit;
    var d := Deal([a], fund, timelock, 1, 3);
    var cs := InpSecrets(env, d, b, ra, nonceB, rb);
    GuardFirst(env, d, ra);
    SingleSpendExact(env, a, fund, timelock, 3);
    if SpendGuard(env, [a], fund, 1).Ok? {
      SharedSpendOpens(env, d, a, b, ra, nonceB, rb);
      var sp := DealSpend(env, d, ra).value;
      var ds := DSpendCoins(env, [b], Carry(env, sp.slate), fund, timelock, nonceB).value;
      var t := AddReceiver(env, ds.slate, fund, rb).value;
      var o := ReceiverOutput(fund, rb);
      ContractOpens(env, d, ds.slate, cs, ra.changeKey, o, x, rb);
      var ap := AptRecvCoins(env, ds.slate, fund, x, rb).value;
      var w := Carry(env, ap.slate);
      ContractReturns(env, d, t, w, cs, ra.changeKey, o, x, X);
      if X == PointOf(x) {
        var v := Carry(env, FinTx(env, w, cs[0].x, cs[0].k, false, Some(X), None).value);
        var r := ReplaceSig(v, ap.adapted, ap.plain).value;
        FinWithReplacement(env, v, cs[1].x, cs[1].k, ap.adapted, ap.plain);
        CommitValue(fund, rb.key);
        CloseStage(env, d, [b.blind], r, cs, [true, false, true], ra.changeKey, o, 1);
        if FinTx(env, r, cs[1].x, cs[1].k, true, None, None).Ok? {
          ClosedSignatures(env, d, r, cs, [true, false, true], ra.changeKey, [o], Sum(Xs(cs)), 1);
          var fin := FinTx(env, r, cs[1].x, cs[1].k, true, None, None).value;
          CarrySigs(env, fin);
          ExtractedIsX(env, w, cs[2], x);
          ModIdem(x);
          ClosedPays(env, d, r, fin, cs, [true, false, true], ra.changeKey, o, Sum(Xs(cs)));
          OneTotal(a);
          AdaptedCoin(env, ds.slate, fund, x, rb);
          SomeOutput(env, [a], fund, env.txFee(1, 1, 1), fin.tx.value, Commit(fund, rb.key));
          ReceivedOwns(env, fin.tx.value, fund, rb.key);
        }
      }
    }
  }

  /** In terms a caller can check: unless the challenge hash happens to take both kernel messages for the same, an
      honest run succeeds exactly when X is Bob's statement, the guard passes, nothing is short, the fee covers the
      outputs and no time lock is asked for. */
  lemma ContractPlainOnly(env: Env, a: Coin, b: Coin, fund: nat, timelock: nat, X: Point, x: int, ra: SpendRandom,
                          nonceB: int, rb: RecvRandom)
    requires GoodEnv(env) && Opens(env, a, b.blind)
    requires Fresh(InpSecrets(env, Deal([a], fund, timelock, 1, 3), b, ra, nonceB, rb))
    requires timelock != 0 ==>
               !ChallengesCoincide(env, InpSecrets(env, Deal([a], fund, timelock, 1, 3), b, ra, nonceB, rb),
                  HeightLocked(env.txFee(1, 1, 1), timelock), Plain(env.txFee(1, 1, 1)))
    ensures DContract(env, a, b, fund, timelock, X, x, ra, nonceB, rb).Ok? <==>
              SingleSpend(env, a, fund) && X == PointOf(x) && timelock == 0
  {
    hide Mod, Sum, DContract, Fresh, ChallengesCoincide, InpSecrets, SingleSpend, PaysContract, ChangeRight, Owns;
    ContractExact(env, a, b, fund, timelock, X, x, ra, nonceB, rb);
    SameFeatures(env, InpSecrets(env, Deal([a], fund, timelock, 1, 3), b, ra, nonceB, rb), Plain(env.txFee(1, 1, 1)));
  }

  lemma AdaptedCoin(env: Env, s: Slate, fund: nat, x: int, r: RecvRandom)
    ensures AptRecvCoins(env, s, fund, x, r).Ok? ==>
              AptRecvCoins(env, s, fund, x, r).value.coin == NewCoin(env, Commit(fund, r.key), r.key, fund)
  {
    hide Mod, AddReceiver, SetSig, Commit;
  }

  lemma CarrySigs(env: Env, s: Slate)
    ensures Carry(env, s).participants == s.participants
  {
    hide Mod, Sum;
    CarryShape(env, s);
  }

  /** A valid plain transaction that spends just the shared coin and pays this value to the receiver's key. */
  ghost predicate PaysContract(env: Env, fund: nat, a: Coin, tx: Transaction, rb: RecvRandom) {
    Paid(env, [a], fund, env.txFee(1, 1, 1), Plain(env.txFee(1, 1, 1)), tx, Commit(fund, rb.key))
  }
}
