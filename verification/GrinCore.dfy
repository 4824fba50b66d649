/** The coin operations as the wallet carries them out: loops over inputs, outputs and table entries, and a slate
    object edited in place. Each is proved to compute its function in Coins. */
module GrinCore {
  import opened Wrappers
  import opened Curve
  import opened Transactions
  import opened Slates
  import opened Coins
  import opened TxSlates

  // ---------------------------------------------------------------- the loops

  method VerifyOutputs(env: Env, tx: Transaction) returns (ok: bool)
    ensures ok == ProofsValid(env, tx)
  {
    for i := 0 to |tx.outputs|
      invariant forall j :: 0 <= j < i ==> VerifyProof(env, tx.outputs[j].commit, tx.outputs[j].proof)
    {
      if !VerifyProof(env, tx.outputs[i].commit, tx.outputs[i].proof) {
        return false;
      }
    }
    ok := true;
  }

  lemma {:induction false} TotalGrows(coins: seq<Coin>, i: nat)
    requires i <= |coins|
    ensures Sum(Values(coins[..i])) <= Sum(Values(coins))
    decreases |coins| - i
  {
    if i == |coins| {
      assert coins[..i] == coins;
    } else {
      TotalGrows(coins, i + 1);
      NextValue(coins, i);
    }
  }

  lemma NextValue(coins: seq<Coin>, i: nat)
    requires i < |coins|
    ensures Sum(Values(coins[..i + 1])) == Sum(Values(coins[..i])) + coins[i].value
    ensures Sum(Blinds(coins[..i + 1])) == Sum(Blinds(coins[..i])) + coins[i].blind
  {
    assert Values(coins[..i + 1]) == Values(coins[..i]) + [coins[i].value as int];
    assert Blinds(coins[..i + 1]) == Blinds(coins[..i]) + [coins[i].blind];
    SumAppend(Values(coins[..i]), coins[i].value);
    SumAppend(Blinds(coins[..i]), coins[i].blind);
  }

  /** The first loop of spend_coins: the input value in 64 bits, and a nested comparison of commitment texts. */
  method ScanInputs(coins: seq<Coin>) returns (total: Option<nat>, duplicate: bool)
    ensures total == if Sum(Values(coins)) < U64 then Some(Sum(Values(coins))) else None
    ensures total.Some? ==> duplicate == HasDuplicate(coins)
  {
    hide Sum;
    var inpval: nat := 0;
    duplicate := false;
    assert Sum(Values(coins[..0])) == 0 by { EmptySum(); assert Values(coins[..0]) == []; }
    for i := 0 to |coins|
      invariant inpval == Sum(Values(coins[..i])) < U64
      invariant duplicate <==> exists a, b :: 0 <= a < i && 0 <= b < |coins| && a != b && coins[a].text == coins[b].text
    {
      NextValue(coins, i);
      TotalGrows(coins, i + 1);
      if inpval + coins[i].value >= U64 {
        return None, duplicate;
      }
      inpval := inpval + coins[i].value;
      for j := 0 to |coins|
        invariant duplicate <==>
                    || (exists a, b :: 0 <= a < i && 0 <= b < |coins| && a != b && coins[a].text == coins[b].text)
                    || (exists b :: 0 <= b < j && i != b && coins[i].text == coins[b].text)
      {
        if i != j && coins[i].text == coins[j].text {
          duplicate := true;
        }
      }
    }
    assert coins[..|coins|] == coins;
    total := Some(inpval);
  }

  lemma EmptySum()
    ensures Sum([]) == 0
  {
  }

  /** The second loop: read each commitment, collect the inputs and subtract the blinding factors. */
  method CollectInputs(env: Env, coins: seq<Coin>) returns (r: Result<(seq<Input>, int)>)
    ensures r == if Readable(env, coins) then Ok((InputsFor(env, coins), 0 - Sum(Blinds(coins)))) else Err(BadText)
  {
    hide Sum;
    var inputs: seq<Input> := [];
    var blindSum := 0;
    assert Sum(Blinds(coins[..0])) == 0 by { EmptySum(); assert Blinds(coins[..0]) == []; }
    for i := 0 to |coins|
      invariant Readable(env, coins[..i]) && inputs == InputsFor(env, coins[..i])
      invariant blindSum == 0 - Sum(Blinds(coins[..i]))
    {
      NextValue(coins, i);
      var c := env.readCommit(coins[i].text);
      if c.None? {
        return Err(BadText);
      }
      inputs := inputs + [Input(PlainOutput, c.value)];
      blindSum := blindSum - coins[i].blind;
      assert forall j :: 0 <= j <= i ==> coins[..i + 1][j] == coins[j];
      assert Readable(env, coins[..i + 1]) by {
        assert forall j :: 0 <= j < i ==> env.readCommit(coins[..i][j].text).Some?;
      }
      assert inputs == InputsFor(env, coins[..i + 1]);
    }
    assert coins[..|coins|] == coins;
    r := Ok((inputs, blindSum));
  }

  // ---------------------------------------------------------------- spending

  method SpendCoins(env: Env, coins: seq<Coin>, fund: nat, timelock: nat, numOut: nat, numParts: nat, r: SpendRandom)
    returns (res: Result<SpendResult>)
    ensures res == Coins.SpendCoins(env, coins, fund, timelock, numOut, numParts, r)
  {
    hide Sum, Mod;
    var slate := new TxSlate(BlankWithKernelFeatures(r.id, numParts, if timelock != 0 then 2 else 0,
                                                     if timelock != 0 then Some(timelock) else None));
    var fee := env.txFee(|coins|, numOut, 1);
    var total, duplicate := ScanInputs(coins);
    if total.None? {
      return Err(Overflow);
    } else if |coins| == 0 {
      return Err(NoInputs);
    } else if fund == 0 {
      return Err(BadFundValue);
    } else if numOut > 1 && fund + fee >= U64 {
      return Err(Overflow);
    } else if (numOut > 1 && total.value < fund + fee) || total.value < fund {
      return Err(TooLittleValue);
    } else if duplicate {
      return Err(DuplicateInput);
    } else if fee == 0 || fee >= FEE_LIMIT {
      return Err(BadFee);
    }
    slate.fee := fee;
    slate.amount := fund;
    slate.offset := r.offset;
    var collected := CollectInputs(env, coins);
    if collected.Err? {
      return Err(collected.error);
    }
    var (inputs, blindSum) := collected.value;
    var tx := Transaction(inputs, [], [], 0);
    if total.value >= I64 || fund >= I64 {
      return Err(Overflow);
    }
    var change := total.value - fund - fee;
    var coin: Option<Coin> := None;
    if change > 0 {
      blindSum := blindSum + r.changeKey;
      var c := Commit(change, r.changeKey);
      tx := WithOutput(tx, Output(PlainOutput, c, Bullet(change, r.changeKey)));
      coin := Some(NewCoin(env, c, r.changeKey, change));
    }
    tx := tx.(offset := r.offset);
    slate.tx := Some(tx);
    var key := blindSum - r.offset;
    assert tx.outputs == ChangeOutputs(change, r.changeKey);
    assert slate.Value() == SpendSlate(env, coins, fund, timelock, numOut, numParts, r);
    var filled := slate.FillRound1(key, r.nonce);
    if filled.Err? {
      return Err(filled.error);
    }
    res := Ok(SpendResult(slate.Value(), key, r.nonce, coin));
  }

  method DSpendCoins(env: Env, coins: seq<Coin>, s: Slate, fund: nat, timelock: nat,
                     nonce: int) returns (res: Result<SpendResult>)
    ensures res == Coins.DSpendCoins(env, coins, s, fund, timelock, nonce)
  {
    hide Sum, Mod;
    var slate := new TxSlate(s);
    var tx := if slate.tx.None? then EMPTY_TX else slate.tx.value;
    var valid := VerifyOutputs(env, tx);
    if !valid {
      return Err(InvalidRangeProof);
    } else if slate.amount != fund {
      return Err(AmountMismatch);
    } else if |tx.inputs| != |coins| {
      return Err(InputCountMismatch);
    } else if !FeaturesMatch(s, timelock) {
      return Err(TimelockMismatch);
    }
    var blindSum := 0;
    assert Sum(Blinds(coins[..0])) == 0 by { EmptySum(); assert Blinds(coins[..0]) == []; }
    for i := 0 to |coins|
      invariant blindSum == 0 - Sum(Blinds(coins[..i])) && slate.Value() == s
    {
      NextValue(coins, i);
      blindSum := blindSum - coins[i].blind;
    }
    assert coins[..|coins|] == coins;
    var filled := slate.FillRound1(blindSum, nonce);
    if filled.Err? {
      return Err(filled.error);
    }
    res := Ok(SpendResult(slate.Value(), blindSum, nonce, None));
  }

  // ---------------------------------------------------------------- receiving

  /** What recv_coins and its adapted variant share: check the outputs, add one, renew the kernel, add the entry. */
  method ReceiveInto(env: Env, slate: TxSlate, fund: nat, r: RecvRandom) returns (res: Result<()>)
    modifies slate
    ensures match AddReceiver(env, old(slate.Value()), fund, r)
            case Ok(s) => res == Ok(()) && slate.Value() == s
            case Err(e) => res == Err(e)
  {
    hide Mod, Slates.UpdateKernel, Slates.AddParticipantInfo;
    var tx := if slate.tx.None? then EMPTY_TX else slate.tx.value;
    var valid := VerifyOutputs(env, tx);
    if !valid {
      return Err(InvalidRangeProof);
    }
    var commitment := Commit(fund, r.key);
    slate.tx := Some(WithOutput(tx, Output(PlainOutput, commitment, Bullet(fund, r.key))));
    var _ :- slate.UpdateKernel();
    res := slate.FillRound1(r.key, r.nonce);
  }

  method RecvCoins(env: Env, s: Slate, fund: nat, r: RecvRandom) returns (res: Result<RecvResult>)
    ensures res == Coins.RecvCoins(env, s, fund, r)
  {
    hide Mod, AddReceiver, Slates.FillRound2;
    var slate := new TxSlate(s);
    var added := ReceiveInto(env, slate, fund, r);
    if added.Err? {
      return Err(added.error);
    }
    var signed := slate.FillRound2(env, r.key, r.nonce);
    if signed.Err? {
      return Err(signed.error);
    }
    res := Ok(RecvResult(slate.Value(), NewCoin(env, Commit(fund, r.key), r.key, fund)));
  }

  method AptRecvCoins(env: Env, s: Slate, fund: nat, x: int, r: RecvRandom) returns (res: Result<AptRecvResult>)
    ensures res == Coins.AptRecvCoins(env, s, fund, x, r)
  {
    hide Mod, AddReceiver, Slates.SetSig;
    var slate := new TxSlate(s);
    var added := ReceiveInto(env, slate, fund, r);
    if added.Err? {
      return Err(added.error);
    }
    var m :- SigningContext(slate.Value());
    var n, k := NonceTotal(slate.participants), KeyTotal(slate.participants);
    var plain := Sign(env.challenge, m, r.key, r.nonce, 0, n, k);
    var adapted := Sign(env.challenge, m, r.key, r.nonce, x, n, k);
    var stored := slate.SetSig(PointOf(r.key), PointOf(r.nonce), adapted);
    if stored.Err? {
      return Err(stored.error);
    }
    res := Ok(AptRecvResult(slate.Value(), NewCoin(env, Commit(fund, r.key), r.key, fund), adapted, plain));
  }

  // ---------------------------------------------------------------- finishing

  method ReplaceSig(slate: TxSlate, old_: Sig, new_: Sig) returns (r: Result<()>)
    modifies slate
    ensures Edits(old(slate.Value()), slate.Value(), r, Coins.ReplaceSig(old(slate.Value()), old_, new_))
  {
    var n := NumParticipants(slate.Value());
    var i := 0;
    while i < n
      invariant 0 <= i <= n && slate.Value() == old(slate.Value())
      invariant FindSig(slate.participants, n, old_, i) == FindSig(slate.participants, n, old_, 0)
    {
      if i >= |slate.participants| {
        return Err(IndexOutOfBounds);
      }
      if slate.participants[i].sig == Some(old_) {
        slate.participants := slate.participants[i := slate.participants[i].(sig := Some(new_))];
        return Ok(());
      }
      i := i + 1;
    }
    r := Ok(());
  }

  /** The adapted branch of fin_tx: every signature present must verify under the extra key. */
  method SignAdapted(env: Env, slate: TxSlate, x: int, k: int, X: Point) returns (r: Result<()>)
    modifies slate
    ensures Edits(old(slate.Value()), slate.Value(), r, Coins.SignAdapted(env, old(slate.Value()), x, k, X))
  {
    hide Mod, Slates.SetSig;
    var m :- SigningContext(slate.Value());
    var n, key := NonceTotal(slate.participants), KeyTotal(slate.participants);
    for i := 0 to |slate.participants|
      invariant slate.Value() == old(slate.Value())
      invariant forall j :: 0 <= j < i ==> SigAccepted(env, slate.Value(), slate.participants[j], m, X)
    {
      var p := slate.participants[i];
      if p.sig.Some? && !VerifyPartial(env.challenge, p.sig.value, m, n, p.key, key, X) {
        assert !SigAccepted(env, slate.Value(), slate.participants[i], m, X);
        return Err(InvalidPartialSignature);
      }
    }
    if PointOf(x) == INFINITY || PointOf(k) == INFINITY {
      return Err(BadKey);
    }
    r := slate.SetSig(PointOf(x), PointOf(k), Sign(env.challenge, m, x, k, 0, n, key));
  }

  method SignPlain(env: Env, slate: TxSlate, x: int, k: int, replace: Option<(Sig, Sig)>) returns (r: Result<()>)
    modifies slate
    ensures match Coins.SignPlain(env, old(slate.Value()), x, k, replace)
            case Ok(s) => r == Ok(()) && slate.Value() == s
            case Err(e) => r == Err(e)
  {
    hide Slates.FillRound2, Coins.ReplaceSig;
    if replace.Some? {
      var _ :- ReplaceSig(slate, replace.value.0, replace.value.1);
    }
    r := slate.FillRound2(env, x, k);
  }

  method FinTx(env: Env, s: Slate, x: int, k: int, finalize: bool, pubX: Option<Point>, replace: Option<(Sig, Sig)>)
    returns (res: Result<Slate>)
    ensures res == Coins.FinTx(env, s, x, k, finalize, pubX, replace)
  {
    hide Coins.SignAdapted, Coins.SignPlain, Slates.Finalize;
    var slate := new TxSlate(s);
    if slate.tx.None? {
      return Err(NoTransaction);
    }
    var valid := VerifyOutputs(env, slate.tx.value);
    if !valid {
      return Err(InvalidRangeProof);
    }
    var signed: Result<()>;
    if pubX.Some? {
      signed := SignAdapted(env, slate, x, k, pubX.value);
    } else {
      signed := SignPlain(env, slate, x, k, replace);
    }
    if signed.Err? {
      return Err(signed.error);
    }
    if finalize {
      var done := slate.Finalize(env);
      if done.Err? {
        return Err(done.error);
      }
    }
    res := Ok(slate.Value());
  }

  /** ext_witness: negate one scalar in place and add it to the other. What it returns is the logarithm of X
      whenever one signature was accepted under X and the other without it. */
  method ExtWitness(plain: Sig, adapted: Sig) returns (x: Scalar)
    ensures forall h, m, n, key, keySum, X ::
              plain.R == adapted.R && VerifyPartial(h, adapted, m, n, key, keySum, X)
                  && VerifyPartial(h, plain, m, n, key, keySum, INFINITY)
              ==> x == X.dlog
    ensures x == ExtractWitness(plain, adapted)
  {
    hide VerifyPartial, Mod;
    var s: Scalar := plain.s;
    s := Mod(0 - (s as int));
    x := adapted.s;
    x := Mod(x + s);
    forall h, m, n, key, keySum, X
      | plain.R == adapted.R && VerifyPartial(h, adapted, m, n, key, keySum, X)
          && VerifyPartial(h, plain, m, n, key, keySum, INFINITY)
      ensures x == X.dlog
    {
      ExtractionExact(h, m, plain, adapted, n, key, keySum, X);
    }
  }
}
