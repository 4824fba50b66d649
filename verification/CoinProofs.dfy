/** How each coin operation moves a slate towards a balanced, fully signed transaction. */
module CoinProofs {
  import opened Wrappers
  import opened Curve
  import opened Transactions
  import opened Slates
  import opened SlateProofs
  import opened Wire
  import opened Coins

  // ---------------------------------------------------------------- sums of secrets

  ghost function Xs(cs: seq<Secret>): seq<int> { seq(|cs|, i requires 0 <= i < |cs| => cs[i].x) }
  ghost function Ks(cs: seq<Secret>): seq<int> { seq(|cs|, i requires 0 <= i < |cs| => cs[i].k) }

  /** The assumption on drawn secrets: none vanishes, nonces differ, neither sum vanishes. */
  ghost predicate Fresh(cs: seq<Secret>) {
    && (forall i :: 0 <= i < |cs| ==> GoodSecret(cs[i]))
    && DistinctNonces(cs)
    && PointOf(Sum(Xs(cs))) != INFINITY
    && PointOf(Sum(Ks(cs))) != INFINITY
  }

  /** Reducing every term of a sum does not change the sum modulo the order. */
  lemma {:induction false} SumMod(xs: seq<int>, ys: seq<int>)
    requires |xs| == |ys| && forall i :: 0 <= i < |xs| ==> Mod(xs[i]) == Mod(ys[i])
    ensures Mod(Sum(xs)) == Mod(Sum(ys))
  {
    if |xs| > 0 {
      var n := |xs| - 1;
      SumMod(xs[..n], ys[..n]);
      CongAdd(Sum(xs[..n]), Sum(ys[..n]), xs[n], ys[n]);
    }
  }

  lemma TotalsOfSecrets(env: Env, s: Slate, cs: seq<Secret>, signed: seq<bool>)
    requires Built(env, s, cs, signed)
    ensures KeyTotal(s.participants) == PointOf(Sum(Xs(cs)))
    ensures NonceTotal(s.participants) == PointOf(Sum(Ks(cs)))
    ensures Mod(Sum(Keys(s.participants))) == Mod(Sum(Xs(cs)))
    ensures Fresh(cs) ==> SumsValid(s)
  {
    forall i | 0 <= i < |cs|
      ensures Mod(Keys(s.participants)[i]) == Mod(Xs(cs)[i]) && Mod(Nonces(s.participants)[i]) == Mod(Ks(cs)[i])
    {
      ModIdem(cs[i].x);
      ModIdem(cs[i].k);
    }
    SumMod(Keys(s.participants), Xs(cs));
    SumMod(Nonces(s.participants), Ks(cs));
  }

  lemma TwoSecrets(a: Secret, b: Secret)
    ensures Sum(Xs([a, b])) == a.x + b.x
    ensures Sum(Ks([a, b])) == a.k + b.k
  {
    assert Xs([a, b]) == ([] + [a.x]) + [b.x];
    assert Ks([a, b]) == ([] + [a.k]) + [b.k];
    SumAppend([] + [a.x], b.x);
    SumAppend([], a.x);
    SumAppend([] + [a.k], b.k);
    SumAppend([], a.k);
  }

  lemma ThreeSecrets(a: Secret, b: Secret, c: Secret)
    ensures Sum(Xs([a, b, c])) == a.x + b.x + c.x
    ensures Sum(Ks([a, b, c])) == a.k + b.k + c.k
  {
    TwoSecrets(a, b);
    assert Xs([a, b, c]) == Xs([a, b]) + [c.x];
    assert Ks([a, b, c]) == Ks([a, b]) + [c.k];
    SumAppend(Xs([a, b]), c.x);
    SumAppend(Ks([a, b]), c.k);
  }

  /** The participant table, and so everything about signatures, does not depend on the transaction. */
  lemma BuiltIgnoresTx(env: Env, s: Slate, t: Slate, cs: seq<Secret>, signed: seq<bool>)
    requires t == s.(tx := t.tx)
    requires Built(env, s, cs, signed)
    ensures Built(env, t, cs, signed)
    ensures SumsValid(s) <==> SumsValid(t)
  {
    hide Mod, Sum;
    forall i | 0 <= i < |cs| ensures HonestSig(env, t, cs[i]) == HonestSig(env, s, cs[i]) { }
  }

  // ---------------------------------------------------------------- the blinding ledger

  /** The transaction's blinding factors are accounted for by these keys and its offset. */
  ghost predicate Ledger(tx: Transaction, keys: int) {
    Mod(Sum(OutBlinds(tx.outputs)) - Sum(InBlinds(tx.inputs))) == Mod(keys + tx.offset)
  }

  lemma LedgerAddOutput(tx: Transaction, keys: int, o: Output, blind: int)
    requires Ledger(tx, keys) && o.commit.r == Mod(blind)
    ensures Ledger(WithOutput(tx, o), keys + blind)
  {
    hide Mod, Sum;
    OutputAppend(tx.outputs, o);
    ModIdem(blind);
    CongAdd(Sum(OutBlinds(tx.outputs)) - Sum(InBlinds(tx.inputs)), keys + tx.offset, o.commit.r, blind);
  }

  // ---------------------------------------------------------------- spending

  /** The coin's text names a commitment to its value under its own share plus the other share. */
  ghost predicate Opens(env: Env, c: Coin, other: int) {
    env.readCommit(c.text) == Some(Commit(c.value, c.blind + other))
  }

  ghost predicate AllOpen(env: Env, coins: seq<Coin>, others: seq<int>) {
    |coins| == |others| && forall i :: 0 <= i < |coins| ==> Opens(env, coins[i], others[i])
  }

  ghost function Zeros(n: nat): seq<int> { seq(n, i => 0) }

  lemma {:induction false} SumZeros(n: nat)
    ensures Sum(Zeros(n)) == 0
  {
    if n > 0 {
      assert Zeros(n)[..n - 1] == Zeros(n - 1);
      SumZeros(n - 1);
    }
  }

  ghost function Combined(coins: seq<Coin>, others: seq<int>): seq<int>
    requires |coins| == |others|
  {
    seq(|coins|, i requires 0 <= i < |coins| => coins[i].blind + others[i])
  }

  lemma {:induction false} CombinedSum(coins: seq<Coin>, others: seq<int>)
    requires |coins| == |others|
    ensures Sum(Combined(coins, others)) == Sum(Blinds(coins)) + Sum(others)
  {
    if |coins| > 0 {
      var n := |coins| - 1;
      CombinedSum(coins[..n], others[..n]);
      assert Combined(coins, others)[..n] == Combined(coins[..n], others[..n]);
      assert Blinds(coins)[..n] == Blinds(coins[..n]);
    }
  }

  lemma InputSums(env: Env, coins: seq<Coin>, others: seq<int>)
    requires AllOpen(env, coins, others)
    ensures Readable(env, coins)
    ensures Sum(InValues(InputsFor(env, coins))) == Sum(Values(coins))
    ensures Mod(Sum(InBlinds(InputsFor(env, coins)))) == Mod(Sum(Blinds(coins)) + Sum(others))
  {
    var ins := InputsFor(env, coins);
    assert InValues(ins) == Values(coins);
    CombinedSum(coins, others);
    forall i | 0 <= i < |coins|
      ensures Mod(InBlinds(ins)[i]) == Mod(Combined(coins, others)[i])
    {
      ModIdem(coins[i].blind + others[i]);
    }
    SumMod(InBlinds(ins), Combined(coins, others));
  }

  ghost function SpendSecret(env: Env, coins: seq<Coin>, fund: nat, numOut: nat, r: SpendRandom): Secret {
    Secret(SpendKey(coins, Surplus(env, coins, fund, numOut), r), r.nonce)
  }

  /** The slate spend_coins hands over: one unsigned entry, and a ledger that lacks only the other shares. */
  lemma SpendBuilds(env: Env, coins: seq<Coin>, others: seq<int>, fund: nat, timelock: nat, numOut: nat, numParts: nat,
                    r: SpendRandom)
    requires AllOpen(env, coins, others)
    requires SpendGuard(env, coins, fund, numOut).Ok?
    requires GoodSecret(SpendSecret(env, coins, fund, numOut, r))
    ensures SpendCoins(env, coins, fund, timelock, numOut, numParts, r).Ok?
    ensures var res := SpendCoins(env, coins, fund, timelock, numOut, numParts, r).value;
            var c := SpendSecret(env, coins, fund, numOut, r);
            && Readable(env, coins)
            && res.slate == SpendSlate(env, coins, fund, timelock, numOut, numParts,
                                       r).(participants := res.slate.participants)
            && Built(env, res.slate, [c], NoneSigned(1))
            && res.key == c.x && res.nonce == c.k
            && Ledger(res.slate.tx.value, c.x - Sum(others))
  {
    hide Mod, Sum, Ledger, AddParticipantInfo;
    InputSums(env, coins, others);
    var blank := SpendSlate(env, coins, fund, timelock, numOut, numParts, r);
    var c := SpendSecret(env, coins, fund, numOut, r);
    assert Built(env, blank, [], NoneSigned(0));
    assert [] + [c] == [c];
    AddEntry(env, blank, [], c);
    SpendLedger(env, coins, others, fund, timelock, numOut, numParts, r);
  }

  ghost function ChangeBlind(surplus: int, changeKey: int): int { if surplus > 0 then changeKey else 0 }

  lemma ChangeBlindSum(surplus: int, changeKey: int)
    ensures Mod(Sum(OutBlinds(ChangeOutputs(surplus, changeKey)))) == Mod(ChangeBlind(surplus, changeKey))
  {
    if surplus > 0 {
      var o := ChangeOutputs(surplus, changeKey)[0];
      OutputAppend([], o);
      assert ChangeOutputs(surplus, changeKey) == [] + [o];
      ModIdem(changeKey);
    }
  }

  lemma SpendLedger(env: Env, coins: seq<Coin>, others: seq<int>, fund: nat, timelock: nat, numOut: nat, numParts: nat,
                    r: SpendRandom)
    requires AllOpen(env, coins, others) && Readable(env, coins)
    ensures Ledger(SpendSlate(env, coins, fund, timelock, numOut, numParts, r).tx.value,
                   SpendSecret(env, coins, fund, numOut, r).x - Sum(others))
  {
    hide Mod, Sum;
    InputSums(env, coins, others);
    var surplus := Surplus(env, coins, fund, numOut);
    ChangeBlindSum(surplus, r.changeKey);
    var tx := SpendSlate(env, coins, fund, timelock, numOut, numParts, r).tx.value;
    assert tx.outputs == ChangeOutputs(surplus, r.changeKey) && tx.inputs == InputsFor(env, coins)
        && tx.offset == r.offset;
    CongSub(Sum(OutBlinds(tx.outputs)), ChangeBlind(surplus, r.changeKey),
            Sum(InBlinds(tx.inputs)), Sum(Blinds(coins)) + Sum(others));
    assert ChangeBlind(surplus, r.changeKey) - (Sum(Blinds(coins)) + Sum(others))
        == SpendSecret(env, coins, fund, numOut, r).x - Sum(others) + tx.offset;
  }

  /** spend_coins never accepts more than it can account for: with the receiver's output added, values
      balance exactly when there is no shortfall. */
  lemma SpendBalance(env: Env, coins: seq<Coin>, others: seq<int>, fund: nat, numOut: nat, changeKey: int, o: Output)
    requires AllOpen(env, coins, others) && Readable(env, coins) && o.commit.v == fund
    ensures Sum(OutValues(ChangeOutputs(Surplus(env, coins, fund, numOut), changeKey) + [o])) + env.txFee(|coins|,
        numOut, 1) == Sum(InValues(InputsFor(env, coins)))
       <==> Sum(Values(coins)) >= fund + env.txFee(|coins|, numOut, 1)
  {
    InputSums(env, coins, others);
    var surplus := Surplus(env, coins, fund, numOut);
    var change := ChangeOutputs(surplus, changeKey);
    OutputAppend(change, o);
    if surplus > 0 {
      OutputAppend([], change[0]);
      assert change == [] + [change[0]];
    }
  }

  /** What an accepted call hands out: a change coin exactly when there is a surplus, worth exactly it and open to
      its owner, and a transaction that one more output of the fund value balances exactly when nothing is short. */
  lemma SpendCoinsExact(env: Env, coins: seq<Coin>, fund: nat, timelock: nat, numOut: nat, numParts: nat,
                        r: SpendRandom, o: Output, k: Kernel)
    requires GoodEnv(env) && AllOpen(env, coins, Zeros(|coins|)) && o.commit.v == fund
        && k.features.fee == env.txFee(|coins|, numOut, 1)
    requires SpendCoins(env, coins, fund, timelock, numOut, numParts, r).Ok?
    ensures var res := SpendCoins(env, coins, fund, timelock, numOut, numParts, r).value;
            var surplus := Sum(Values(coins)) - fund - env.txFee(|coins|, numOut, 1);
            && (res.change.Some? <==> surplus > 0)
            && (res.change.Some? ==> res.change.value.value == surplus && Opens(env, res.change.value, 0))
            && res.slate.tx.Some?
            && (ValueBalanced(WithOutput(res.slate.tx.value, o).(kernels := [k])) <==> surplus >= 0)
            && (numOut > 1 ==> surplus >= 0)
  {
    hide Sum, Mod;
    InputSums(env, coins, Zeros(|coins|));
    SpendBalance(env, coins, Zeros(|coins|), fund, numOut, r.changeKey, o);
    SingleKernelSums(k);
    var slate := SpendSlate(env, coins, fund, timelock, numOut, numParts, r);
    var res := SpendCoins(env, coins, fund, timelock, numOut, numParts, r).value;
    assert res.slate.tx == slate.tx;
  }

  ghost predicate DistinctCommitments(env: Env, coins: seq<Coin>) {
    forall i, j :: 0 <= i < j < |coins| ==> env.readCommit(coins[i].text) != env.readCommit(coins[j].text)
  }

  /** What spend_coins asks of its inputs, spelt out: there are some, they are readable and their texts differ, the
      values stay in 63 bits, the fee in 40, and the total covers what it has to. */
  ghost predicate Fundable(env: Env, coins: seq<Coin>, fund: nat, numOut: nat) {
    var total, fee := Sum(Values(coins)), env.txFee(|coins|, numOut, 1);
    && |coins| > 0
    && (forall i :: 0 <= i < |coins| ==> env.readCommit(coins[i].text).Some?)
    && (forall i, j :: 0 <= i < j < |coins| ==> coins[i].text != coins[j].text)
    && 0 < fund <= total < 0x8000_0000_0000_0000
    && 0 < fee < 0x100_0000_0000
    && (numOut > 1 ==> fund + fee <= total)
  }

  lemma GuardExact(env: Env, coins: seq<Coin>, fund: nat, numOut: nat)
    ensures SpendGuard(env, coins, fund, numOut).Ok? <==> Fundable(env, coins, fund, numOut)
  {
    hide Sum;
  }

  /** The text the wallet itself would write for the commitment a text names. */
  function Canonical(env: Env, text: string): string {
    match env.readCommit(text)
    case Some(c) => env.commitText(c)
    case None => text
  }

  /** Commitments are compared as text. So an accepted list has distinct commitments exactly when its texts, brought
      into the form the wallet writes, are distinct: hexadecimal in two cases gets through. */
  lemma DuplicatesExact(env: Env, coins: seq<Coin>, fund: nat, timelock: nat, numOut: nat, numParts: nat,
                        r: SpendRandom)
    requires GoodEnv(env) && SpendCoins(env, coins, fund, timelock, numOut, numParts, r).Ok?
    ensures DistinctCommitments(env, coins) <==>
              forall i, j :: 0 <= i < j < |coins| ==> Canonical(env, coins[i].text) != Canonical(env, coins[j].text)
  {
    hide Sum, Mod;
    assert Readable(env, coins);
    forall i, j | 0 <= i < j < |coins|
      ensures env.readCommit(coins[i].text) == env.readCommit(coins[j].text)
         <==> Canonical(env, coins[i].text) == Canonical(env, coins[j].text)
    {
      var c, d := env.readCommit(coins[i].text).value, env.readCommit(coins[j].text).value;
      assert env.readCommit(env.commitText(c)) == Some(c) && env.readCommit(env.commitText(d)) == Some(d);
    }
  }

  /** In particular a list of texts the wallet wrote is accepted only with distinct commitments. */
  lemma CanonicalDistinct(env: Env, coins: seq<Coin>, fund: nat, timelock: nat, numOut: nat, numParts: nat,
                          r: SpendRandom)
    requires GoodEnv(env) && SpendCoins(env, coins, fund, timelock, numOut, numParts, r).Ok?
    requires forall i :: 0 <= i < |coins| ==> Canonical(env, coins[i].text) == coins[i].text
    ensures DistinctCommitments(env, coins)
  {
    hide Sum, Mod;
    DuplicatesExact(env, coins, fund, timelock, numOut, numParts, r);
    assert !HasDuplicate(coins);
  }

  /** Over all lists: a shared commitment is never accepted exactly when no commitment has two texts. */
  lemma SpellingsExact(env: Env)
    requires 0 < env.txFee(2, 1, 1) < FEE_LIMIT
    ensures (forall coins, fund, timelock, numOut, numParts, r ::
               SpendCoins(env, coins, fund, timelock, numOut, numParts, r).Ok? ==> DistinctCommitments(env, coins)) <==>
            (forall t, u :: env.readCommit(t).Some? && env.readCommit(t) == env.readCommit(u) ==> t == u)
  {
    hide Sum, Mod;
    if t, u :| env.readCommit(t).Some? && env.readCommit(t) == env.readCommit(u) && t != u {
      TwoTexts(env, t, u);
    } else {
      forall coins, fund, timelock, numOut, numParts, r
        | SpendCoins(env, coins, fund, timelock, numOut, numParts, r).Ok?
        ensures DistinctCommitments(env, coins)
      {
        assert !HasDuplicate(coins) && Readable(env, coins);
      }
    }
  }

  /** Two texts of one commitment make two coins that are spent together. */
  lemma TwoTexts(env: Env, t: string, u: string)
    requires 0 < env.txFee(2, 1, 1) < FEE_LIMIT
    requires env.readCommit(t).Some? && env.readCommit(t) == env.readCommit(u) && t != u
    ensures SpendCoins(env, [Coin(t, 0, 1), Coin(u, 0, 1)], 1, 0, 1, 2, SpendRandom(0, 0, 1, 1)).Ok?
    ensures !DistinctCommitments(env, [Coin(t, 0, 1), Coin(u, 0, 1)])
  {
    hide Sum, Mod;
    var coins, r := [Coin(t, 0, 1), Coin(u, 0, 1)], SpendRandom(0, 0, 1, 1);
    PairSums(t, u);
    PairPasses(env, t, u);
    assert SpendKey(coins, Surplus(env, coins, 1, 1), r) == -1;
    PlusMinusOne();
  }

  lemma PairSums(t: string, u: string)
    ensures Sum(Values([Coin(t, 0, 1), Coin(u, 0, 1)])) == 2 && Sum(Blinds([Coin(t, 0, 1), Coin(u, 0, 1)])) == 0
  {
    hide Sum;
    var coins := [Coin(t, 0, 1), Coin(u, 0, 1)];
    assert Values(coins) == ([] + [1]) + [1] && Blinds(coins) == ([] + [0]) + [0];
    SumAppend([] + [1], 1);
    SumAppend([], 1);
    SumAppend([] + [0], 0);
    SumAppend([], 0);
    assert Sum([]) == 0 by { NoTerms(); }
  }

  lemma NoTerms()
    ensures Sum([]) == 0
  {
  }

  lemma PlusMinusOne()
    ensures PointOf(1) != INFINITY && PointOf(-1) != INFINITY
  {
    ModUnique(-1, ORDER - 1, -1);
    ModUnique(1, 1, 0);
  }

  lemma PairPasses(env: Env, t: string, u: string)
    requires 0 < env.txFee(2, 1, 1) < FEE_LIMIT && t != u
    requires env.readCommit(t).Some? && env.readCommit(t) == env.readCommit(u)
    ensures SpendGuard(env, [Coin(t, 0, 1), Coin(u, 0, 1)], 1, 1).Ok?
    ensures !DistinctCommitments(env, [Coin(t, 0, 1), Coin(u, 0, 1)])
  {
    hide Sum;
    var coins := [Coin(t, 0, 1), Coin(u, 0, 1)];
    PairSums(t, u);
    assert !HasDuplicate(coins);
    assert coins[0].text == t && coins[1].text == u;
  }

  // ---------------------------------------------------------------- the other steps

  /** Adding the receiver's output, kernel and entry to a table nobody has signed. */
  lemma AddReceiverBuilds(env: Env, s: Slate, cs: seq<Secret>, fund: nat, r: RecvRandom, keys: int)
    requires Built(env, s, cs, NoneSigned(|cs|))
    requires s.tx.Some? && ProofsValid(env, s.tx.value) && Ledger(s.tx.value, keys)
    requires GoodSecret(Secret(r.key, r.nonce)) && DistinctNonces(cs + [Secret(r.key, r.nonce)])
    ensures AddReceiver(env, s, fund, r).Ok?
    ensures var t := AddReceiver(env, s, fund, r).value;
            var tx := s.tx.value;
            && t == s.(tx := t.tx, participants := t.participants)
            && t.tx == Some(Transaction(tx.inputs,
                         tx.outputs + [Output(PlainOutput, Commit(fund, r.key), Bullet(fund, r.key))],
                         [Kernel(KernelFeatures(s).value, INFINITY, NO_SIG)], tx.offset))
            && Built(env, t, cs + [Secret(r.key, r.nonce)], NoneSigned(|cs| + 1))
            && Ledger(t.tx.value, keys + r.key)
  {
    hide Mod, Sum;
    var o := Output(PlainOutput, Commit(fund, r.key), Bullet(fund, r.key));
    LedgerAddOutput(s.tx.value, keys, o, r.key);
    var u := UpdateKernel(s.(tx := Some(WithOutput(s.tx.value, o)))).value;
    BuiltIgnoresTx(env, s, u, cs, NoneSigned(|cs|));
    AddEntry(env, u, cs, Secret(r.key, r.nonce));
  }

  lemma CarryBuilt(env: Env, s: Slate, cs: seq<Secret>, signed: seq<bool>)
    requires Built(env, s, cs, signed)
    ensures Built(env, Carry(env, s), cs, signed)
    ensures SumsValid(s) <==> SumsValid(Carry(env, s))
    ensures Carry(env, s) == s.(tx := Carry(env, s).tx)
    ensures s.tx.Some? ==> Carry(env, s).tx.Some?
    ensures s.tx.Some? ==>
              var tx, tx' := s.tx.value, Carry(env, s).tx.value;
              tx'.inputs == tx.inputs && tx'.outputs == tx.outputs && tx'.offset == s.offset
              && |tx'.kernels| == 1 && (s.features != 1 ==> tx'.kernels[0].features == Plain(s.fee))
  {
    hide Mod, Sum;
    CarryShape(env, s);
    BuiltIgnoresTx(env, s, Carry(env, s), cs, signed);
  }

  lemma OneBlind(coin: Coin)
    ensures Sum(Blinds([coin])) == coin.blind
  {
    assert Blinds([coin]) == [] + [coin.blind];
    SumAppend([], coin.blind);
  }

  /** The shared spender's entry supplies the share the first spender lacked. */
  lemma DSpendBuilds(env: Env, coin: Coin, s: Slate, cs: seq<Secret>, fund: nat, timelock: nat, nonce: int)
    requires Built(env, s, cs, NoneSigned(|cs|))
    requires s.tx.Some? && ProofsValid(env, s.tx.value)
    requires s.amount == fund && |s.tx.value.inputs| == 1 && FeaturesMatch(s, timelock)
    requires GoodSecret(Secret(0 - coin.blind, nonce)) && DistinctNonces(cs + [Secret(0 - coin.blind, nonce)])
    ensures DSpendCoins(env, [coin], s, fund, timelock, nonce).Ok?
    ensures var d := DSpendCoins(env, [coin], s, fund, timelock, nonce).value;
            && d.key == 0 - coin.blind && d.nonce == nonce
            && d.slate == s.(participants := d.slate.participants)
            && Built(env, d.slate, cs + [Secret(0 - coin.blind, nonce)], NoneSigned(|cs| + 1))
  {
    hide Mod;
    OneBlind(coin);
    hide Sum;
    AddEntry(env, s, cs, Secret(0 - coin.blind, nonce));
  }

  // ---------------------------------------------------------------- the kernel a run ends with

  /** Two messages whose challenges act alike on the key sum: a coincidence of the challenge hash. */
  ghost predicate ChallengesCoincide(env: Env, cs: seq<Secret>, m: Features, m': Features) {
    var n, k := PointOf(Sum(Ks(cs))), PointOf(Sum(Xs(cs)));
    Mod(env.challenge(n, k, m) * k.dlog) == Mod(env.challenge(n, k, m') * k.dlog)
  }

  /** The aggregate signature verifies under other features only by such a coincidence. */
  lemma KernelUnderOtherFeatures(env: Env, s: Slate, cs: seq<Secret>, signed: seq<bool>, m': Features)
    requires Built(env, s, cs, signed) && SumsValid(s) && |cs| > 0
    requires forall i :: 0 <= i < |signed| ==> signed[i]
    ensures VerifyCompleted(env.challenge, Aggregate(s.participants), m', KeyTotal(s.participants))
       <==> ChallengesCoincide(env, cs, KernelFeatures(s).value, m')
  {
    hide Mod, Sum;
    OwnFeaturesVerify(env, s, cs, signed);
    TotalsOfSecrets(env, s, cs, signed);
    var n, k := NonceTotal(s.participants), KeyTotal(s.participants);
    ModCancel(env.challenge(n, k, KernelFeatures(s).value) * k.dlog, env.challenge(n, k, m') * k.dlog, n.dlog);
  }
}
