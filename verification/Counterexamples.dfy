/** Concrete inputs on which expected properties fail, one for each failing branch. */
module Counterexamples {
  import opened Wrappers
  import opened Curve
  import opened Transactions
  import opened SlateProofs
  import opened Coins
  import opened CoinProofs
  import opened Stages
  import opened Builders
  import opened Contract
  import opened Bitcoin
  import opened Locking
  import opened Possible

  // ---------------------------------------------------------------- time locks and the wire

  /** A challenge that tells plain kernels from others. */
  ghost function TellingEnv(): Env { SomeEnv().(challenge := (n, k, m: Features) => if m.Plain? then 1 else 2) }

  ghost function Purse(value: nat): seq<Coin> { [Coin(CommitText(Commit(value, 7)), 7, value)] }

  lemma PurseOpens(env: Env, value: nat)
    requires env.readCommit == SomeEnv().readCommit
    ensures AllOpen(env, Purse(value), Zeros(1)) && Readable(env, Purse(value))
    ensures Sum(Values(Purse(value))) == value && Sum(Blinds(Purse(value))) == 7
  {
    hide Sum, Mod;
    ReadsBack(Commit(value, 7));
    OneTotal(Purse(value)[0]);
    OneBlind(Purse(value)[0]);
  }

  lemma StillGood(env: Env)
    requires env.readCommit == SomeEnv().readCommit && env.commitText == SomeEnv().commitText
    requires forall i: nat, o: nat, k: nat :: env.txFee(i, o, k) > 0
    requires forall i: nat, o: nat, p: nat, k: nat :: o <= p ==> env.txFee(i, o, k) <= env.txFee(i, p, k)
    ensures GoodEnv(env)
  {
    LibrariesGood();
  }

  /** The inputs pass and the run is honest, but the height lock does not survive the wire. */
  lemma TimelockedBuildFails()
    ensures Fundable(TellingEnv(), Purse(200), 100, 2)
    ensures DBuild(TellingEnv(), Purse(200), 100, 5, SpendRandom(0, 20, 30, 0), RecvRandom(40, 35)).Err?
  {
    hide Sum, Mod, DBuild, GoodEnv, Fresh;
    var env, ra, rb := TellingEnv(), SpendRandom(0, 20, 30, 0), RecvRandom(40, 35);
    PurseOpens(env, 200);
    StillGood(env);
    var cs := [Secret(13, 30), Secret(40, 35)];
    assert [SpendSecret(env, Purse(200), 100, 2, ra), Secret(rb.key, rb.nonce)] == cs;
    TwoSecrets(cs[0], cs[1]);
    TwoFresh();
    assert !ChallengesCoincide(env, cs, HeightLocked(1, 5), Plain(1)) by {
      SmallMod(53);
      SmallMod(106);
    }
    DBuildExact(env, Purse(200), 100, 5, ra, rb);
  }

  lemma TwoFresh()
    ensures Fresh([Secret(13, 30), Secret(40, 35)])
  {
    hide Sum, Mod;
    TwoSecrets(Secret(13, 30), Secret(40, 35));
    forall x | -1000 < x < 1000 ensures Mod(x) == if x < 0 then ORDER + x else x { SmallMod(x); }
  }

  /** So does a contract with a time lock, on a shared coin of exactly fund value and fee. */
  lemma TimelockedContractFails()
    ensures SingleSpend(TellingEnv(), ShareA(), 99)
    ensures DContract(TellingEnv(), ShareA(), ShareB(), 99, 5, PointOf(4), 4, SpendRandom(0, 22, 36, 0), 37,
                      RecvRandom(41, 38)).Err?
  {
    hide Sum, Mod, DContract, GoodEnv, Fresh, InpSecrets;
    var env := TellingEnv();
    StillGood(env);
    OneTotal(ShareA());
    OneBlind(ShareA());
    assert Opens(env, ShareA(), 3) by { ReadsBack(Commit(100, 5)); }
    var cs := InpSecrets(env, Deal([ShareA()], 99, 5, 1, 3), ShareB(), SpendRandom(0, 22, 36, 0), 37,
                         RecvRandom(41, 38));
    assert cs == [Secret(-2, 36), Secret(-3, 37), Secret(41, 38)] by { ContractSecrets(env); }
    SmallFresh(cs[0], cs[1], cs[2]);
    ThreeSecrets(cs[0], cs[1], cs[2]);
    assert !ChallengesCoincide(env, cs, HeightLocked(1, 5), Plain(1)) by {
      SmallMod(36);
      SmallMod(72);
    }
    ContractPlainOnly(env, ShareA(), ShareB(), 99, 5, PointOf(4), 4, SpendRandom(0, 22, 36, 0), 37, RecvRandom(41, 38));
  }

  lemma ContractSecrets(env: Env)
    requires env.txFee == SomeEnv().txFee
    ensures InpSecrets(env, Deal([ShareA()], 99, 5, 1, 3), ShareB(), SpendRandom(0, 22, 36, 0), 37, RecvRandom(41, 38))
         == [Secret(-2, 36), Secret(-3, 37), Secret(41, 38)]
  {
    hide Sum, Mod;
    OneTotal(ShareA());
    OneBlind(ShareA());
  }

  // ---------------------------------------------------------------- two spellings of a commitment

  function LowerChar(c: char): char { if c == 'A' then 'a' else if c == 'B' then 'b' else c }

  function Lower(s: string): string { seq(|s|, i requires 0 <= i < |s| => LowerChar(s[i])) }

  /** A library that, like hexadecimal decoding, reads letters in either case and writes them in lower case. */
  ghost function SpellingEnv(): Env { SomeEnv().(readCommit := s => ReadCommit(Lower(s))) }

  lemma SpellingGood()
    ensures GoodEnv(SpellingEnv())
  {
    LibrariesGood();
    forall c: Commitment ensures ReadCommit(Lower(CommitText(c))) == Some(c) {
      assert Lower(CommitText(c)) == CommitText(c);
      ReadsBack(c);
    }
  }

  /** One commitment, spelt in lower and in upper case, is spent twice. */
  lemma SpeltTwice()
    ensures GoodEnv(SpellingEnv())
    ensures SpellingEnv().readCommit("a+") == SpellingEnv().readCommit("A+") == Some(Commit(1, 0))
    ensures SpendCoins(SpellingEnv(), [Coin("a+", 0, 1), Coin("A+", 0, 1)], 1, 0, 1, 2, SpendRandom(0, 0, 1, 1)).Ok?
    ensures !DistinctCommitments(SpellingEnv(), [Coin("a+", 0, 1), Coin("A+", 0, 1)])
  {
    hide Sum, Mod, GoodEnv;
    SpellingGood();
    ModZero();
    assert CommitText(Commit(1, 0)) == "a+" by {
      assert Repeat('a', 1) == "a" && Repeat('b', 0) == "";
    }
    assert Lower("a+") == "a+" && Lower("A+") == "a+";
    ReadsBack(Commit(1, 0));
    TwoTexts(SpellingEnv(), "a+", "A+");
  }

  // ---------------------------------------------------------------- shared spends off the exact value

  /** A fee that grows with the outputs. */
  ghost function GrowingEnv(): Env { SomeEnv().(txFee := (i, o, k) => o + 1) }

  ghost function Spend(fund: nat): Result<InpOutcome> {
    SharedInp(GrowingEnv(), ShareA(), ShareB(), fund, 0, SpendRandom(0, 22, 36, 0), 37, RecvRandom(41, 38))
  }

  /** What a spend of the shared coin of 100 for this value draws. */
  lemma SpendSecrets(fund: nat)
    ensures InpSecrets(GrowingEnv(), Deal([ShareA()], fund, 0, 1, 3), ShareB(), SpendRandom(0, 22, 36, 0), 37,
                       RecvRandom(41, 38))
         == [Secret(if fund < 98 then 20 else -2, 36), Secret(-3, 37), Secret(41, 38)]
    ensures DealSurplus(GrowingEnv(), Deal([ShareA()], fund, 0, 1, 3)) == 98 - fund
  {
    hide Sum, Mod;
    OneTotal(ShareA());
    OneBlind(ShareA());
  }

  /** Of the values that pass spend_coins, only the exact one goes through. */
  lemma OnlyExactSpends(fund: nat)
    requires 0 < fund <= 100
    ensures Fundable(GrowingEnv(), [ShareA()], fund, 1)
    ensures Spend(fund).Ok? <==> fund == 98
  {
    hide Sum, Mod, SharedInp, GoodEnv, Fresh, InpSecrets, SpendsShared;
    var env := GrowingEnv();
    StillGood(env);
    SpendSecrets(fund);
    SmallFresh(Secret(if fund < 98 then 20 else -2, 36), Secret(-3, 37), Secret(41, 38));
    OneTotal(ShareA());
    assert Opens(env, ShareA(), 3) by { ReadsBack(Commit(100, 5)); }
    SharedInpExact(env, ShareA(), ShareB(), fund, 0, SpendRandom(0, 22, 36, 0), 37, RecvRandom(41, 38));
  }

  // ---------------------------------------------------------------- setup

  /** Inputs worth exactly amount and fee leave no change coin to print. */
  ghost function ExactMw(): MwSide { SomeMw().(coins := Purse(101)) }

  lemma NoChangeLockFails()
    ensures Fundable(SomeEnv(), Purse(101), 100, 2)
    ensures MwLock(ExactMw(), LockTalk(ExactMw(), SomeBtc()).0).Err?
        && BtcLock(SomeBtc(), LockTalk(ExactMw(), SomeBtc()).1).Err?
  {
    hide Sum, Mod, GoodEnv, Fresh, InpSecrets, MwLock, BtcLock, LockTalk;
    var a, b := ExactMw(), SomeBtc();
    LockPossible();
    PurseOpens(a.env, 101);
    assert SharedSecrets(a.env, Deal(a.coins, 100, 0, 2, 3), a.draws.spend, a.draws.share, b.draws.share)
        == [Secret(-7, 30), Secret(2, 31), Secret(3, 32)];
    SmallFresh(Secret(-7, 30), Secret(2, 31), Secret(3, 32));
    assert Surplus(a.env, a.coins, 100, 2) == 0;
    LockTalkExact(a, b);
  }

  /** Two inputs that together cover the amount are not enough. */
  ghost function TwoInputBtc(): BtcSide {
    SomeBtc().(inputs := [BtcInput("", 0, 1000, 9, PointOf(9), P2pkh(0)),
                          BtcInput("", 1, 1000, 9, PointOf(9), P2pkh(0))])
  }

  lemma TwoInputsLockFails()
    ensures Amounts(TwoInputBtc().inputs) >= SomeSlate().btc.amount + 500
    ensures MwLock(SomeMw(), LockTalk(SomeMw(), TwoInputBtc()).0).Err?
        && BtcLock(TwoInputBtc(), LockTalk(SomeMw(), TwoInputBtc()).1).Err?
  {
    hide Sum, Mod, GoodEnv, Fresh, InpSecrets, MwLock, BtcLock, LockTalk;
    LockPossible();
    var ins := TwoInputBtc().inputs;
    NextAmount(ins, 0);
    NextAmount(ins, 1);
    assert ins[..2] == ins && ins[..0] == [];
    LockTalkExact(SomeMw(), TwoInputBtc());
  }
}
