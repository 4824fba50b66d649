/** A swap that meets every assumption and every condition of the theorems, so that none of them is empty. */
module Possible {
  import opened Wrappers
  import opened Curve
  import opened Transactions
  import opened SlateProofs
  import opened Coins
  import opened CoinProofs
  import opened SharedCoin
  import opened Stages
  import opened Builders
  import opened Script
  import opened Bitcoin
  import Tcp
  import opened SwapState
  import opened Locking
  import opened Execution
  import opened Swap
  import opened SwapRuns
  import opened SwapLimits

  // ---------------------------------------------------------------- texts of commitments and scripts

  ghost function Repeat(c: char, n: nat): string { seq(n, i => c) }

  ghost function CommitText(c: Commitment): string {
    Repeat('a', if c.v < 0 then -c.v else c.v) + [if c.v < 0 then '-' else '+'] + Repeat('b', c.r)
  }

  lemma CommitTextInjective(c: Commitment, d: Commitment)
    requires CommitText(c) == CommitText(d)
    ensures c == d
  {
    var m, n := if c.v < 0 then -c.v else c.v, if d.v < 0 then -d.v else d.v;
    assert CommitText(c)[m] != 'a' && CommitText(d)[n] != 'a';
    assert forall i :: 0 <= i < m ==> CommitText(c)[i] == 'a';
    assert forall i :: 0 <= i < n ==> CommitText(d)[i] == 'a';
    assert |CommitText(c)| == m + 1 + c.r && |CommitText(d)| == n + 1 + d.r;
  }

  ghost function OpBytes(op: Op): Bytes {
    match op
    case Push(d) => [0, |d|] + d
    case If => [1]
    case Else => [2]
    case EndIf => [3]
    case CheckLockTimeVerify => [4]
    case Drop => [5]
    case CheckSig => [6]
    case CheckMultiSig => [7]
  }

  ghost function ScriptBytes(p: Program): Bytes { if |p| == 0 then [] else OpBytes(p[0]) + ScriptBytes(p[1..]) }

  lemma OpBytesSplit(a: Op, b: Op, s: Bytes, t: Bytes)
    requires OpBytes(a) + s == OpBytes(b) + t
    ensures a == b && s == t
  {
    var x, y := OpBytes(a) + s, OpBytes(b) + t;
    assert x[0] == OpBytes(a)[0] && y[0] == OpBytes(b)[0];
    if a.Push? {
      assert x[1] == |a.data| && y[1] == |b.data|;
      assert x[2..2 + |a.data|] == a.data && y[2..2 + |b.data|] == b.data;
    }
    assert x[|OpBytes(a)|..] == s && y[|OpBytes(b)|..] == t;
  }

  lemma {:induction false} ScriptBytesInjective(p: Program, q: Program)
    requires ScriptBytes(p) == ScriptBytes(q)
    ensures p == q
  {
    if |p| > 0 && |q| > 0 {
      OpBytesSplit(p[0], q[0], ScriptBytes(p[1..]), ScriptBytes(q[1..]));
      ScriptBytesInjective(p[1..], q[1..]);
      assert p == [p[0]] + p[1..] && q == [q[0]] + q[1..];
    }
  }

  ghost function ReadCommit(s: string): Option<Commitment> {
    if exists c: Commitment :: CommitText(c) == s then var c: Commitment :| CommitText(c) == s; Some(c) else None
  }

  ghost function ParseScript(s: Bytes): Option<Program> {
    if exists p: Program :: ScriptBytes(p) == s then var p: Program :| ScriptBytes(p) == s; Some(p) else None
  }

  // ---------------------------------------------------------------- the libraries

  ghost function SomeEnv(): Env {
    Env((n, k, m) => 1, (i, o, k) => 1, (t, u, c) => Coefficients(1, 1, 1), n => (n, n), c => CommitText(c),
        s => ReadCommit(s))
  }

  ghost function SomeBtcEnv(): BtcEnv {
    BtcEnv((sk, m) => [], (s, k, m) => true, (k: Point) => [k.dlog], p => ScriptBytes(p), s => ParseScript(s), b => 0,
           s => "", t => "")
  }

  lemma LibrariesGood()
    ensures GoodEnv(SomeEnv()) && GoodBtcEnv(SomeBtcEnv())
  {
    forall c: Commitment ensures ReadCommit(CommitText(c)) == Some(c) {
      CommitTextInjective(ReadCommit(CommitText(c)).value, c);
    }
    forall p: Program ensures ParseScript(ScriptBytes(p)) == Some(p) {
      ScriptBytesInjective(ParseScript(ScriptBytes(p)).value, p);
    }
  }

  // ---------------------------------------------------------------- the parties

  ghost function SomeSlate(): PubSlate {
    PubSlate(INITIALIZED, MwPub(100, 100, None, false), BtcPub(600, 10, true, None, None, None, None), Meta("", ""))
  }

  ghost function SomeMw(): MwSide {
    MwSide(SomeEnv(), SomeBtcEnv(), SomeSlate(), [Coin(CommitText(Commit(200, 7)), 7, 200)],
           MwDraws(1, SpendRandom(0, 20, 30, 0), SharedRandom(2, 31, 5), 34, RecvRandom(40, 35)),
           true, n => 600, 0, true)
  }

  ghost function SomeBtc(): BtcSide {
    BtcSide(SomeEnv(), SomeBtcEnv(), SomeSlate(), [BtcInput("", 0, 2000, 9, PointOf(9), P2pkh(0))],
            BtcDraws(2, 3, 4, SharedRandom(3, 32, 6), SpendRandom(0, 21, 33, 0)), 0, true)
  }

  lemma SmallMod(x: int)
    requires -1000 < x < 1000
    ensures Mod(x) == if x < 0 then ORDER + x else x
  {
    if x < 0 {
      ModUnique(x, ORDER + x, -1);
    }
  }

  /** Three small secrets with distinct nonces are fresh. */
  lemma SmallFresh(a: Secret, b: Secret, c: Secret)
    requires forall s :: s in {a, b, c} ==> -100 < s.x < 100 && s.x != 0 && 0 < s.k < 100
    requires a.k != b.k && b.k != c.k && a.k != c.k && a.x + b.x + c.x != 0
    ensures Fresh([a, b, c])
  {
    hide Sum, Mod;
    ThreeSecrets(a, b, c);
    forall x | -1000 < x < 1000 ensures Mod(x) == if x < 0 then ORDER + x else x { SmallMod(x); }
  }

  ghost function ShareA(): Coin { ShareOf(SomeEnv(), 100, 2, 3) }
  ghost function ShareB(): Coin { ShareOf(SomeEnv(), 100, 3, 2) }

  /** Spending a share for its value less the fee: the secrets of both spenders and the receiver. */
  lemma ShareSecrets(own: Coin, other: Coin, timelock: nat, r: SpendRandom, nonce: int, recv: RecvRandom)
    requires own.value == 100 && r.offset == 0
    ensures InpSecrets(SomeEnv(), Deal([own], 99, timelock, 1, 3), other, r, nonce, recv)
         == [Secret(0 - own.blind, r.nonce), Secret(0 - other.blind, nonce), Secret(recv.key, recv.nonce)]
  {
    hide Sum, Mod;
    OneTotal(own);
    OneBlind(own);
  }

  lemma LockPossible()
    ensures LockAssumptions(SomeMw(), SomeBtc()) && LockCondition(SomeMw(), SomeBtc())
  {
    hide Mod, Sum, GoodEnv, GoodBtcEnv, Fresh, InpSecrets;
    LibrariesGood();
    var a, b := SomeMw(), SomeBtc();
    OneTotal(a.coins[0]);
    OneBlind(a.coins[0]);
    assert AllOpen(a.env, a.coins, Zeros(1)) by { ReadsBack(Commit(200, 7)); }
    assert SharedSecrets(a.env, Deal(a.coins, 100, 0, 2, 3), a.draws.spend, a.draws.share, b.draws.share)
        == [Secret(13, 30), Secret(2, 31), Secret(3, 32)];
    SmallFresh(Secret(13, 30), Secret(2, 31), Secret(3, 32));
    assert ProofFresh(a.env, a.draws.share, b.draws.share) by { SmallMod(11); }
    ShareSecrets(ShareB(), ShareA(), 100, b.draws.spend, 34, RecvRandom(40, 35));
    SmallFresh(Secret(-3, 33), Secret(-2, 34), Secret(40, 35));
    assert Fundable(a.env, a.coins, 100, 2) by { ReadsBack(Commit(200, 7)); }
    assert a.balances(0) == 600;
  }

  lemma ReadsBack(c: Commitment)
    ensures ReadCommit(CommitText(c)) == Some(c)
  {
    CommitTextInjective(ReadCommit(CommitText(c)).value, c);
  }

  ghost function SomeWorld(): World {
    var s := SomeSlate();
    World(SomeEnv(), SomeBtcEnv(), s, MwDisk(s, None), BtcDisk(s, None), NoSession, Tcp.Init([], []), Gone, Gone, None,
          0, 0, [])
  }

  /** Hence there is a run of the whole system from a fresh swap to two finished slates. */
  lemma SwapPossible() returns (ws: seq<World>)
    ensures History(ws)
    ensures ws[|ws| - 1].mw.pub == ws[|ws| - 1].btc.pub && ws[|ws| - 1].mw.pub.status == FINISHED
  {
    hide Mod, Sum, GoodEnv, GoodBtcEnv, Fresh, InpSecrets, LockAssumptions, LockCondition, LockTalk, MwLock, BtcLock,
         History, PointOf, LockScriptOf;
    LockPossible();
    var a, b := SomeMw(), SomeBtc();
    LockTalkExact(a, b);
    var m, n := MwLock(a, LockTalk(a, b).0).value, BtcLock(b, LockTalk(a, b).1).value;
    var x := MwExec(a.env, a.e, m, SpendRandom(0, 22, 36, 0), 8, 0, 0, true);
    var y := BtcExec(a.env, a.e, n, 37, RecvRandom(41, 38), 0, 0, true);
    assert m.shared == ShareA() && n.shared == ShareB() by { HeldShare(a, b, m); }
    assert ExecAssumptions(a, m, n, x, y) by {
      LibrariesGood();
      ShareSecrets(ShareA(), ShareB(), 0, x.spend, 37, RecvRandom(41, 38));
      SmallFresh(Secret(-2, 36), Secret(-3, 37), Secret(41, 38));
    }
    TimeLeftExact(a, b, x, y);
    assert Executable(SomeWorld(), a, b, x, y);
    ws := SwapCompletes(SomeWorld(), a, b, x, y);
  }

  lemma HeldShare(a: MwSide, b: BtcSide, m: MwLocked)
    requires MwHolds(a, b, m)
    ensures m.shared == ShareOf(a.env, a.start.mw.amount, a.draws.share.blind, b.draws.share.blind)
  {
  }
}
