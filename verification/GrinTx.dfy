/** The two-party builders as each party runs them: a sequence of sends and receives on its stream, with the slate
    threaded through the coin operations in between. Each method is proved against what its endpoint computes
    from the messages heard. */
module GrinTx {
  import opened Wrappers
  import opened Curve
  import opened Transactions
  import opened Slates
  import opened Wire
  import opened Coins
  import opened Stages
  import opened Contract
  import opened Endpoints
  import opened Streams
  import GrinCore
  import ProofContexts
  import TxSlates

  /** What an endpoint has heard since a point in the past. */
  function Since(before: seq<Msg>, after: seq<Msg>): seq<Msg> { if before <= after then after[|before|..] else [] }

  /** The result is the specified one, unless the exchange of lines went wrong. */
  ghost predicate Computes<T>(r: Result<T>, spec: Result<T>, broken: bool) {
    (r.Ok? ==> r == spec) && (r.Err? ==> spec.Err? || broken)
  }

  // ---------------------------------------------------------------- dBuildMWTx

  function BuildA(env: Env, coins: seq<Coin>, fund: nat, timelock: nat, ra: SpendRandom, h: seq<Msg>): Result<Slate> {
    var sp :- DealSpend(env, Deal(coins, fund, timelock, 2, 2), ra);
    var s :- AsSlate(env, Nth(h, 0));
    Coins.FinTx(env, s, sp.key, sp.nonce, true, None, None)
  }

  method DBuildAlice(env: Env, st: Stream, coins: seq<Coin>, fund: nat, timelock: nat,
                     ra: SpendRandom) returns (r: Result<Slate>)
    modifies st
    ensures old(st.heard) <= st.heard && (old(st.broken) ==> st.broken)
    ensures Computes(r, BuildA(env, coins, fund, timelock, ra, Since(old(st.heard), st.heard)), st.broken)
    ensures r.Ok? ==>
              var sp := DealSpend(env, Deal(coins, fund, timelock, 2, 2), ra);
              sp.Ok? && st.said == old(st.said) + [SlateText(ToV4(sp.value.slate)), SlateText(ToV4(r.value))]
  {
    hide Coins.SpendCoins, Coins.FinTx, ToV4, FromV4;
    var sp :- GrinCore.SpendCoins(env, coins, fund, timelock, 2, 2, ra);
    var _ :- st.SendMsg(SlateText(ToV4(sp.slate)));
    var m := st.ReceiveMsg();
    assert Since(old(st.heard), st.heard) == [m];
    var ptx :- AsSlate(env, m);
    var fin :- GrinCore.FinTx(env, ptx, sp.key, sp.nonce, true, None, None);
    var _ :- st.SendMsg(SlateText(ToV4(fin)));
    r := Ok(fin);
  }

  function BuildB(env: Env, fund: nat, rb: RecvRandom, h: seq<Msg>): Result<(Slate, Coin)> {
    var s :- AsSlate(env, Nth(h, 0));
    var rc :- Coins.RecvCoins(env, s, fund, rb);
    var tx :- AsSlate(env, Nth(h, 1));
    Ok((tx, rc.coin))
  }

  method DBuildBob(env: Env, st: Stream, fund: nat, rb: RecvRandom) returns (r: Result<(Slate, Coin)>)
    modifies st
    ensures old(st.heard) <= st.heard && (old(st.broken) ==> st.broken)
    ensures Computes(r, BuildB(env, fund, rb, Since(old(st.heard), st.heard)), st.broken)
    ensures r.Ok? ==>
              var s := AsSlate(env, Nth(Since(old(st.heard), st.heard), 0));
              && s.Ok?
              && var reply := Coins.RecvCoins(env, s.value, fund, rb);
                 reply.Ok? && st.said == old(st.said) + [SlateText(ToV4(reply.value.slate))]
  {
    hide Coins.RecvCoins, ToV4, FromV4;
    var m1 := st.ReceiveMsg();
    assert Since(old(st.heard), st.heard) == [m1];
    var ptx :- AsSlate(env, m1);
    var rc :- GrinCore.RecvCoins(env, ptx, fund, rb);
    var _ :- st.SendMsg(SlateText(ToV4(rc.slate)));
    var m2 := st.ReceiveMsg();
    assert Since(old(st.heard), st.heard) == [m1, m2];
    var tx :- AsSlate(env, m2);
    r := Ok((tx, rc.coin));
  }

  // ---------------------------------------------------------------- dSharedOutMWTx

  function ShareOutA(env: Env, coins: seq<Coin>, fund: nat, timelock: nat, ra: SpendRandom, rs: SharedRandom,
                     h: seq<Msg>): Result<ShareClosing> {
    var o :- ShareOpen(env, coins, fund, timelock, ra, rs);
    var s :- AsSlate(env, Nth(h, 0));
    var ctx :- AsContext(Nth(h, 1));
    ShareClose(env, o, s, ctx, rs)
  }

  method DSharedOutAlice(env: Env, st: Stream, coins: seq<Coin>, fund: nat, timelock: nat, ra: SpendRandom,
                         rs: SharedRandom)
    returns (r: Result<ShareClosing>)
    modifies st
    ensures old(st.heard) <= st.heard && (old(st.broken) ==> st.broken)
    ensures Computes(r, ShareOutA(env, coins, fund, timelock, ra, rs, Since(old(st.heard), st.heard)), st.broken)
    ensures |st.heard| <= |old(st.heard)| + 2 && (r.Ok? ==> |st.heard| == |old(st.heard)| + 2)
    ensures r.Ok? ==>
              var o := ShareOpen(env, coins, fund, timelock, ra, rs);
              o.Ok? && st.said == old(st.said) + [SlateText(ToV4(o.value.slate)), Context(o.value.ctx),
                                                  SlateText(ToV4(r.value.slate))]
  {
    hide Coins.SpendCoins, Coins.DRecvCoinsR1, Coins.DRecvCoinsR3, Coins.FinTx, ToV4, FromV4;
    var sp :- GrinCore.SpendCoins(env, coins, fund, timelock, 2, 3, ra);
    var first :- ProofContexts.DRecvCoinsR1(env, sp.slate, fund, rs);
    var o := ShareOpening(sp, first.0, first.1);
    assert ShareOpen(env, coins, fund, timelock, ra, rs) == Ok(o);
    var _ :- st.SendMsg(SlateText(ToV4(o.slate)));
    var _ :- st.SendMsg(Context(o.ctx));
    var m1 := st.ReceiveMsg();
    var m2 := st.ReceiveMsg();
    assert Since(old(st.heard), st.heard) == [m1, m2];
    var ptx :- AsSlate(env, m1);
    var ctx :- AsContext(m2);
    var r3 :- ProofContexts.DRecvCoinsR3(env, ptx, ctx, rs);
    var fin :- GrinCore.FinTx(env, r3.slate, sp.key, sp.nonce, true, None, None);
    var _ :- st.SendMsg(SlateText(ToV4(fin)));
    r := Ok(ShareClosing(fin, sp.change, r3.coin));
  }

  function ShareOutB(env: Env, fund: nat, rb: SharedRandom, h: seq<Msg>): Result<(RecvResult, Slate)> {
    var s :- AsSlate(env, Nth(h, 0));
    var ctx :- AsContext(Nth(h, 1));
    var (rc, ctx2) :- Coins.DRecvCoinsR2(env, s, fund, ctx, rb);
    var tx :- AsSlate(env, Nth(h, 2));
    Ok((rc, tx))
  }

  method DSharedOutBob(env: Env, st: Stream, fund: nat, rb: SharedRandom) returns (r: Result<(RecvResult, Slate)>)
    modifies st
    ensures old(st.heard) <= st.heard && (old(st.broken) ==> st.broken)
    ensures Computes(r, ShareOutB(env, fund, rb, Since(old(st.heard), st.heard)), st.broken)
    ensures |st.heard| <= |old(st.heard)| + 3 && (r.Ok? ==> |st.heard| == |old(st.heard)| + 3)
    ensures r.Ok? ==>
              var h := Since(old(st.heard), st.heard);
              var s, ctx := AsSlate(env, Nth(h, 0)), AsContext(Nth(h, 1));
              && s.Ok? && ctx.Ok?
              && var reply := Coins.DRecvCoinsR2(env, s.value, fund, ctx.value, rb);
                 reply.Ok? && st.said == old(st.said) + [SlateText(ToV4(reply.value.0.slate)), Context(reply.value.1)]
  {
    hide Coins.DRecvCoinsR2, ToV4, FromV4;
    var m1 := st.ReceiveMsg();
    var m2 := st.ReceiveMsg();
    assert Since(old(st.heard), st.heard) == [m1, m2];
    var ptx :- AsSlate(env, m1);
    var ctx :- AsContext(m2);
    var rc :- ProofContexts.DRecvCoinsR2(env, ptx, fund, ctx, rb);
    var _ :- st.SendMsg(SlateText(ToV4(rc.0.slate)));
    var _ :- st.SendMsg(Context(rc.1));
    var m3 := st.ReceiveMsg();
    assert Since(old(st.heard), st.heard) == [m1, m2, m3];
    var tx :- AsSlate(env, m3);
    r := Ok((rc.0, tx));
  }

  // ---------------------------------------------------------------- dSharedInpMWTx

  function SharedInpA(env: Env, coin: Coin, fund: nat, timelock: nat, ra: SpendRandom, h: seq<Msg>): Result<Slate> {
    var sp :- DealSpend(env, Deal([coin], fund, timelock, 1, 3), ra);
    var s :- AsSlate(env, Nth(h, 0));
    SpendClose(env, sp, s)
  }

  method DSharedInpAlice(env: Env, st: Stream, coin: Coin, fund: nat, timelock: nat,
                         ra: SpendRandom) returns (r: Result<Slate>)
    modifies st
    ensures old(st.heard) <= st.heard && (old(st.broken) ==> st.broken)
    ensures Computes(r, SharedInpA(env, coin, fund, timelock, ra, Since(old(st.heard), st.heard)), st.broken)
    ensures r.Ok? ==> |st.heard| == |old(st.heard)| + 1
    ensures r.Ok? ==>
              var sp := DealSpend(env, Deal([coin], fund, timelock, 1, 3), ra);
              sp.Ok? && st.said == old(st.said) + [SlateText(ToV4(sp.value.slate)), SlateText(ToV4(r.value))]
  {
    hide Coins.SpendCoins, Coins.FinTx, Slates.UpdateKernel, ToV4, FromV4;
    var sp :- GrinCore.SpendCoins(env, [coin], fund, timelock, 1, 3, ra);
    var _ :- st.SendMsg(SlateText(ToV4(sp.slate)));
    var m := st.ReceiveMsg();
    assert Since(old(st.heard), st.heard) == [m];
    var ptx :- AsSlate(env, m);
    var slate := new TxSlates.TxSlate(ptx);
    var _ :- slate.UpdateKernel();
    var fin :- GrinCore.FinTx(env, slate.Value(), sp.key, sp.nonce, true, None, None);
    var _ :- st.SendMsg(SlateText(ToV4(fin)));
    r := Ok(fin);
  }

  function SharedInpB(env: Env, coin: Coin, fund: nat, timelock: nat, nonce: int, rb: RecvRandom,
                      h: seq<Msg>): Result<(Slate, Coin)> {
    var s :- AsSlate(env, Nth(h, 0));
    var reply :- SpendRespond(env, coin, s, fund, timelock, nonce, rb);
    var final :- AsSlate(env, Nth(h, 1));
    var own :- SpendOwn(env, final);
    Ok((own, reply.coin))
  }

  method DSharedInpBob(env: Env, st: Stream, coin: Coin, fund: nat, timelock: nat, nonce: int,
                       rb: RecvRandom) returns (r: Result<(Slate, Coin)>)
    modifies st
    ensures old(st.heard) <= st.heard && (old(st.broken) ==> st.broken)
    ensures Computes(r, SharedInpB(env, coin, fund, timelock, nonce, rb, Since(old(st.heard), st.heard)), st.broken)
    ensures r.Ok? ==> |st.heard| == |old(st.heard)| + 2
    ensures r.Ok? ==>
              var s := AsSlate(env, Nth(Since(old(st.heard), st.heard), 0));
              && s.Ok?
              && var reply := SpendRespond(env, coin, s.value, fund, timelock, nonce, rb);
                 reply.Ok? && st.said == old(st.said) + [SlateText(ToV4(reply.value.slate))]
  {
    hide Coins.DSpendCoins, Coins.RecvCoins, Coins.FinTx, Slates.UpdateKernel, Slates.Finalize, ToV4, FromV4;
    var m1 := st.ReceiveMsg();
    assert Since(old(st.heard), st.heard) == [m1];
    var ptx :- AsSlate(env, m1);
    var ds :- GrinCore.DSpendCoins(env, [coin], ptx, fund, timelock, nonce);
    var rc :- GrinCore.RecvCoins(env, ds.slate, fund, rb);
    var f1 :- GrinCore.FinTx(env, rc.slate, ds.key, ds.nonce, false, None, None);
    assert SpendRespond(env, coin, ptx, fund, timelock, nonce, rb) == Ok(SpendReply(f1, rc.coin));
    var _ :- st.SendMsg(SlateText(ToV4(f1)));
    var m2 := st.ReceiveMsg();
    assert Since(old(st.heard), st.heard) == [m1, m2];
    var fin :- AsSlate(env, m2);
    var slate := new TxSlates.TxSlate(fin);
    var _ :- slate.UpdateKernel();
    var _ :- slate.Finalize(env);
    r := Ok((slate.Value(), rc.coin));
  }

  // ---------------------------------------------------------------- dContractMWTx

  function ContractA(env: Env, coin: Coin, fund: nat, timelock: nat, X: Point, ra: SpendRandom,
                     h: seq<Msg>): Result<Scalar> {
    var sp :- DealSpend(env, Deal([coin], fund, timelock, 1, 3), ra);
    var s :- AsSlate(env, Nth(h, 0));
    var k :- ContractSign(env, sp, s, X);
    var final :- AsSlate(env, Nth(h, 1));
    ContractRead(final, k.adapted)
  }

  method DContractAlice(env: Env, st: Stream, coin: Coin, fund: nat, timelock: nat, X: Point,
                        ra: SpendRandom) returns (r: Result<Scalar>)
    modifies st
    ensures old(st.heard) <= st.heard && (old(st.broken) ==> st.broken)
    ensures Computes(r, ContractA(env, coin, fund, timelock, X, ra, Since(old(st.heard), st.heard)), st.broken)
    ensures r.Ok? ==> |st.heard| == |old(st.heard)| + 2
    ensures r.Ok? ==>
              var sp := DealSpend(env, Deal([coin], fund, timelock, 1, 3), ra);
              var s := AsSlate(env, Nth(Since(old(st.heard), st.heard), 0));
              && sp.Ok? && s.Ok?
              && var k := ContractSign(env, sp.value, s.value, X);
                 k.Ok? && st.said == old(st.said) + [SlateText(ToV4(sp.value.slate)), SlateText(ToV4(k.value.slate))]
  {
    hide Coins.SpendCoins, Coins.FinTx, ToV4, FromV4, VerifyPartial;
    var sp :- GrinCore.SpendCoins(env, [coin], fund, timelock, 1, 3, ra);
    var _ :- st.SendMsg(SlateText(ToV4(sp.slate)));
    var m1 := st.ReceiveMsg();
    assert Since(old(st.heard), st.heard) == [m1];
    var ptx :- AsSlate(env, m1);
    var adapted :- ThirdSig(ptx);
    var p3 :- GrinCore.FinTx(env, ptx, sp.key, sp.nonce, false, Some(X), None);
    assert ContractSign(env, sp, ptx, X) == Ok(Countersigned(p3, adapted));
    var _ :- st.SendMsg(SlateText(ToV4(p3)));
    var m2 := st.ReceiveMsg();
    assert Since(old(st.heard), st.heard) == [m1, m2];
    var final :- AsSlate(env, m2);
    var plain :- ThirdSig(final);
    var x := GrinCore.ExtWitness(plain, adapted);
    r := Ok(x);
  }

  function ContractB(env: Env, coin: Coin, fund: nat, timelock: nat, x: int, nonce: int, rb: RecvRandom,
                     h: seq<Msg>): Result<(Slate, Coin)> {
    var s :- AsSlate(env, Nth(h, 0));
    var reply :- ContractRespond(env, coin, s, fund, timelock, x, nonce, rb);
    var p3 :- AsSlate(env, Nth(h, 1));
    var fin :- ContractFinish(env, reply, p3);
    Ok((fin, reply.recv.coin))
  }

  method DContractBob(env: Env, st: Stream, coin: Coin, fund: nat, timelock: nat, x: int, nonce: int,
                      rb: RecvRandom) returns (r: Result<(Slate, Coin)>)
    modifies st
    ensures old(st.heard) <= st.heard && (old(st.broken) ==> st.broken)
    ensures Computes(r, ContractB(env, coin, fund, timelock, x, nonce, rb, Since(old(st.heard), st.heard)), st.broken)
    ensures r.Ok? ==> |st.heard| == |old(st.heard)| + 2
    ensures r.Ok? ==>
              var s := AsSlate(env, Nth(Since(old(st.heard), st.heard), 0));
              && s.Ok?
              && var reply := ContractRespond(env, coin, s.value, fund, timelock, x, nonce, rb);
                 reply.Ok? && st.said == old(st.said) + [SlateText(ToV4(reply.value.recv.slate)),
                                                         SlateText(ToV4(r.value.0))]
  {
    hide Coins.DSpendCoins, Coins.AptRecvCoins, Coins.FinTx, ToV4, FromV4;
    var m1 := st.ReceiveMsg();
    assert Since(old(st.heard), st.heard) == [m1];
    var ptx :- AsSlate(env, m1);
    var ds :- GrinCore.DSpendCoins(env, [coin], ptx, fund, timelock, nonce);
    var ap :- GrinCore.AptRecvCoins(env, ds.slate, fund, x, rb);
    var _ :- st.SendMsg(SlateText(ToV4(ap.slate)));
    var m2 := st.ReceiveMsg();
    assert Since(old(st.heard), st.heard) == [m1, m2];
    var p3 :- AsSlate(env, m2);
    var fin :- GrinCore.FinTx(env, p3, ds.key, ds.nonce, true, None, Some((ap.adapted, ap.plain)));
    var _ :- st.SendMsg(SlateText(ToV4(fin)));
    r := Ok((fin, ap.coin));
  }
}
