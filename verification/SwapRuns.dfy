/** Building runs of the swap: any schedule of a session can be played, step after step. */
module SwapRuns {
  import opened Wrappers
  import opened Curve
  import opened CoinProofs
  import opened Builders
  import opened Bitcoin
  import opened Endpoints
  import opened Tcp
  import opened SwapState
  import opened Locking
  import opened Execution
  import opened Swap
  import opened SwapOrder
  import opened SwapTheorems

  // ---------------------------------------------------------------- one step more

  lemma ExtendHistory(ws: seq<World>, w: World)
    requires History(ws) && Step(ws[|ws| - 1], w)
    ensures History(ws + [w]) && |ws| > 0
  {
    hide Step, Initial;
    var vs := ws + [w];
    forall k | 0 <= k < |vs| - 1 ensures Step(vs[k], vs[k + 1]) {
      if k < |ws| - 1 {
        assert vs[k] == ws[k] && vs[k + 1] == ws[k + 1];
      }
    }
  }

  /** The steps a run is built of, besides connecting and moving lines. */
  ghost predicate PlainStep(w: World, w': World) {
    || BeginMw(w, w') || BeginBtc(w, w') || WriteMw(w, w') || WriteBtc(w, w') || Publish(w, w')
    || StopMw(w, w') || StopBtc(w, w') || Rise(w, w')
  }

  lemma PlainIsStep(w: World, w': World)
    requires PlainStep(w, w')
    ensures Step(w, w')
  {
    hide Connect, BeginMw, BeginBtc, MoveMw, MoveBtc, StopMw, StopBtc, LockThenStop, Rise, WriteMw, WriteBtc, Publish;
  }

  lemma Extended(ws: seq<World>, w: World) returns (vs: seq<World>)
    requires History(ws) && |ws| > 0 && PlainStep(ws[|ws| - 1], w)
    ensures History(vs) && vs == ws + [w]
  {
    hide Step, Initial, PlainStep;
    PlainIsStep(ws[|ws| - 1], w);
    ExtendHistory(ws, w);
    vs := ws + [w];
  }

  /** Blocks arrive until both chains are at least this high. */
  lemma Raised(ws: seq<World>, grin: nat, bitcoin: nat) returns (vs: seq<World>)
    requires History(ws) && |ws| > 0
    ensures History(vs) && |vs| > 0 && ws <= vs
    ensures var v, u := ws[|ws| - 1], vs[|vs| - 1];
            && u == v.(grin := u.grin, bitcoin := u.bitcoin)
            && u.grin == (if v.grin <= grin then grin else v.grin)
                && u.bitcoin == (if v.bitcoin <= bitcoin then bitcoin else v.bitcoin)
  {
    hide History;
    var v := ws[|ws| - 1];
    var u := v.(grin := if v.grin <= grin then grin else v.grin,
                bitcoin := if v.bitcoin <= bitcoin then bitcoin else v.bitcoin);
    assert Rise(v, u);
    vs := Extended(ws, u);
  }

  lemma {:induction false} LogKept(vs: seq<World>, j: nat, k: nat)
    requires History(vs) && j <= k < |vs|
    ensures vs[j].log <= vs[k].log
  {
    hide Step, Initial;
    if j < k {
      LogKept(vs, j, k - 1);
      assert Step(vs[k - 1], vs[k - 1 + 1]);
      LogGrows(vs[k - 1], vs[k]);
    }
  }

  /** Both processes stop. */
  lemma Stopped(ws: seq<World>) returns (vs: seq<World>)
    requires History(ws) && |ws| > 0
    ensures History(vs) && |vs| > 0 && ws <= vs && vs[|vs| - 1] == ws[|ws| - 1].(mwLife := Gone, btcLife := Gone)
  {
    hide History;
    var v := ws[|ws| - 1];
    var v1 := v.(mwLife := Gone);
    assert StopMw(v, v1);
    vs := Extended(ws, v1);
    var v2 := v1.(btcLife := Gone);
    assert StopBtc(v1, v2);
    vs := Extended(vs, v2);
  }

  // ---------------------------------------------------------------- playing a schedule

  ghost predicate NothingRedeemed(w: World) { forall i :: 0 <= i < |w.log| ==> !w.log[i].Redeemed? }

  lemma MoveIsStep(w: World, net: Net<Msg>) returns (w': World)
    requires Next(w.net, net) && w.mwLife.Alive? && w.btcLife.Alive? && HeightKnown(w) && TimeKnown(w)
    ensures Step(w, w') && w' == w.(net := net, log := w'.log)
    ensures NothingRedeemed(w) ==> NothingRedeemed(w')
  {
    hide BtcFund, Advance, Connect, Publish, WriteMw, WriteBtc;
    if MoveA(w.net, 0) == Some(net) {
      w' := w.(net := net);
      assert MoveMw(w, w');
    } else {
      var locked := if LocksNow(w) then [BitcoinLocked(w.session.b,
                                                       BtcFund(w.session.b, w.net.b.inbox).value.tx)] else [];
      w' := w.(net := net, log := w.log + locked);
      assert MoveBtc(w, w');
    }
  }

  /** Any schedule of the lines is part of a run of the swap. */
  lemma {:induction false} Follow(ws: seq<World>, run: seq<Net<Msg>>, p: seq<Action<Msg>>, q: seq<Action<Msg>>)
    returns (vs: seq<World>)
    requires History(ws) && IsRun(run, p, q) && ws[|ws| - 1].net == Init(p, q)
    requires ws[|ws| - 1].mwLife.Alive? && ws[|ws| - 1].btcLife.Alive?
    requires var w := ws[|ws| - 1];
             w.session.LockSession? ==> w.session.a.height <= w.grin && w.session.b.height <= w.bitcoin
    ensures History(vs) && |vs| > 0 && ws <= vs
    ensures vs[|vs| - 1] == ws[|ws| - 1].(net := run[|run| - 1], log := vs[|vs| - 1].log)
    ensures NothingRedeemed(ws[|ws| - 1]) ==> NothingRedeemed(vs[|vs| - 1])
  {
    hide Step, Initial, Next, Init, NothingRedeemed;
    if |run| == 1 {
      vs := ws;
    } else {
      var before := run[..|run| - 1];
      forall k | 0 <= k < |before| - 1 ensures Next(before[k], before[k + 1]) {
        assert before[k] == run[k] && before[k + 1] == run[k + 1];
      }
      vs := Follow(ws, before, p, q);
      assert Next(run[|run| - 2], run[|run| - 1]);
      var w := MoveIsStep(vs[|vs| - 1], run[|run| - 1]);
      ExtendHistory(vs, w);
      vs := vs + [w];
    }
  }

  // ---------------------------------------------------------------- setup

  /** The parties fit this fresh world and will ask for heights later than now. */
  ghost predicate FitWorld(w: World, a: MwSide, b: BtcSide) {
    && Initial(w) && a.start == w.start && a.env == w.env && a.e == w.e
    && w.grin <= a.height && w.bitcoin <= b.height
  }

  /** The start of every run of interest: the parties connect and talk the setup phase through. */
  lemma SetupRun(w: World, a: MwSide, b: BtcSide) returns (ws: seq<World>)
    requires FitWorld(w, a, b) && Paired(a, b)
    ensures History(ws) && |ws| > 0
    ensures var v := ws[|ws| - 1];
            && v.mw == w.mw && v.btc == w.btc && v.start == w.start && v.deal == Some((a, b))
            && v.env == w.env && v.e == w.e && v.grin == a.height && v.bitcoin == b.height
            && v.session == LockSession(a, b) && v.mwLife.Alive? && v.btcLife.Alive?
            && Done(v.net.a) && Done(v.net.b)
            && v.net.a.inbox == LockTalk(a, b).0 && v.net.b.inbox == LockTalk(a, b).1
            && NothingRedeemed(v)
  {
    hide MwLockProgram, BtcLockProgram, Talk, Next;
    LockProgramsDual(a, b);
    var p, q := MwLockProgram(a), BtcLockProgram(b);
    var c := Connected(w, LockSession(a, b), p, q).(deal := Some((a, b)));
    assert Step(w, c) by { assert ConnectLock(w, c, a, b); }
    ws := [w, c];
    ws := Raised(ws, a.height, b.height);
    var run := ReachLevel(p, q, |p|);
    ws := Follow(ws, run, p, q);
  }

  lemma Completes(a: MwSide, b: BtcSide) returns (m: MwLocked)
    requires LockAssumptions(a, b) && LockCondition(a, b)
    ensures MwLock(a.(pushed := true), LockTalk(a, b).0) == Ok(m) && MwHolds(a, b, m)
  {
    hide MwLockProgram, BtcLockProgram, LockTalk, MwLock, BtcLock, PointOf, LockTalked, FundCondition, VerifyCondition;
    var a' := a.(pushed := true);
    LockConversation(a, b);
    PushIrrelevant(a, b, LockTalk(a, b).0, LockTalk(a, b).1);
    assert LockAssumptions(a', b);
    assert FundCondition(b) && VerifyCondition(a') by { SameConditions(a, b); }
    GrinStage(a', b, LockTalk(a, b).0, LockTalk(a, b).1);
    m := MwLock(a', LockTalk(a, b).0).value;
    FundingRests(a, b, m);
  }

  lemma SameConditions(a: MwSide, b: BtcSide)
    requires LockCondition(a, b)
    ensures FundCondition(b) && VerifyCondition(a.(pushed := true))
  {
  }

  /** Both parties complete the setup and write. */
  lemma SetupWritten(w: World, a: MwSide, b: BtcSide) returns (ws: seq<World>)
    requires FitWorld(w, a, b) && LockAssumptions(a, b) && LockCondition(a, b) && a.pushed
    ensures History(ws) && |ws| > 0
    ensures MwLock(a, LockTalk(a, b).0).Ok? && BtcLock(b, LockTalk(a, b).1).Ok?
    ensures var v, m, n := ws[|ws| - 1], MwLock(a, LockTalk(a, b).0).value, BtcLock(b, LockTalk(a, b).1).value;
            && Free(v) && v.mw == MwDisk(m.pub, Some(m)) && v.btc == BtcDisk(n.pub, Some(n))
            && m.pub == n.pub && m.pub.status == SETUP && v.deal == Some((a, b))
            && v.env == w.env && v.e == w.e && v.grin == a.height && v.bitcoin == b.height && NothingRedeemed(v)
  {
    hide MwLockProgram, BtcLockProgram, LockTalk, MwLock, BtcLock, Step, Initial, LockAssumptions, LockCondition,
         MwHolds,
         PointOf, LockScriptOf;
    assert Paired(a, b) by { Assumed(a, b); }
    ws := SetupRun(w, a, b);
    LockTalkExact(a, b);
    assert a.(pushed := true) == a;
    hide History, LocksMatch;
    var v := ws[|ws| - 1];
    var v1 := v.(btcLife := Gone, btc := BtcResult(v).value);
    assert WriteBtc(v, v1);
    ws := Extended(ws, v1);
    var v2 := v1.(mwLife := Published, log := v1.log + [GrinFunded(a, b, MwLock(a, LockTalk(a, b).0).value)]);
    assert PublishFunding(v1, v2);
    ws := Extended(ws, v2);
    var v3 := v2.(mwLife := Gone, mw := MwResult(v2).value);
    assert WriteMw(v2, v3);
    ws := Extended(ws, v3);
    AgreedPubs(a, b, MwLock(a, LockTalk(a, b).0).value, BtcLock(b, LockTalk(a, b).1).value);
  }

  lemma AgreedPubs(a: MwSide, b: BtcSide, m: MwLocked, n: BtcLocked)
    requires LocksMatch(a, b, m, n)
    ensures m.pub == n.pub && m.pub.status == SETUP
  {
    hide PointOf, LockScriptOf;
  }

  // ---------------------------------------------------------------- execution

  /** Two written slates on which the next handshake for execution succeeds. */
  ghost predicate ReadyToExecute(v: World, x: MwExec, y: BtcExec) {
    && Handshake(v, SETUP) && v.mw.keys == Some(x.slate) && v.btc.keys == Some(y.slate)
    && x.env == y.env == v.env && x.e == y.e == v.e
    && v.grin <= x.grin && v.bitcoin <= x.btc && v.grin <= y.grin && v.bitcoin <= y.btc
  }

  /** Both sides have connected and checked the time, each at its own heights. */
  lemma BothBegin(ws: seq<World>, x: MwExec, y: BtcExec) returns (vs: seq<World>)
    requires History(ws) && |ws| > 0 && ReadyToExecute(ws[|ws| - 1], x, y)
    ensures History(vs) && |vs| > 0 && ws <= vs
    ensures var v, u := ws[|ws| - 1], vs[|vs| - 1];
            && u == Connected(v, ExecSession(x, y), MwExecProgram(x), BtcExecProgram(y))
                    .(log := u.log, grin := u.grin, bitcoin := u.bitcoin)
            && (NothingRedeemed(v) ==> NothingRedeemed(u))
  {
    hide MwExecProgram, BtcExecProgram, Step, Initial, CheckTime, Init;
    var v := ws[|ws| - 1];
    var c := Connected(v, ExecSession(x, y), MwExecProgram(x), BtcExecProgram(y)).(mwLife := Starting,
        btcLife := Starting);
    assert Step(v, c) by { ConnectIsStep(v, c, x, y); }
    ExtendHistory(ws, c);
    vs := ws + [c];
    vs := Raised(vs, x.grin, x.btc);
    vs := Raised(vs, y.grin, y.btc);
    hide History;
    var c1 := vs[|vs| - 1];
    var c2 := c1.(mwLife := Alive, log := c1.log + StartEvents(Mw, x.slate.pub, x.grin, x.btc));
    assert BeginMw(c1, c2);
    vs := Extended(vs, c2);
    var c3 := c2.(btcLife := Alive, log := c2.log + StartEvents(Btc, y.slate.pub, y.grin, y.btc));
    assert BeginBtc(c2, c3);
    vs := Extended(vs, c3);
  }

  lemma ConnectIsStep(w: World, w': World, x: MwExec, y: BtcExec)
    requires ConnectExecute(w, w', x, y)
    ensures Step(w, w')
  {
    hide ConnectExecute, ConnectLock, ConnectCancel, BeginMw, BeginBtc, MoveMw, MoveBtc, LockThenStop, Publish, WriteMw,
         WriteBtc;
  }

  /** The contract is talked through and published. */
  lemma ContractRunTo(ws: seq<World>, x: MwExec, y: BtcExec) returns (vs: seq<World>)
    requires History(ws) && |ws| > 0 && ReadyToExecute(ws[|ws| - 1], x, y)
    requires BtcExecute(y.(pushed := true), ExecTalk(x, y).1).Ok?
    ensures History(vs) && |vs| > 0 && ws <= vs
    ensures |ws[|ws| - 1].log| < |vs[|vs| - 1].log|
    ensures var v, u := ws[|ws| - 1], vs[|vs| - 1];
            && u.mw == v.mw && u.btc == v.btc && u.env == v.env && u.e == v.e && u.deal == v.deal
            && u.session == ExecSession(x, y) && u.mwLife.Alive? && u.btcLife == After(y.pushed) && Done(u.net.a)
            && u.net.a.inbox == ExecTalk(x, y).0 && u.net.b.inbox == ExecTalk(x, y).1
            && |u.log| > 0 && u.log[|u.log| - 1].Contracted?
            && u.log[|u.log| - 1].x == x && u.log[|u.log| - 1].y == y && u.log[|u.log| - 1].aliceHas == ExecTalk(x, y).0
            && (NothingRedeemed(v) ==> NothingRedeemed(u))
  {
    hide MwExecProgram, BtcExecProgram, Talk, Next, BtcExecute, Step, Initial, Advance, ReadyToExecute;
    ExecProgramsDual(x, y);
    var p, q := MwExecProgram(x), BtcExecProgram(y);
    vs := BothBegin(ws, x, y);
    var run := ReachLevel(p, q, |p|);
    vs := Follow(vs, run, p, q);
    LogKept(vs, |ws| - 1, |vs| - 1);
    var c1 := vs[|vs| - 1];
    var g := BtcExecute(y.(pushed := true), c1.net.b.inbox).value;
    var c2 := c1.(btcLife := After(y.pushed),
                  log := c1.log + [Contracted(x, y, g.contract, g.swapped, c1.net.a.inbox)]);
    assert PublishContract(c1, c2);
    vs := Extended(vs, c2);
  }

  lemma HourForBoth(a: MwSide, b: BtcSide, x: MwExec, y: BtcExec)
    requires LocksMatch(a, b, x.slate, y.slate)
    ensures TimeLeft(x, y) <==> HourLeft(a, b, x.grin, x.btc) && HourLeft(a, b, y.grin, y.btc)
  {
    hide AgreedSlate, TimeLeft, HourLeft, LocksInput, Records, SharedPair;
    TimeLeftExact(a, b, x, y);
  }

  /** The parties of a locked swap can build the contract exactly when both find an hour left. */
  lemma ContractPossible(a: MwSide, b: BtcSide, x: MwExec, y: BtcExec)
    requires LockAssumptions(a, b) && LockCondition(a, b) && a.pushed
    requires MwLock(a, LockTalk(a, b).0) == Ok(x.slate) && BtcLock(b, LockTalk(a, b).1) == Ok(y.slate)
    requires ExecAssumptions(a, x.slate, y.slate, x, y)
    ensures BtcExecute(y.(pushed := true), ExecTalk(x, y).1).Ok? <==>
              HourLeft(a, b, x.grin, x.btc) && HourLeft(a, b, y.grin, y.btc)
  {
    hide LockAssumptions, LockCondition, LockTalk, MwLock, BtcLock, ExecAssumptions, Talk, ContractRun, LocksMatch,
         MwHolds,
         ExecTalked, MwExecProgram, BtcExecProgram, BtcRespond, BtcFinish, MwSign, PointOf, TimeLeft, MwReveal, Mod;
    LockTalkExact(a, b);
    ContractOfLocked(a, b, x.slate, y.slate, x, y);
    HourForBoth(a, b, x, y);
    ExecConversation(x, y);
    assert x.env == y.env == a.env by { SameEnv(a, x, y); }
    ContractStage(x, y, ExecTalk(x, y).0, ExecTalk(x, y).1, PointOf(b.draws.x));
    PushUnsaid(y, ExecTalk(x, y).1);
  }

  lemma PushUnsaid(y: BtcExec, h: seq<Msg>)
    ensures BtcFinish(y.(pushed := true), h) == BtcFinish(y, h)
    ensures BtcRespond(y.(pushed := true), h) == BtcRespond(y, h)
  {
    hide CheckTime, ContractRespond, ContractFinish;
  }

  lemma RedeemPossible(a: MwSide, b: BtcSide, x: MwExec, y: BtcExec)
    requires LockAssumptions(a, b) && LockCondition(a, b) && a.pushed
    requires MwLock(a, LockTalk(a, b).0) == Ok(x.slate) && BtcLock(b, LockTalk(a, b).1) == Ok(y.slate)
    requires ExecAssumptions(a, x.slate, y.slate, x, y)
    requires HourLeft(a, b, x.grin, x.btc) && HourLeft(a, b, y.grin, y.btc)
    ensures MwReveal(x, ExecTalk(x, y).0) == Ok(Mod(b.draws.x))
    ensures a.start.btc.amount >= 500 && x.sent ==> MwExecute(x, ExecTalk(x, y).0).Ok?
  {
    hide LockAssumptions, LockCondition, LockTalk, MwLock, BtcLock, Talk, ContractRun, LocksMatch, MwHolds, ExecTalked,
         Fresh,
         InpSecrets, MwExecProgram, BtcExecProgram, BtcRespond, BtcFinish, MwSign, PointOf, TimeLeft, MwReveal, Mod,
             GoodBtcEnv,
         RedeemTx, SpendsOutput;
    LockTalkExact(a, b);
    ContractOfLocked(a, b, x.slate, y.slate, x, y);
    HourForBoth(a, b, x, y);
    ExecConversation(x, y);
    ContractStage(x, y, ExecTalk(x, y).0, ExecTalk(x, y).1, PointOf(b.draws.x));
    KeyOfLocked(a, b, x.slate, y.slate);
    RedeemStage(a, b, x.slate, y.slate, x, Mod(b.draws.x));
  }

  /** Parties that meet every condition of setup and of execution, and ask for heights in order. */
  ghost predicate Executable(w: World, a: MwSide, b: BtcSide, x: MwExec, y: BtcExec) {
    && FitWorld(w, a, b) && LockAssumptions(a, b) && LockCondition(a, b) && a.pushed
    && MwLock(a, LockTalk(a, b).0) == Ok(x.slate) && BtcLock(b, LockTalk(a, b).1) == Ok(y.slate)
    && ExecAssumptions(a, x.slate, y.slate, x, y)
    && HourLeft(a, b, x.grin, x.btc) && HourLeft(a, b, y.grin, y.btc)
    && a.height <= x.grin && b.height <= x.btc && a.height <= y.grin && b.height <= y.btc
  }

  /** Setup, then execution up to the point where the contract is out and neither side has written. */
  lemma ContractOut(w: World, a: MwSide, b: BtcSide, x: MwExec, y: BtcExec) returns (ws: seq<World>)
    requires Executable(w, a, b, x, y)
    ensures History(ws) && |ws| > 0
    ensures var u := ws[|ws| - 1];
            && u.mw == MwDisk(x.slate.pub, Some(x.slate)) && u.btc == BtcDisk(y.slate.pub, Some(y.slate))
            && x.slate.pub == y.slate.pub && x.slate.pub.status == SETUP && u.deal == Some((a, b))
            && u.session == ExecSession(x, y) && u.mwLife.Alive? && u.btcLife == After(y.pushed) && Done(u.net.a)
            && |u.log| > 0 && u.log[|u.log| - 1].Contracted? && NothingRedeemed(u)
            && BtcExecute(y.(pushed := true), u.net.b.inbox).Ok? && MwReveal(x, u.net.a.inbox).Ok?
            && (a.start.btc.amount >= 500 && x.sent ==> MwExecute(x, u.net.a.inbox).Ok?)
  {
    hide LockAssumptions, LockCondition, LockTalk, MwLock, BtcLock, ExecAssumptions, HourLeft, Step, Initial, ExecTalk,
         BtcExecute, MwExecute, MwReveal, History, NothingRedeemed, Mod;
    ws := SetupWritten(w, a, b);
    ContractPossible(a, b, x, y);
    RedeemPossible(a, b, x, y);
    assert x.env == y.env == a.env && x.e == y.e == a.e by { SameEnv(a, x, y); }
    ws := ContractRunTo(ws, x, y);
  }
}
