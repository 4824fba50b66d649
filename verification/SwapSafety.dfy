/** What every run of the swap keeps, whatever crashes, node errors and schedules it contains. */
module SwapSafety {
  import opened Wrappers
  import opened Curve
  import opened Endpoints
  import opened Tcp
  import opened SwapState
  import opened Locking
  import opened Execution
  import opened Swap

  // ---------------------------------------------------------------- the invariant

  /** The public slate of the latest setup session. */
  ghost function Agreed(w: World): PubSlate
    requires w.deal.Some?
  {
    AgreedSlate(w.deal.value.0, w.deal.value.1)
  }

  ghost predicate DealInv(w: World) {
    && w.start.status == INITIALIZED
    && (w.deal.Some? ==>
          var (a, b) := w.deal.value;
          Paired(a, b) && a.start == w.start && a.env == w.env && a.e == w.e)
    && (w.deal.None? <==> w.session.NoSession?)
    && (w.deal.None? ==> Free(w) && w.mw == MwDisk(w.start, None) && w.btc == BtcDisk(w.start, None))
  }

  /** A party's file: as it started, or as the setup left it with a later status. */
  ghost predicate MwFile(w: World, allowed: set<PubSlate>) {
    && w.deal.Some? && w.mw.pub in allowed
    && if w.mw.pub == w.start then w.mw.keys.None? else w.mw.keys.Some? && w.mw.keys.value.pub == Agreed(w)
  }

  ghost predicate BtcFile(w: World, allowed: set<PubSlate>) {
    && w.deal.Some? && w.btc.pub in allowed
    && if w.btc.pub == w.start then w.btc.keys.None? else w.btc.keys.Some? && w.btc.keys.value.pub == Agreed(w)
  }

  /** Both files hold what this session started from, unless their process has written its result and gone. */
  ghost predicate FilesInv(w: World, before: PubSlate, after: PubSlate) {
    && MwFile(w, {before, after}) && BtcFile(w, {before, after})
    && (!w.mwLife.Gone? ==> w.mw.pub == before)
    && (!w.btcLife.Gone? ==> w.btc.pub == before)
  }

  ghost predicate Talking(w: World, p: seq<Action<Msg>>, q: seq<Action<Msg>>) {
    && Dual(p, q) && Inv(w.net, p, q)
    && (w.mwLife.Published? ==> Done(w.net.a))
    && (w.btcLife.Published? ==> Done(w.net.b))
  }

  ghost predicate SessionInv(w: World) {
    match w.session
    case NoSession => true
    case LockSession(a, b) =>
      && w.deal == Some((a, b))
      && FilesInv(w, w.start, Agreed(w))
      && Talking(w, MwLockProgram(a), BtcLockProgram(b))
      && !w.btcLife.Published?
    case ExecSession(x, y) =>
      && w.deal.Some?
      && FilesInv(w, Agreed(w), Agreed(w).(status := FINISHED))
      && w.mw.keys == Some(x.slate) && w.btc.keys == Some(y.slate)
      && x.env == y.env == w.env && x.e == y.e == w.e
      && Talking(w, MwExecProgram(x), BtcExecProgram(y))
    case RefundSession =>
      w.deal.Some? && FilesInv(w, Agreed(w), Agreed(w).(status := FAILED)) && w.net == Init([], [])
  }

  ghost predicate WorldInv(w: World) { DealInv(w) && SessionInv(w) }

  lemma InitialInv(w: World)
    requires Initial(w)
    ensures WorldInv(w)
  {
  }

  // ---------------------------------------------------------------- results of the lock session

  lemma MwResultAgreed(a: MwSide, b: BtcSide, net: Net<Msg>)
    requires Paired(a, b) && Inv(net, MwLockProgram(a), BtcLockProgram(b)) && Dual(MwLockProgram(a), BtcLockProgram(b))
    requires Done(net.a) && MwLock(a, net.a.inbox).Ok?
    ensures MwLock(a, net.a.inbox).value.pub == AgreedSlate(a, b)
  {
    hide MwVerify, MwShare, MwRefund, MwLock, Inv, LockTalked, MwLockProgram, BtcLockProgram, Talk, BtcFund, BtcHear,
         BtcShare, BtcLock, AgreedSlate,
         FundCondition, VerifyCondition, LockScriptOf;
    EndHeard(net, MwLockProgram(a), BtcLockProgram(b));
    LockConversation(a, b);
    var ha, hb := LockTalk(a, b).0, LockTalk(a, b).1;
    VerifyStage(a, b, ha, hb);
    LockParts(a, b, ha, hb);
  }

  lemma BtcResultAgreed(a: MwSide, b: BtcSide, net: Net<Msg>)
    requires Paired(a, b) && Inv(net, MwLockProgram(a), BtcLockProgram(b)) && Dual(MwLockProgram(a), BtcLockProgram(b))
    requires Done(net.b) && BtcLock(b, net.b.inbox).Ok?
    ensures BtcLock(b, net.b.inbox).value.pub == AgreedSlate(a, b)
  {
    hide MwVerify, MwShare, MwRefund, MwLock, Inv, LockTalked, MwLockProgram, BtcLockProgram, Talk, BtcFund, BtcHear,
         BtcShare, BtcLock, BtcTime,
         FundCondition, VerifyCondition, LockScriptOf, PointOf;
    EndHeard(net, MwLockProgram(a), BtcLockProgram(b));
    LockConversation(a, b);
    var ha, hb := LockTalk(a, b).0, LockTalk(a, b).1;
    VerifyStage(a, b, ha, hb);
    BtcParts(a, b, ha, hb);
  }

  // ---------------------------------------------------------------- every step keeps the invariant

  lemma AgreedStatus(w: World)
    requires w.deal.Some?
    ensures Agreed(w).status == SETUP
  {
    hide PointOf;
  }

  lemma ConnectLockKeeps(w: World, w': World, a: MwSide, b: BtcSide)
    requires WorldInv(w) && ConnectLock(w, w', a, b)
    ensures WorldInv(w')
  {
    hide MwLockProgram, BtcLockProgram, Inv, Init, AgreedSlate, MwExecProgram, BtcExecProgram;
    LockProgramsDual(a, b);
    InitInv(MwLockProgram(a), BtcLockProgram(b));
    assert w.deal.Some? ==> Agreed(w).status == SETUP by { if w.deal.Some? { AgreedStatus(w); } }
  }

  lemma ConnectLaterKeeps(w: World, w': World)
    requires WorldInv(w) && (ConnectCancel(w, w') || exists x, y :: ConnectExecute(w, w', x, y))
    ensures WorldInv(w')
  {
    hide MwLockProgram, BtcLockProgram, Inv, Init, AgreedSlate, MwExecProgram, BtcExecProgram, CheckTime;
    if w.deal.Some? { AgreedStatus(w); }
    if !ConnectCancel(w, w') {
      var x, y :| ConnectExecute(w, w', x, y);
      ExecProgramsDual(x, y);
      InitInv(MwExecProgram(x), BtcExecProgram(y));
    }
  }

  lemma NetKeeps(w: World, w': World, p: seq<Action<Msg>>, q: seq<Action<Msg>>)
    requires Talking(w, p, q) && Next(w.net, w'.net)
    requires w'.mwLife == w.mwLife && w'.btcLife == w.btcLife
    requires w.mwLife.Published? ==> w'.net.a == w.net.a
    requires w.btcLife.Published? ==> w'.net.b == w.net.b
    ensures Talking(w', p, q)
  {
    hide Inv, Next;
    NextInv(w.net, w'.net, p, q);
  }

  lemma MoveKeeps(w: World, w': World)
    requires WorldInv(w) && (MoveMw(w, w') || MoveBtc(w, w'))
    ensures WorldInv(w')
  {
    hide MwLockProgram, BtcLockProgram, Inv, AgreedSlate, MwExecProgram, BtcExecProgram, BtcFund, Advance;
    match w.session
    case LockSession(a, b) => NetKeeps(w, w', MwLockProgram(a), BtcLockProgram(b));
    case ExecSession(x, y) => NetKeeps(w, w', MwExecProgram(x), BtcExecProgram(y));
    case RefundSession => SilentNet(w.net);
    case NoSession =>
  }

  lemma SilentNet(n: Net<Msg>)
    requires n == Init([], [])
    ensures MoveA(n, 0).None? && MoveB(n, 0).None?
  {
  }

  lemma PublishKeeps(w: World, w': World)
    requires WorldInv(w) && Publish(w, w')
    ensures WorldInv(w')
  {
    hide MwLockProgram, BtcLockProgram, Inv, AgreedSlate, MwExecProgram, BtcExecProgram, MwLock, MwExecute, BtcExecute,
         MwRefundPhase, BtcRefundPhase;
  }

  lemma MwExecPub(x: MwExec, h: seq<Msg>)
    requires MwExecute(x, h).Ok?
    ensures MwExecute(x, h).value.pub == x.slate.pub.(status := FINISHED)
  {
    hide MwReveal, RedeemTx;
  }

  lemma BtcExecPub(y: BtcExec, h: seq<Msg>)
    requires BtcExecute(y, h).Ok?
    ensures BtcExecute(y, h).value.pub == y.slate.pub.(status := FINISHED)
  {
    hide BtcRespond, BtcFinish;
  }

  lemma WriteMwKeeps(w: World, w': World)
    requires WorldInv(w) && WriteMw(w, w')
    ensures WorldInv(w')
  {
    hide MwLockProgram, BtcLockProgram, Inv, AgreedSlate, MwExecProgram, BtcExecProgram, MwLock, MwExecute;
    if w.deal.Some? { AgreedStatus(w); }
    match w.session
    case LockSession(a, b) => MwResultAgreed(a, b, w.net);
    case ExecSession(x, y) => MwExecPub(x, w.net.a.inbox);
    case RefundSession =>
    case NoSession =>
  }

  lemma WriteBtcKeeps(w: World, w': World)
    requires WorldInv(w) && WriteBtc(w, w')
    ensures WorldInv(w')
  {
    hide MwLockProgram, BtcLockProgram, Inv, AgreedSlate, MwExecProgram, BtcExecProgram, BtcLock, BtcExecute;
    if w.deal.Some? { AgreedStatus(w); }
    match w.session
    case LockSession(a, b) => BtcResultAgreed(a, b, w.net);
    case ExecSession(x, y) => BtcExecPub(y, w.net.b.inbox);
    case RefundSession =>
    case NoSession =>
  }

  lemma StopKeeps(w: World, w': World)
    requires WorldInv(w)
    requires BeginMw(w, w') || BeginBtc(w, w') || StopMw(w, w') || StopBtc(w, w') || LockThenStop(w, w') || Rise(w, w')
    ensures WorldInv(w')
  {
    hide MwLockProgram, BtcLockProgram, Inv, AgreedSlate, MwExecProgram, BtcExecProgram, BtcFund, StartEvents;
  }

  lemma StepKeeps(w: World, w': World)
    requires WorldInv(w) && Step(w, w')
    ensures WorldInv(w')
  {
    hide WorldInv, ConnectLock, ConnectExecute, ConnectCancel, BeginMw, BeginBtc, MoveMw, MoveBtc, StopMw, StopBtc,
         LockThenStop, Rise, Publish, WriteMw, WriteBtc;
    if Connect(w, w') {
      if a, b :| ConnectLock(w, w', a, b) {
        ConnectLockKeeps(w, w', a, b);
      } else {
        ConnectLaterKeeps(w, w');
      }
    } else if MoveMw(w, w') || MoveBtc(w, w') {
      MoveKeeps(w, w');
    } else if Publish(w, w') {
      PublishKeeps(w, w');
    } else if WriteMw(w, w') {
      WriteMwKeeps(w, w');
    } else if WriteBtc(w, w') {
      WriteBtcKeeps(w, w');
    } else {
      StopKeeps(w, w');
    }
  }

  lemma {:induction false} HistoryInv(ws: seq<World>, k: nat)
    requires History(ws) && k < |ws|
    ensures WorldInv(ws[k])
  {
    hide WorldInv, Step, Initial;
    if k == 0 {
      InitialInv(ws[0]);
    } else {
      HistoryInv(ws, k - 1);
      StepKeeps(ws[k - 1], ws[k]);
    }
  }

  // ---------------------------------------------------------------- outcomes

  /** The order in which statuses may be persisted. */
  predicate Follows(s: Status, t: Status) {
    s == t || (s == INITIALIZED && t == SETUP) || (s == SETUP && (t == FINISHED || t == FAILED))
  }

  ghost predicate Persisted(s: Status) { s == INITIALIZED || s == SETUP || s == FINISHED || s == FAILED }

  /** The files change only when a command writes its result. */
  lemma FilesChangeByWrites(w: World, w': World)
    requires Step(w, w')
    ensures w'.mw == w.mw || WriteMw(w, w')
    ensures w'.btc == w.btc || WriteBtc(w, w')
  {
    hide MwLockProgram, BtcLockProgram, MwExecProgram, BtcExecProgram, MwLock, MwExecute, BtcLock, BtcExecute,
         MwRefundPhase, BtcRefundPhase, BtcFund, Advance, CheckTime;
  }

  lemma WriteStatuses(w: World, w': World)
    requires WorldInv(w) && WorldInv(w')
    ensures WriteMw(w, w') ==> Follows(w.mw.pub.status, w'.mw.pub.status)
    ensures WriteBtc(w, w') ==> Follows(w.btc.pub.status, w'.btc.pub.status)
  {
    hide MwLockProgram, BtcLockProgram, Inv, AgreedSlate, MwExecProgram, BtcExecProgram, MwLock, MwExecute, BtcLock,
         BtcExecute;
    if w.deal.Some? { AgreedStatus(w); }
  }

  lemma StepStatuses(w: World, w': World)
    requires WorldInv(w) && WorldInv(w') && Step(w, w')
    ensures Follows(w.mw.pub.status, w'.mw.pub.status) && Follows(w.btc.pub.status, w'.btc.pub.status)
  {
    hide WorldInv, Step, WriteMw, WriteBtc;
    FilesChangeByWrites(w, w');
    WriteStatuses(w, w');
  }

  /** Outcome agreement over every faulty run: each party's persisted status only moves from INITIALIZED to SETUP
      and from there to FINISHED or FAILED, the two files never hold FINISHED and FAILED, and whenever both are
      past INITIALIZED they agree on every field but the status. */
  lemma OutcomeAgreement(ws: seq<World>, k: nat)
    requires History(ws) && k < |ws|
    ensures Persisted(ws[k].mw.pub.status) && Persisted(ws[k].btc.pub.status)
    ensures !(ws[k].mw.pub.status == FINISHED && ws[k].btc.pub.status == FAILED)
    ensures !(ws[k].mw.pub.status == FAILED && ws[k].btc.pub.status == FINISHED)
    ensures ws[k].mw.pub.status != INITIALIZED && ws[k].btc.pub.status != INITIALIZED ==>
              ws[k].mw.pub == ws[k].btc.pub.(status := ws[k].mw.pub.status)
    ensures k + 1 < |ws| ==> Follows(ws[k].mw.pub.status, ws[k + 1].mw.pub.status)
                             && Follows(ws[k].btc.pub.status, ws[k + 1].btc.pub.status)
  {
    hide MwLockProgram, BtcLockProgram, Inv, AgreedSlate, MwExecProgram, BtcExecProgram, Step;
    HistoryInv(ws, k);
    if ws[k].deal.Some? { AgreedStatus(ws[k]); }
    if k + 1 < |ws| {
      HistoryInv(ws, k + 1);
      StepStatuses(ws[k], ws[k + 1]);
    }
  }

  /** Once no process is left and the files differ, nothing is ever connected, published or written again: in
      particular neither party can refund. */
  lemma {:induction false} DivergenceIsPermanent(ws: seq<World>, k: nat, l: nat)
    requires History(ws) && k <= l < |ws|
    requires Free(ws[k]) && ws[k].mw.pub != ws[k].btc.pub
    ensures Free(ws[l]) && ws[l].mw == ws[k].mw && ws[l].btc == ws[k].btc && ws[l].log == ws[k].log
  {
    hide Step, Initial;
    if k < l {
      DivergenceIsPermanent(ws, k, l - 1);
      FrozenStep(ws[l - 1], ws[l]);
    }
  }

  lemma FrozenStep(w: World, w': World)
    requires Free(w) && w.mw.pub != w.btc.pub && Step(w, w')
    ensures Free(w') && w'.mw == w.mw && w'.btc == w.btc && w'.log == w.log
  {
    hide MwLockProgram, BtcLockProgram, MwExecProgram, BtcExecProgram, MwLock, MwExecute, BtcLock, BtcExecute,
         MwRefundPhase, BtcRefundPhase, BtcFund, Advance, CheckTime;
  }
}
