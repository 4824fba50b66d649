/** What must have happened before anything is published, in every run of the swap. */
module SwapOrder {
  import opened Wrappers
  import opened Curve
  import opened Endpoints
  import opened Bitcoin
  import opened Tcp
  import opened SwapState
  import opened Locking
  import opened Execution
  import opened Swap
  import opened SwapSafety

  // ---------------------------------------------------------------- what the events rest on

  /** The keys on disk are the results of the latest setup conversation. */
  ghost predicate KeysInv(w: World) {
    w.deal.Some? ==>
      var (a, b) := w.deal.value;
      && (w.mw.keys.Some? ==> MwLock(a, LockTalk(a, b).0) == Ok(w.mw.keys.value))
      && (w.btc.keys.Some? ==> BtcLock(b, LockTalk(a, b).1) == Ok(w.btc.keys.value))
  }

  /** Bob's lock transaction is published before he says so. */
  ghost predicate LockedFirst(w: World) {
    w.session.LockSession? ==>
      var (a, b) := (w.session.a, w.session.b);
      var f := BtcFund(b, LockTalk(a, b).1);
      f.Ok? && (w.net.b.pc > 4 || (w.net.b.pc == 4 && w.net.b.mid)) ==> BitcoinLocked(b, f.value.tx) in w.log
  }

  ghost function ExecTalk(x: MwExec, y: BtcExec): (seq<Msg>, seq<Msg>) {
    if Dual(MwExecProgram(x), BtcExecProgram(y)) then Talk(MwExecProgram(x), BtcExecProgram(y),
                                                           |MwExecProgram(x)|) else ([], [])
  }

  ghost predicate ExecKeys(w: World, x: MwExec, y: BtcExec) {
    w.mw.keys == Some(x.slate) && w.btc.keys == Some(y.slate) && x.env == y.env == w.env && x.e == y.e == w.e
  }

  /** What an event of the log rests on, given the events before it. */
  ghost predicate Grounded(w: World, ev: Event, before: seq<Event>) {
    match ev
    case BitcoinLocked(_, _) => true
    case GrinFunded(a, b, m) =>
      && Paired(a, b) && MwLock(a.(pushed := true), LockTalk(a, b).0) == Ok(m)
      && (BtcFund(b, LockTalk(a, b).1).Ok? ==> BitcoinLocked(b, BtcFund(b, LockTalk(a, b).1).value.tx) in before)
    case ExecStarted(_, grin, bitcoin) =>
      w.mw.keys.Some? && w.btc.keys.Some? && CheckTime(w.mw.keys.value.pub, grin, bitcoin).Ok?
    case Contracted(x, y, tx, payout, has) =>
      && ExecKeys(w, x, y) && has == ExecTalk(x, y).0
      && BtcExecute(y.(pushed := true), ExecTalk(x, y).1).Ok?
      && BtcExecute(y.(pushed := true), ExecTalk(x, y).1).value.contract == tx
      && BtcExecute(y.(pushed := true), ExecTalk(x, y).1).value.swapped == payout
    case Redeemed(x, y, tx, coin) =>
      && ExecKeys(w, x, y)
      && MwExecute(x.(sent := true), ExecTalk(x, y).0).Ok?
      && MwExecute(x.(sent := true), ExecTalk(x, y).0).value.redeem == tx
      && MwExecute(x.(sent := true), ExecTalk(x, y).0).value.swapped == coin
    case GrinRefunded(grin, bitcoin, tx) =>
      && w.mw.keys.Some? && w.btc.keys.Some? && CheckRefund(w.mw.keys.value.pub, grin, bitcoin).Ok?
      && tx == w.mw.keys.value.refundTx
    case BitcoinRefunded(grin, bitcoin, sk2, tx, coin) =>
      && w.mw.keys.Some? && w.btc.keys.Some? && CheckRefund(w.btc.keys.value.pub, grin, bitcoin).Ok?
      && BtcRefundPhase(BtcRefunder(w.e, w.btc.keys.value, sk2, grin, bitcoin, true)).Ok?
      && BtcRefundPhase(BtcRefunder(w.e, w.btc.keys.value, sk2, grin, bitcoin, true)).value.tx == tx
      && BtcRefundPhase(BtcRefunder(w.e, w.btc.keys.value, sk2, grin, bitcoin, true)).value.coin == coin
  }

  ghost predicate OrderInv(w: World) {
    && WorldInv(w) && KeysInv(w) && LockedFirst(w)
    && forall i :: 0 <= i < |w.log| ==> Grounded(w, w.log[i], w.log[..i])
  }

  // ---------------------------------------------------------------- stability

  /** Only a new setup session changes the deal, and it needs both files at the start. */
  lemma DealChanges(w: World, w': World)
    requires Step(w, w')
    ensures w'.deal == w.deal || (w.mw.pub.status == INITIALIZED && w.btc.pub.status == INITIALIZED)
    ensures w'.env == w.env && w'.e == w.e
  {
    hide MwLockProgram, BtcLockProgram, MwExecProgram, BtcExecProgram, MwLock, MwExecute, BtcLock, BtcExecute, Init,
         MwRefundPhase, BtcRefundPhase, BtcFund, Advance, CheckTime;
  }

  lemma NoKeysAtStart(w: World)
    requires WorldInv(w) && w.mw.pub.status == INITIALIZED && w.btc.pub.status == INITIALIZED
    ensures w.mw.keys.None? && w.btc.keys.None?
  {
    hide MwLockProgram, BtcLockProgram, MwExecProgram, BtcExecProgram, Talking, AgreedSlate;
    if w.deal.Some? { AgreedStatus(w); }
  }

  lemma DealStays(w: World, w': World)
    requires WorldInv(w) && Step(w, w')
    ensures w'.deal == w.deal || (w.mw.keys.None? && w.btc.keys.None?)
    ensures w'.env == w.env && w'.e == w.e
  {
    hide WorldInv, Step;
    DealChanges(w, w');
    if w'.deal != w.deal {
      NoKeysAtStart(w);
    }
  }

  lemma WritesKeepKeys(w: World, w': World)
    requires WorldInv(w)
    ensures WriteMw(w, w') && w.mw.keys.Some? ==> w'.mw.keys == w.mw.keys
    ensures WriteBtc(w, w') && w.btc.keys.Some? ==> w'.btc.keys == w.btc.keys
  {
    hide MwLockProgram, BtcLockProgram, MwExecProgram, BtcExecProgram, MwLock, MwExecute, BtcLock, BtcExecute, Talking,
         AgreedSlate;
    if w.deal.Some? { AgreedStatus(w); }
  }

  /** Keys, once written, stay; and the setup they came from is the last one. */
  lemma KeysStay(w: World, w': World)
    requires WorldInv(w) && Step(w, w')
    ensures w.mw.keys.Some? ==> w'.mw.keys == w.mw.keys && w'.deal == w.deal
    ensures w.btc.keys.Some? ==> w'.btc.keys == w.btc.keys && w'.deal == w.deal
    ensures w'.env == w.env && w'.e == w.e
  {
    hide WorldInv, Step, WriteMw, WriteBtc;
    FilesChangeByWrites(w, w');
    WritesKeepKeys(w, w');
    DealStays(w, w');
  }

  lemma LogGrows(w: World, w': World)
    requires Step(w, w')
    ensures w.log <= w'.log
    ensures |w'.log| <= |w.log| + 1
  {
    hide MwLockProgram, BtcLockProgram, MwExecProgram, BtcExecProgram, MwLock, MwExecute, BtcLock, BtcExecute, Init,
         MwRefundPhase, BtcRefundPhase, BtcFund, Advance, CheckTime;
  }

  lemma GroundedStays(w: World, w': World, ev: Event, before: seq<Event>)
    requires WorldInv(w) && Step(w, w') && Grounded(w, ev, before)
    ensures Grounded(w', ev, before)
  {
    hide WorldInv, Step, MwLock, MwExecute, BtcExecute, BtcFund, LockTalk, ExecTalk, CheckTime, CheckRefund,
         BtcRefundPhase;
    KeysStay(w, w');
  }

  lemma LockEnds(a: MwSide, b: BtcSide, net: Net<Msg>)
    requires Dual(MwLockProgram(a), BtcLockProgram(b)) && Inv(net, MwLockProgram(a), BtcLockProgram(b))
    ensures Done(net.a) ==> net.a.inbox == LockTalk(a, b).0
    ensures Done(net.b) ==> net.b.inbox == LockTalk(a, b).1
    ensures Done(net.a) ==> net.b.pc > 4
  {
    hide Inv, Talk, MwLine, BtcLine;
    EndHeard(net, MwLockProgram(a), BtcLockProgram(b));
  }

  lemma ExecEnds(x: MwExec, y: BtcExec, net: Net<Msg>)
    requires Dual(MwExecProgram(x), BtcExecProgram(y)) && Inv(net, MwExecProgram(x), BtcExecProgram(y))
    ensures Done(net.a) ==> net.a.inbox == ExecTalk(x, y).0
    ensures Done(net.b) ==> net.b.inbox == ExecTalk(x, y).1 && net.a.inbox == ExecTalk(x, y).0
  {
    hide Inv, Talk, MwExecLine, BtcExecLine;
    EndHeard(net, MwExecProgram(x), BtcExecProgram(y));
  }

  lemma KeysInvKept(w: World, w': World)
    requires WorldInv(w) && KeysInv(w) && Step(w, w')
    ensures KeysInv(w')
  {
    hide Step, MwLockProgram, BtcLockProgram, MwExecProgram, BtcExecProgram, MwLock, MwExecute, BtcLock, BtcExecute,
         LockTalk, Inv, AgreedSlate;
    FilesChangeByWrites(w, w');
    DealStays(w, w');
    if w.session.LockSession? {
      LockEnds(w.session.a, w.session.b, w.net);
    }
  }

  /** What Bob knows when he is about to send the address: exactly Alice's key. */
  lemma KnownAtLock(a: MwSide, b: BtcSide, net: Net<Msg>)
    requires Dual(MwLockProgram(a), BtcLockProgram(b)) && Inv(net, MwLockProgram(a), BtcLockProgram(b))
    requires net.b.pc == 4 && !net.b.mid
    ensures BtcFund(b, net.b.inbox) == BtcFund(b, LockTalk(a, b).1)
  {
    hide Inv, Talk, MwLine, BtcLine, BtcFund, Heard;
    var p, q := MwLockProgram(a), BtcLockProgram(b);
    HeardSoFar(net, p, q);
    LockHeard(a);
    TalkLengths(p, q, 4);
    TalkExtends(p, q, 4, |p|);
    assert net.b.inbox == LockTalk(a, b).1[..1];
    FundPrefix(b, LockTalk(a, b).1, 1);
  }

  lemma LockedFirstKept(w: World, w': World)
    requires WorldInv(w) && LockedFirst(w) && Step(w, w')
    ensures LockedFirst(w')
  {
    hide Step, WorldInv, MwLockProgram, BtcLockProgram, BtcFund, LockTalk, Inv;
    LogGrows(w, w');
    NetStep(w, w');
    if w'.session.LockSession? && w'.session == w.session && w'.net != w.net {
      var a, b := w.session.a, w.session.b;
      if w.net.b.pc == 4 && !w.net.b.mid {
        assert Talking(w, MwLockProgram(a), BtcLockProgram(b)) by { SessionTalks(w); }
        KnownAtLock(a, b, w.net);
      }
    }
  }

  lemma SessionTalks(w: World)
    requires WorldInv(w) && w.session.LockSession?
    ensures Talking(w, MwLockProgram(w.session.a), BtcLockProgram(w.session.b))
  {
    hide Talking, FilesInv, MwLockProgram, BtcLockProgram, MwExecProgram, BtcExecProgram;
  }

  /** How the lines and the log can change together. */
  lemma NetStep(w: World, w': World)
    requires Step(w, w')
    ensures || (w'.session == w.session && w'.net == w.net)
            || (w'.session == w.session && w'.net.b == w.net.b)
            || (w'.net.b.pc == 0 && !w'.net.b.mid)
            || (&& w'.session == w.session
                && w'.net.b.pc == w.net.b.pc + (if w.net.b.mid then 1 else 0) && w'.net.b.mid == !w.net.b.mid
                && (LocksNow(w) ==> BitcoinLocked(w.session.b, BtcFund(w.session.b, w.net.b.inbox).value.tx) in w'.log))
  {
    hide MwLockProgram, BtcLockProgram, MwExecProgram, BtcExecProgram, MwLock, MwExecute, BtcLock, BtcExecute,
         MwRefundPhase, BtcRefundPhase, BtcFund, CheckTime;
  }

  /** The log is extended by one event, which rests on what it should. */
  ghost predicate Appended(w: World, w': World) {
    |w'.log| == |w.log| + 1 && w'.log[..|w.log|] == w.log && Grounded(w', w'.log[|w.log|], w.log)
  }

  lemma FundingGrounded(w: World, w': World)
    requires WorldInv(w) && LockedFirst(w) && PublishFunding(w, w')
    ensures Appended(w, w')
  {
    hide MwLockProgram, BtcLockProgram, MwLock, LockTalk, Inv, FilesInv, BtcFund, Agreed;
    LockEnds(w.session.a, w.session.b, w.net);
  }

  lemma ExecGrounded(w: World, w': World)
    requires WorldInv(w) && (PublishRedeem(w, w') || PublishContract(w, w'))
    ensures Appended(w, w')
  {
    hide MwExecProgram, BtcExecProgram, MwExecute, BtcExecute, ExecTalk, Inv, FilesInv, Agreed;
    ExecEnds(w.session.x, w.session.y, w.net);
  }

  lemma GrinRefundGrounded(w: World, w': World, reported: bool, grin: nat, bitcoin: nat)
    requires WorldInv(w) && PublishGrinRefund(w, w', reported, grin, bitcoin)
    ensures Appended(w, w')
  {
    hide CheckRefund, AgreedSlate;
    AgreedStatus(w);
  }

  lemma BitcoinRefundGrounded(w: World, w': World, reported: bool, grin: nat, bitcoin: nat, sk2: int)
    requires WorldInv(w) && PublishBitcoinRefund(w, w', reported, grin, bitcoin, sk2)
    ensures Appended(w, w')
  {
    hide CheckRefund, AgreedSlate, SpendLockTx, LockProgram, RefundData, WithScript, PointOf;
    AgreedStatus(w);
  }

  lemma PublishGrounded(w: World, w': World)
    requires WorldInv(w) && LockedFirst(w) && Publish(w, w')
    ensures Appended(w, w')
  {
    hide WorldInv, LockedFirst, Appended, PublishFunding, PublishRedeem, PublishContract, PublishGrinRefund,
         PublishBitcoinRefund;
    if PublishFunding(w, w') {
      FundingGrounded(w, w');
    } else if PublishRedeem(w, w') || PublishContract(w, w') {
      ExecGrounded(w, w');
    } else if reported, grin, bitcoin :| PublishGrinRefund(w, w', reported, grin, bitcoin) {
      GrinRefundGrounded(w, w', reported, grin, bitcoin);
    } else {
      var reported, grin, bitcoin, sk2 :| PublishBitcoinRefund(w, w', reported, grin, bitcoin, sk2);
      BitcoinRefundGrounded(w, w', reported, grin, bitcoin, sk2);
    }
  }

  /** The other steps that add to the log. */
  lemma OtherGrounded(w: World, w': World)
    requires WorldInv(w) && Step(w, w') && !Publish(w, w')
    ensures w'.log == w.log || Appended(w, w')
  {
    hide Publish, MwLockProgram, BtcLockProgram, MwExecProgram, BtcExecProgram, MwLock, MwExecute, BtcLock, BtcExecute,
         Talking, AgreedSlate,
         BtcFund, Advance, CheckTime, Init;
    if w.deal.Some? { AgreedStatus(w); }
  }

  lemma OrderKept(w: World, w': World)
    requires OrderInv(w) && Step(w, w')
    ensures OrderInv(w')
  {
    hide WorldInv, KeysInv, LockedFirst, Grounded, Step, Publish;
    StepKeeps(w, w');
    KeysInvKept(w, w');
    LockedFirstKept(w, w');
    if Publish(w, w') {
      PublishGrounded(w, w');
    } else {
      OtherGrounded(w, w');
    }
    forall i | 0 <= i < |w'.log| ensures Grounded(w', w'.log[i], w'.log[..i]) {
      if i < |w.log| {
        LogGrows(w, w');
        GroundedStays(w, w', w.log[i], w.log[..i]);
        assert w'.log[..i] == w.log[..i];
      }
    }
  }

  lemma {:induction false} HistoryOrder(ws: seq<World>, k: nat)
    requires History(ws) && k < |ws|
    ensures OrderInv(ws[k])
  {
    hide WorldInv, Step;
    if k == 0 {
      InitialInv(ws[0]);
    } else {
      HistoryOrder(ws, k - 1);
      OrderKept(ws[k - 1], ws[k]);
    }
  }
}
