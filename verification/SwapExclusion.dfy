/** Execution and refund exclude each other over whole runs. */
module SwapExclusion {
  import opened Endpoints
  import opened Tcp
  import opened SwapState
  import opened Locking
  import opened Execution
  import opened Swap
  import opened SwapSafety
  import opened SwapOrder

  predicate IsRefund(ev: Event) { ev.GrinRefunded? || ev.BitcoinRefunded? }

  predicate IsExecution(ev: Event) { ev.ExecStarted? || ev.Contracted? || ev.Redeemed? }

  ghost predicate Refunding(w: World) { exists i :: 0 <= i < |w.log| && IsRefund(w.log[i]) }

  ghost predicate HeightsInv(w: World) {
    forall i :: 0 <= i < |w.log| && IsRefund(w.log[i]) ==> w.log[i].grin <= w.grin && w.log[i].bitcoin <= w.bitcoin
  }

  /** Once a refund is out, either side of an execution session finds too little time; a file is finished only by a
      side that found enough. */
  ghost predicate SessionTime(w: World) {
    w.session.ExecSession? ==>
      var (x, y) := (w.session.x, w.session.y);
      && (Refunding(w) ==> CheckTime(x.slate.pub, x.grin, x.btc).Err? && CheckTime(y.slate.pub, y.grin, y.btc).Err?)
      && (w.mw.pub.status == FINISHED ==> CheckTime(x.slate.pub, x.grin, x.btc).Ok?)
      && (w.btc.pub.status == FINISHED ==> CheckTime(y.slate.pub, y.grin, y.btc).Ok?)
  }

  ghost predicate RefundsLast(log: seq<Event>) {
    forall i, j :: 0 <= i < j < |log| && IsRefund(log[i]) ==> !IsExecution(log[j])
  }

  ghost predicate ExclusionInv(w: World) { OrderInv(w) && HeightsInv(w) && SessionTime(w) && RefundsLast(w.log) }

  // ---------------------------------------------------------------- the checks against each other

  lemma ChecksExclude(s: PubSlate, grin: nat, bitcoin: nat, grin': nat, bitcoin': nat)
    requires CheckRefund(s, grin, bitcoin).Ok? && CheckTime(s, grin', bitcoin').Ok?
    ensures grin >= grin' + 61 && bitcoin >= bitcoin' + 7
  {
  }

  /** Time that has run out does not come back at greater heights. */
  lemma TimeRunsOut(s: PubSlate, grin: nat, bitcoin: nat, grin': nat, bitcoin': nat)
    requires CheckTime(s, grin, bitcoin).Err? && grin <= grin' && bitcoin <= bitcoin'
    ensures CheckTime(s, grin', bitcoin').Err?
  {
  }

  /** The keys of both parties carry the same public slate. */
  lemma SamePub(w: World)
    requires WorldInv(w) && w.mw.keys.Some? && w.btc.keys.Some?
    ensures w.mw.keys.value.pub == w.btc.keys.value.pub
    ensures w.session.ExecSession? ==> w.session.x.slate.pub == w.session.y.slate.pub == w.mw.keys.value.pub
  {
    hide MwLockProgram, BtcLockProgram, MwExecProgram, BtcExecProgram, Inv, AgreedSlate;
    if w.deal.Some? { AgreedStatus(w); }
  }

  /** Whatever refund is in the log, the time check at the current heights fails. */
  lemma TooLate(w: World, i: nat)
    requires OrderInv(w) && HeightsInv(w) && i < |w.log| && IsRefund(w.log[i])
    ensures w.mw.keys.Some? && w.btc.keys.Some?
    ensures CheckTime(w.mw.keys.value.pub, w.grin, w.bitcoin).Err?
  {
    hide WorldInv, KeysInv, LockedFirst, CheckTime, CheckRefund;
    assert Grounded(w, w.log[i], w.log[..i]);
    SamePub(w);
    if CheckTime(w.mw.keys.value.pub, w.grin, w.bitcoin).Ok? {
      ChecksExclude(w.mw.keys.value.pub, w.log[i].grin, w.log[i].bitcoin, w.grin, w.bitcoin);
    }
  }

  lemma ExecuteNeedsTime(x: MwExec, y: BtcExec, ha: seq<Msg>, hb: seq<Msg>)
    ensures MwExecute(x, ha).Ok? ==> CheckTime(x.slate.pub, x.grin, x.btc).Ok?
    ensures BtcExecute(y, hb).Ok? ==> CheckTime(y.slate.pub, y.grin, y.btc).Ok?
  {
    hide CheckTime, ContractRespond, ContractFinish, RedeemTx, ContractSign, ContractRead;
  }

  // ---------------------------------------------------------------- every step keeps the exclusion

  ghost predicate Times(w: World) { HeightsInv(w) && SessionTime(w) && RefundsLast(w.log) }

  lemma QuietTimes(w: World, w': World)
    requires ExclusionInv(w) && Step(w, w')
    requires !Publish(w, w') && !WriteMw(w, w') && !WriteBtc(w, w') && !Connect(w, w') && !BeginMw(w, w')
        && !BeginBtc(w, w')
    ensures Times(w')
  {
    hide OrderInv, Publish, WriteMw, WriteBtc, Connect, BeginMw, BeginBtc, BtcFund, Advance, CheckTime;
  }

  lemma ConnectTimes(w: World, w': World)
    requires ExclusionInv(w) && Connect(w, w')
    ensures Times(w')
  {
    hide OrderInv, MwLockProgram, BtcLockProgram, MwExecProgram, BtcExecProgram, Init, CheckTime;
    if i :| 0 <= i < |w.log| && IsRefund(w.log[i]) {
      TooLate(w, i);
      SamePub(w) by { Ordered(w); }
      if x, y :| ConnectExecute(w, w', x, y) {
        TimeRunsOut(w.mw.keys.value.pub, w.grin, w.bitcoin, x.grin, x.btc);
        TimeRunsOut(w.mw.keys.value.pub, w.grin, w.bitcoin, y.grin, y.btc);
      }
    }
  }

  lemma Ordered(w: World)
    requires OrderInv(w)
    ensures WorldInv(w)
  {
  }

  /** A side that begins after a refund finds no time, so it starts nothing. */
  lemma BeginTimes(w: World, w': World)
    requires ExclusionInv(w) && (BeginMw(w, w') || BeginBtc(w, w'))
    ensures Times(w')
  {
    hide OrderInv, CheckTime;
  }

  lemma WriteTimes(w: World, w': World)
    requires ExclusionInv(w) && WorldInv(w) && (WriteMw(w, w') || WriteBtc(w, w'))
    ensures Times(w')
  {
    hide OrderInv, Inv, MwLock, BtcLock, MwExecute, BtcExecute, CheckTime, AgreedSlate, MwLockProgram, BtcLockProgram,
         MwExecProgram, BtcExecProgram;
    if w.session.ExecSession? {
      SamePub(w);
      ExecuteNeedsTime(w.session.x, w.session.y, w.net.a.inbox, w.net.b.inbox);
    }
  }

  lemma ExecutePublishTimes(w: World, w': World)
    requires ExclusionInv(w) && WorldInv(w) && (PublishRedeem(w, w') || PublishContract(w, w'))
    ensures Times(w')
  {
    hide OrderInv, Inv, MwExecute, BtcExecute, CheckTime, AgreedSlate, MwLockProgram, BtcLockProgram, MwExecProgram,
         BtcExecProgram;
    SamePub(w);
    ExecuteNeedsTime(w.session.x.(sent := true), w.session.y.(pushed := true), w.net.a.inbox, w.net.b.inbox);
    assert !Refunding(w);
  }

  lemma OtherPublishTimes(w: World, w': World)
    requires ExclusionInv(w) && Publish(w, w') && !PublishRedeem(w, w') && !PublishContract(w, w')
    ensures Times(w')
  {
    hide OrderInv, PublishRedeem, PublishContract, MwLock, MwRefundPhase, BtcRefundPhase;
  }

  lemma ExclusionKept(w: World, w': World)
    requires ExclusionInv(w) && Step(w, w')
    ensures ExclusionInv(w')
  {
    hide Step, Publish, WriteMw, WriteBtc, Connect, BeginMw, BeginBtc, HeightsInv, SessionTime, RefundsLast, WorldInv,
         KeysInv, LockedFirst, Grounded, PublishRedeem, PublishContract;
    OrderKept(w, w');
    if Publish(w, w') {
      if PublishRedeem(w, w') || PublishContract(w, w') {
        ExecutePublishTimes(w, w');
      } else {
        OtherPublishTimes(w, w');
      }
    } else if WriteMw(w, w') || WriteBtc(w, w') {
      WriteTimes(w, w');
    } else if Connect(w, w') {
      ConnectTimes(w, w');
    } else if BeginMw(w, w') || BeginBtc(w, w') {
      BeginTimes(w, w');
    } else {
      QuietTimes(w, w');
    }
  }

  lemma {:induction false} HistoryExclusion(ws: seq<World>, k: nat)
    requires History(ws) && k < |ws|
    ensures ExclusionInv(ws[k])
  {
    hide WorldInv, Step, KeysInv, LockedFirst;
    if k == 0 {
      HistoryOrder(ws, 0);
    } else {
      HistoryExclusion(ws, k - 1);
      ExclusionKept(ws[k - 1], ws[k]);
    }
  }

  /** Timing exclusion over every run. A refund is published at heights at least 61 Grin and 7 Bitcoin blocks past
      those of any execution; after a refund nothing of an execution is ever started or published again; and a
      party whose file says FINISHED can be sure that neither side has published a refund. */
  lemma ExecutionExcludesRefund(ws: seq<World>, k: nat)
    requires History(ws) && k < |ws|
    ensures var log := ws[k].log;
            forall i, j :: 0 <= i < |log| && 0 <= j < |log| && log[i].ExecStarted? && IsRefund(log[j]) ==>
              log[j].grin >= log[i].grin + 61 && log[j].bitcoin >= log[i].bitcoin + 7
    ensures RefundsLast(ws[k].log)
    ensures ws[k].mw.pub.status == FINISHED || ws[k].btc.pub.status == FINISHED ==> !Refunding(ws[k])
  {
    hide Step, Initial, KeysInv, LockedFirst, CheckTime, CheckRefund, WorldInv;
    var w := ws[k];
    HistoryExclusion(ws, k);
    forall i, j | 0 <= i < |w.log| && 0 <= j < |w.log| && w.log[i].ExecStarted? && IsRefund(w.log[j])
      ensures w.log[j].grin >= w.log[i].grin + 61 && w.log[j].bitcoin >= w.log[i].bitcoin + 7
    {
      assert Grounded(w, w.log[i], w.log[..i]) && Grounded(w, w.log[j], w.log[..j]);
      SamePub(w);
      ChecksExclude(w.mw.keys.value.pub, w.log[j].grin, w.log[j].bitcoin, w.log[i].grin, w.log[i].bitcoin);
    }
    if w.mw.pub.status == FINISHED || w.btc.pub.status == FINISHED {
      FinishedIsExecuted(w);
    }
  }

  lemma FinishedIsExecuted(w: World)
    requires WorldInv(w) && (w.mw.pub.status == FINISHED || w.btc.pub.status == FINISHED)
    ensures w.session.ExecSession?
  {
    hide MwLockProgram, BtcLockProgram, MwExecProgram, BtcExecProgram, Inv, AgreedSlate;
    if w.deal.Some? { AgreedStatus(w); }
  }
}
