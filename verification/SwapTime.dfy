/** Lock heights against the heights at which execution starts, over whole runs. */
module SwapTime {
  import opened Wrappers
  import opened Curve
  import opened Tcp
  import opened SwapState
  import opened Locking
  import opened Execution
  import opened Swap
  import opened SwapSafety
  import opened SwapOrder
  import opened SwapExclusion

  /** The heights a setup was built on have been reached: as soon as they were sent, and for good once a slate
      was written. */
  ghost predicate HeightsSeen(w: World) {
    && (w.session.LockSession? ==>
          && (w.net.a.pc > 6 || (w.net.a.pc == 6 && w.net.a.mid) ==> w.session.a.height <= w.grin)
          && (w.net.b.pc > 3 || (w.net.b.pc == 3 && w.net.b.mid) ==> w.session.b.height <= w.bitcoin))
    && (w.deal.Some? && (w.mw.keys.Some? || w.btc.keys.Some?) ==>
          w.deal.value.0.height <= w.grin && w.deal.value.1.height <= w.bitcoin)
  }

  lemma NetMoves(w: World, w': World)
    requires Step(w, w')
    ensures w'.grin >= w.grin && w'.bitcoin >= w.bitcoin
    ensures || (w'.session == w.session && w'.net == w.net)
            || (w'.net.a.pc == 0 && !w'.net.a.mid && w'.net.b.pc == 0 && !w'.net.b.mid)
            || (&& w'.session == w.session && w'.net.b == w.net.b && HeightKnown(w) && w'.grin == w.grin
                && w'.net.a.pc == w.net.a.pc + (if w.net.a.mid then 1 else 0) && w'.net.a.mid == !w.net.a.mid)
            || (&& w'.session == w.session && w'.net.a == w.net.a && TimeKnown(w) && w'.bitcoin == w.bitcoin
                && w'.net.b.pc == w.net.b.pc + (if w.net.b.mid then 1 else 0) && w'.net.b.mid == !w.net.b.mid)
  {
    hide MwLockProgram, BtcLockProgram, MwExecProgram, BtcExecProgram, MwLock, MwExecute, BtcLock, BtcExecute,
         MwRefundPhase, BtcRefundPhase, BtcFund, CheckTime;
  }

  /** Whoever writes has come to the end, so both heights have been sent. */
  lemma WritersAreLate(w: World, w': World)
    requires WorldInv(w) && w.session.LockSession? && (WriteMw(w, w') || WriteBtc(w, w'))
    ensures w.net.a.pc > 6 && w.net.b.pc > 3
  {
    hide Inv, MwLine, BtcLine, MwLock, BtcLock, AgreedSlate, MwExecProgram, BtcExecProgram, FilesInv, Talk;
    EndHeard(w.net, MwLockProgram(w.session.a), BtcLockProgram(w.session.b));
  }

  lemma HeightsSeenKept(w: World, w': World)
    requires OrderInv(w) && HeightsSeen(w) && Step(w, w')
    ensures HeightsSeen(w')
  {
    hide Step, WorldInv, KeysInv, LockedFirst, Grounded;
    NetMoves(w, w');
    FilesChangeByWrites(w, w');
    DealStays(w, w');
    if WriteMw(w, w') || WriteBtc(w, w') {
      SessionOf(w);
      if w.session.LockSession? {
        WritersAreLate(w, w');
      } else {
        LaterKeys(w, w');
      }
    } else {
      assert w'.mw == w.mw && w'.btc == w.btc;
    }
  }

  lemma SessionOf(w: World)
    requires WorldInv(w)
    ensures w.session.LockSession? ==> w.deal == Some((w.session.a, w.session.b))
  {
    hide FilesInv, Talking, MwLockProgram, BtcLockProgram, MwExecProgram, BtcExecProgram;
  }

  lemma LaterKeys(w: World, w': World)
    requires !w.session.LockSession? && (WriteMw(w, w') || WriteBtc(w, w'))
    ensures w'.mw.keys == w.mw.keys && w'.btc.keys == w.btc.keys
  {
    hide MwExecute, BtcExecute;
  }

  // ---------------------------------------------------------------- short swaps

  /** Less than an hour of blocks was offered on one of the chains. */
  predicate Short(s: PubSlate) { s.mw.timelock < 60 || s.btc.timelock < 6 }

  ghost predicate NeverExecutes(w: World) {
    && (forall i :: 0 <= i < |w.log| ==> !IsExecution(w.log[i]))
    && (w.session.ExecSession? ==>
          var (x, y) := (w.session.x, w.session.y);
          CheckTime(x.slate.pub, x.grin, x.btc).Err? && CheckTime(y.slate.pub, y.grin, y.btc).Err?)
  }

  /** On a short swap the time check fails at every height reached since the setup. */
  lemma ShortFails(w: World)
    requires WorldInv(w) && HeightsSeen(w) && Short(w.start) && w.mw.keys.Some?
    ensures CheckTime(w.mw.keys.value.pub, w.grin, w.bitcoin).Err?
  {
    hide PointOf, MwLockProgram, BtcLockProgram, MwExecProgram, BtcExecProgram, Inv;
  }

  lemma ConnectNever(w: World, w': World)
    requires OrderInv(w) && HeightsSeen(w) && Short(w.start) && NeverExecutes(w) && Connect(w, w')
    ensures NeverExecutes(w')
  {
    hide OrderInv, WorldInv, MwLockProgram, BtcLockProgram, MwExecProgram, BtcExecProgram, Init, CheckTime, HeightsSeen,
         Short;
    if w.mw.keys.Some? && w.btc.keys.Some? {
      assert WorldInv(w) by { Ordered(w); }
      ShortFails(w);
      SamePub(w);
      if x, y :| ConnectExecute(w, w', x, y) {
        TimeRunsOut(w.mw.keys.value.pub, w.grin, w.bitcoin, x.grin, x.btc);
        TimeRunsOut(w.mw.keys.value.pub, w.grin, w.bitcoin, y.grin, y.btc);
      }
    }
  }

  lemma PublishNever(w: World, w': World)
    requires WorldInv(w) && NeverExecutes(w) && Publish(w, w')
    ensures NeverExecutes(w')
  {
    hide Inv, MwExecute, BtcExecute, CheckTime, AgreedSlate, MwLockProgram, BtcLockProgram, MwExecProgram,
         BtcExecProgram, MwLock, MwRefundPhase, BtcRefundPhase;
    if w.session.ExecSession? {
      SamePub(w);
      ExecuteNeedsTime(w.session.x.(sent := true), w.session.y.(pushed := true), w.net.a.inbox, w.net.b.inbox);
    }
  }

  lemma QuietNever(w: World, w': World)
    requires NeverExecutes(w) && Step(w, w') && !Publish(w, w') && !Connect(w, w')
    ensures NeverExecutes(w')
  {
    hide Publish, Connect, BtcFund, Advance, CheckTime, MwLock, BtcLock, MwExecute, BtcExecute;
  }

  lemma {:induction false} HistoryTime(ws: seq<World>, k: nat)
    requires History(ws) && k < |ws|
    ensures HeightsSeen(ws[k]) && ws[k].start == ws[0].start
    ensures Short(ws[0].start) ==> NeverExecutes(ws[k])
  {
    hide WorldInv, Step, OrderInv, Publish, Connect, SessionTime, RefundsLast, HeightsInv;
    if k > 0 {
      HistoryTime(ws, k - 1);
      HistoryExclusion(ws, k - 1);
      var w, w' := ws[k - 1], ws[k];
      assert Step(w, w');
      HeightsSeenKept(w, w');
      SameStart(w, w');
      Ordered(w);
      if Short(ws[0].start) {
        if Publish(w, w') {
          PublishNever(w, w');
        } else if Connect(w, w') {
          ConnectNever(w, w');
        } else {
          QuietNever(w, w');
        }
      }
    }
  }

  lemma SameStart(w: World, w': World)
    requires Step(w, w')
    ensures w'.start == w.start
  {
    hide MwLockProgram, BtcLockProgram, MwExecProgram, BtcExecProgram, MwLock, MwExecute, BtcLock, BtcExecute, Init,
         MwRefundPhase, BtcRefundPhase, BtcFund, Advance, CheckTime;
  }

  /** A swap initialised with under sixty minutes is never executed, in any run: no execution starts, and neither a
      contract nor a redeem is ever published. */
  lemma ShortSwapNeverExecutes(ws: seq<World>, k: nat, from: Currency, to: Currency, a: nat, b: nat, minutes: nat,
                               meta: Meta)
    requires History(ws) && k < |ws| && minutes < 60
    requires InitSlate(from, to, a, b, minutes, meta) == Some(ws[0].start)
    ensures forall i :: 0 <= i < |ws[k].log| ==> !IsExecution(ws[k].log[i])
  {
    hide Step, Initial;
    HistoryTime(ws, k);
  }
}
