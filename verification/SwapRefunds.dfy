/** Exactly from which states each party can still publish its refund. */
module SwapRefunds {
  import opened Wrappers
  import opened Curve
  import opened Bitcoin
  import opened Tcp
  import opened SwapState
  import opened Locking
  import opened Execution
  import opened Swap
  import opened SwapSafety
  import opened SwapOrder
  import opened SwapExclusion
  import opened SwapRuns

  // ---------------------------------------------------------------- the question

  predicate RefundOf(ev: Event, p: Party) { if p.Mw? then ev.GrinRefunded? else ev.BitcoinRefunded? }

  ghost predicate RefundSince(log: seq<Event>, from: nat, p: Party) {
    exists i :: from <= i < |log| && RefundOf(log[i], p)
  }

  /** A run that goes on from this one and publishes this party's refund on the way. */
  ghost predicate Publishes(ws: seq<World>, vs: seq<World>, p: Party) {
    |ws| > 0 && History(vs) && ws <= vs && RefundSince(vs[|vs| - 1].log, |ws[|ws| - 1].log|, p)
  }

  ghost predicate CanPublish(ws: seq<World>, p: Party) { exists vs :: Publishes(ws, vs, p) }

  /** The same for a refund checked at these very heights. */
  ghost predicate PublishesAt(ws: seq<World>, vs: seq<World>, p: Party, grin: nat, bitcoin: nat) {
    && Publishes(ws, vs, p)
    && var log := vs[|vs| - 1].log;
       exists i :: |ws[|ws| - 1].log| <= i < |log| && RefundOf(log[i], p) && log[i].grin == grin
                   && log[i].bitcoin == bitcoin
  }

  ghost predicate CanPublishAt(ws: seq<World>, p: Party, grin: nat, bitcoin: nat) {
    exists vs :: PublishesAt(ws, vs, p, grin, bitcoin)
  }

  // ---------------------------------------------------------------- the answer

  function LifeOf(w: World, p: Party): Life { if p.Mw? then w.mwLife else w.btcLife }

  /** Both files say SETUP, so that a cancellation can be started; or one has been, and this party's process is
      still at it. */
  ghost predicate RefundOpen(w: World, p: Party) {
    || (w.mw.pub.status == SETUP && w.btc.pub.status == SETUP)
    || (w.session.RefundSession? && LifeOf(w, p).Alive?)
  }

  /** Bob's refund can be built at all: the amount covers the fee and the lock time fits a transaction. */
  ghost predicate Buildable(w: World, p: Party) {
    p.Btc? ==>
      && w.deal.Some? && w.start.btc.amount >= 500
      && w.deal.value.1.height + w.deal.value.1.start.btc.timelock < 0x1_0000_0000
  }

  ghost predicate PastSetup(w: World) { w.mw.keys.Some? && w.btc.keys.Some? }

  // ---------------------------------------------------------------- building the refund

  /** The keys Bob wrote hold what his refund needs. */
  lemma BtcKeys(w: World)
    requires OrderInv(w) && PastSetup(w)
    ensures w.deal.Some?
    ensures var n, (a, b) := w.btc.keys.value, w.deal.value;
            && n.pub == AgreedSlate(a, b) && n.lock.value == w.start.btc.amount && a.start == w.start
  {
    hide MwLock, BtcLock, LockTalk, LockTalked, MwVerify, BtcHear, BtcFund, BtcTime, BtcShare, SessionInv, LockedFirst,
         Grounded,
         FundCondition, VerifyCondition, LockScriptOf, PointOf;
    var (a, b) := w.deal.value;
    LockConversation(a, b);
    var ha, hb := LockTalk(a, b).0, LockTalk(a, b).1;
    VerifyStage(a, b, ha, hb);
    BtcParts(a, b, ha, hb);
  }

  lemma MwKeys(w: World)
    requires WorldInv(w) && PastSetup(w)
    ensures w.deal.Some? && w.mw.keys.value.pub == AgreedSlate(w.deal.value.0, w.deal.value.1)
  {
    hide MwLockProgram, BtcLockProgram, MwExecProgram, BtcExecProgram, Talking, AgreedSlate;
    if w.deal.Some? { AgreedStatus(w); }
  }

  /** The two refund phases on an agreed slate. */
  lemma RefundPhases(a: MwSide, b: BtcSide, m: MwLocked, c: BtcRefunder)
    requires m.pub == c.slate.pub == AgreedSlate(a, b) && c.slate.lock.value == a.start.btc.amount
    ensures MwRefundPhase(m, c.grin, c.btc, true).Ok? <==> LocksOver(a, b, c.grin, c.btc)
    ensures BtcRefundPhase(c).Ok? <==>
              (&& LocksOver(a, b, c.grin, c.btc)
               && b.height + b.start.btc.timelock < 0x1_0000_0000 && a.start.btc.amount >= 500 && c.sent)
  {
    hide PointOf, LockProgram, RefundData, CheckRefund, LocksOver;
    ChecksExact(a, b, c.grin, c.btc);
  }

  lemma PhasesOf(w: World, grin: nat, bitcoin: nat, sk2: int)
    requires OrderInv(w) && PastSetup(w)
    ensures w.deal.Some?
    ensures var (a, b) := w.deal.value;
            var r := BtcRefundPhase(BtcRefunder(w.e, w.btc.keys.value, sk2, grin, bitcoin, true));
            && (MwRefundPhase(w.mw.keys.value, grin, bitcoin, true).Ok? <==> LocksOver(a, b, grin, bitcoin))
            && (r.Ok? <==> LocksOver(a, b, grin, bitcoin) && Buildable(w, Btc))
  {
    hide OrderInv, MwRefundPhase, BtcRefundPhase, AgreedSlate, LocksOver;
    Ordered(w);
    MwKeys(w);
    BtcKeys(w);
    var (a, b) := w.deal.value;
    RefundPhases(a, b, w.mw.keys.value, BtcRefunder(w.e, w.btc.keys.value, sk2, grin, bitcoin, true));
  }

  // ---------------------------------------------------------------- from an open state

  lemma CancelIsStep(w: World, w': World)
    requires ConnectCancel(w, w')
    ensures Step(w, w')
  {
    hide ConnectExecute, ConnectLock, ConnectCancel, BeginMw, BeginBtc, MoveMw, MoveBtc, LockThenStop, Publish, WriteMw,
         WriteBtc;
  }

  /** The cancellation is under way, this party's process is at work, and these heights have been reached. */
  lemma Cancelling(ws: seq<World>, p: Party, grin: nat, bitcoin: nat) returns (vs: seq<World>)
    requires History(ws) && |ws| > 0 && PastSetup(ws[|ws| - 1]) && RefundOpen(ws[|ws| - 1], p)
    ensures History(vs) && |vs| > 0 && ws <= vs
    ensures var v, u := ws[|ws| - 1], vs[|vs| - 1];
            && u == v.(session := RefundSession, net := u.net, mwLife := u.mwLife, btcLife := u.btcLife, grin := u.grin,
                       bitcoin := u.bitcoin)
            && LifeOf(u, p).Alive? && grin <= u.grin && bitcoin <= u.bitcoin
  {
    hide History, Step, Initial;
    var v := ws[|ws| - 1];
    if v.session.RefundSession? && LifeOf(v, p).Alive? {
      vs := Raised(ws, grin, bitcoin);
    } else {
      vs := Stopped(ws);
      vs := Raised(vs, grin, bitcoin);
      var u := vs[|vs| - 1];
      assert u.mw.pub == u.btc.pub by { SameFiles(ws); }
      var c := Connected(u, RefundSession, [], []);
      assert ConnectCancel(u, c);
      CancelIsStep(u, c);
      ExtendHistory(vs, c);
      vs := vs + [c];
    }
  }

  lemma SameFiles(ws: seq<World>)
    requires History(ws) && |ws| > 0 && ws[|ws| - 1].mw.pub.status == SETUP && ws[|ws| - 1].btc.pub.status == SETUP
    ensures ws[|ws| - 1].mw.pub == ws[|ws| - 1].btc.pub
  {
    hide Step, Initial;
    OutcomeAgreement(ws, |ws| - 1);
  }

  /** From every open state some run goes on to publish the refund, at any heights past the locks. */
  lemma OpenPublishes(ws: seq<World>, p: Party, grin: nat, bitcoin: nat) returns (vs: seq<World>)
    requires History(ws) && |ws| > 0 && PastSetup(ws[|ws| - 1]) && RefundOpen(ws[|ws| - 1], p)
        && Buildable(ws[|ws| - 1], p)
    requires ws[|ws| - 1].deal.Some?
    requires LocksOver(ws[|ws| - 1].deal.value.0, ws[|ws| - 1].deal.value.1, grin, bitcoin)
    ensures PublishesAt(ws, vs, p, grin, bitcoin)
    ensures vs[|vs| - 1].mw == ws[|ws| - 1].mw && vs[|vs| - 1].btc == ws[|ws| - 1].btc
        && ws[|ws| - 1].log <= vs[|vs| - 1].log
  {
    hide Step, Initial, History, OrderInv, MwRefundPhase, BtcRefundPhase, LocksOver;
    var v := ws[|ws| - 1];
    vs := Cancelling(ws, p, grin, bitcoin);
    var c := vs[|vs| - 1];
    HistoryOrder(vs, |vs| - 1);
    PhasesOf(c, grin, bitcoin, 0);
    var u: World;
    if p.Mw? {
      var r := MwRefundPhase(c.mw.keys.value, grin, bitcoin, true).value;
      u := c.(mwLife := Gone, log := c.log + [GrinRefunded(grin, bitcoin, r.tx)]);
      assert PublishGrinRefund(c, u, false, grin, bitcoin);
    } else {
      var r := BtcRefundPhase(BtcRefunder(c.e, c.btc.keys.value, 0, grin, bitcoin, true)).value;
      u := c.(btcLife := Gone, log := c.log + [BitcoinRefunded(grin, bitcoin, 0, r.tx, r.coin)]);
      assert PublishBitcoinRefund(c, u, false, grin, bitcoin, 0);
    }
    assert PlainStep(c, u);
    vs := Extended(vs, u);
    assert RefundOf(u.log[|c.log|], p);
  }

  // ---------------------------------------------------------------- from a closed state

  /** A closed state stays closed, and no refund of this party is added. */
  lemma ClosedStep(w: World, w': World, p: Party)
    requires WorldInv(w) && WorldInv(w') && Step(w, w') && PastSetup(w) && !RefundOpen(w, p)
    ensures PastSetup(w') && !RefundOpen(w', p)
    ensures w.log <= w'.log && !RefundSince(w'.log, |w.log|, p)
  {
    hide WorldInv, Step;
    KeysStay(w, w');
    StepStatuses(w, w');
    LogGrows(w, w');
    NotAtStart(w);
    ClosedMoves(w, w', p);
  }

  lemma NotAtStart(w: World)
    requires WorldInv(w) && PastSetup(w)
    ensures w.mw.pub.status != INITIALIZED && w.btc.pub.status != INITIALIZED
  {
    hide MwLockProgram, BtcLockProgram, MwExecProgram, BtcExecProgram, Talking, AgreedSlate;
    if w.deal.Some? { AgreedStatus(w); }
  }

  /** Without a handshake the session stays, and only a process at work on a cancellation publishes a refund. */
  lemma ClosedMoves(w: World, w': World, p: Party)
    requires Step(w, w') && w.mw.pub.status != INITIALIZED && !RefundOpen(w, p)
    ensures w'.session == w.session
    ensures w'.session.RefundSession? ==> !LifeOf(w', p).Alive?
    ensures !RefundSince(w'.log, |w.log|, p)
  {
    hide MwLockProgram, BtcLockProgram, MwExecProgram, BtcExecProgram, MwLock, MwExecute, BtcLock, BtcExecute, Init,
         MwRefundPhase, BtcRefundPhase, BtcFund, Advance, CheckTime;
  }

  lemma {:induction false} ClosedRun(vs: seq<World>, j: nat, k: nat, p: Party)
    requires History(vs) && j <= k < |vs| && PastSetup(vs[j]) && !RefundOpen(vs[j], p)
    ensures PastSetup(vs[k]) && !RefundOpen(vs[k], p)
    ensures |vs[j].log| <= |vs[k].log| && !RefundSince(vs[k].log, |vs[j].log|, p)
  {
    hide Step, Initial, WorldInv, RefundOpen;
    if j < k {
      ClosedRun(vs, j, k - 1, p);
      HistoryInv(vs, k - 1);
      HistoryInv(vs, k);
      assert Step(vs[k - 1], vs[k - 1 + 1]);
      ClosedStep(vs[k - 1], vs[k], p);
    }
  }

  /** What cannot be built is never published. */
  lemma UnbuildableRun(vs: seq<World>, j: nat, k: nat)
    requires History(vs) && j <= k < |vs| && PastSetup(vs[j]) && !Buildable(vs[j], Btc)
    ensures !RefundSince(vs[k].log, 0, Btc)
  {
    hide Step, Initial, OrderInv, BtcRefundPhase, LocksOver;
    DealKept(vs, j, k);
    HistoryOrder(vs, k);
    forall i | 0 <= i < |vs[k].log| && vs[k].log[i].BitcoinRefunded? ensures false {
      var ev := vs[k].log[i];
      GroundedRefund(vs[k], i);
      PhasesOf(vs[k], ev.grin, ev.bitcoin, ev.sk2);
    }
  }

  lemma GroundedRefund(w: World, i: nat)
    requires OrderInv(w) && i < |w.log| && w.log[i].BitcoinRefunded?
    ensures PastSetup(w)
    ensures BtcRefundPhase(BtcRefunder(w.e, w.btc.keys.value, w.log[i].sk2, w.log[i].grin, w.log[i].bitcoin, true)).Ok?
  {
    hide WorldInv, KeysInv, LockedFirst, BtcRefundPhase;
    assert Grounded(w, w.log[i], w.log[..i]);
  }

  lemma {:induction false} DealKept(vs: seq<World>, j: nat, k: nat)
    requires History(vs) && j <= k < |vs| && PastSetup(vs[j])
    ensures PastSetup(vs[k]) && vs[k].deal == vs[j].deal && vs[k].start == vs[j].start
  {
    hide Step, Initial, WorldInv;
    if j < k {
      DealKept(vs, j, k - 1);
      HistoryInv(vs, k - 1);
      assert Step(vs[k - 1], vs[k - 1 + 1]);
      KeysStay(vs[k - 1], vs[k]);
      StartStays(vs[k - 1], vs[k]);
    }
  }

  lemma StartStays(w: World, w': World)
    requires Step(w, w')
    ensures w'.start == w.start
  {
    hide MwLockProgram, BtcLockProgram, MwExecProgram, BtcExecProgram, MwLock, MwExecute, BtcLock, BtcExecute, Init,
         MwRefundPhase, BtcRefundPhase, BtcFund, Advance, CheckTime;
  }

  // ---------------------------------------------------------------- exactly

  /** After any run in which both parties have completed the setup, each can still publish its refund exactly when
      both files say SETUP, or the cancellation is under way with its process alive; Bob's also has to be buildable. */
  lemma RefundReachableExact(ws: seq<World>, p: Party)
    requires History(ws) && |ws| > 0 && PastSetup(ws[|ws| - 1])
    ensures CanPublish(ws, p) <==> RefundOpen(ws[|ws| - 1], p) && Buildable(ws[|ws| - 1], p)
  {
    hide Step, Initial, RefundOpen, Buildable, History, OrderInv, WorldInv;
    if RefundOpen(ws[|ws| - 1], p) && Buildable(ws[|ws| - 1], p) {
      HistoryInv(ws, |ws| - 1);
      MwKeys(ws[|ws| - 1]);
      var (a, b) := ws[|ws| - 1].deal.value;
      var vs := OpenPublishes(ws, p, a.height + a.start.mw.timelock + 1, b.height + b.start.btc.timelock + 1);
    } else if vs :| Publishes(ws, vs, p) {
      NeverPublishes(ws, vs, p);
    }
  }

  /** Which refund heights are still possible: both past the locks agreed on, and nothing else matters. */
  lemma RefundHeightsExact(ws: seq<World>, p: Party, grin: nat, bitcoin: nat)
    requires History(ws) && |ws| > 0 && PastSetup(ws[|ws| - 1])
    ensures var w := ws[|ws| - 1];
            && w.deal.Some?
            && (CanPublishAt(ws, p, grin, bitcoin) <==>
                  (&& RefundOpen(w, p) && Buildable(w, p)
                   && grin > w.deal.value.0.height + w.start.mw.timelock
                   && bitcoin > w.deal.value.1.height + w.start.btc.timelock))
  {
    hide Step, Initial, RefundOpen, Buildable, History, OrderInv, WorldInv;
    var w := ws[|ws| - 1];
    HistoryInv(ws, |ws| - 1);
    MwKeys(w);
    StartOfDeal(w);
    var (a, b) := w.deal.value;
    if RefundOpen(w, p) && Buildable(w, p) && LocksOver(a, b, grin, bitcoin) {
      var vs := OpenPublishes(ws, p, grin, bitcoin);
    } else if vs: seq<World> :| PublishesAt(ws, vs, p, grin, bitcoin) {
      NeverPublishes(ws, vs, p);
      var log := vs[|vs| - 1].log;
      var i :| |w.log| <= i < |log| && RefundOf(log[i], p) && log[i].grin == grin && log[i].bitcoin == bitcoin;
      RefundedLate(vs, |ws| - 1, i, p);
    }
  }

  /** A refund in the log was checked past the locks of the deal it belongs to. */
  lemma RefundedLate(vs: seq<World>, j: nat, i: nat, p: Party)
    requires History(vs) && j < |vs| && PastSetup(vs[j])
    requires i < |vs[|vs| - 1].log| && RefundOf(vs[|vs| - 1].log[i], p)
    ensures vs[j].deal.Some?
    ensures LocksOver(vs[j].deal.value.0, vs[j].deal.value.1, vs[|vs| - 1].log[i].grin, vs[|vs| - 1].log[i].bitcoin)
  {
    hide Step, Initial, WorldInv, KeysInv, LockedFirst, BtcRefundPhase, CheckRefund, LocksOver, AgreedSlate;
    var v := vs[|vs| - 1];
    DealKept(vs, j, |vs| - 1);
    HistoryOrder(vs, |vs| - 1);
    assert Grounded(v, v.log[i], v.log[..i]);
    MwKeys(v);
    BtcKeys(v);
    ChecksExact(v.deal.value.0, v.deal.value.1, v.log[i].grin, v.log[i].bitcoin);
  }

  lemma NeverPublishes(ws: seq<World>, vs: seq<World>, p: Party)
    requires Publishes(ws, vs, p) && PastSetup(ws[|ws| - 1])
    ensures RefundOpen(ws[|ws| - 1], p) && Buildable(ws[|ws| - 1], p)
  {
    hide Step, Initial, RefundOpen, Buildable, History;
    assert vs[|ws| - 1] == ws[|ws| - 1];
    if !RefundOpen(ws[|ws| - 1], p) {
      ClosedRun(vs, |ws| - 1, |vs| - 1, p);
    } else if !Buildable(ws[|ws| - 1], p) {
      BuildableForMw(ws[|ws| - 1], p);
      UnbuildableRun(vs, |ws| - 1, |vs| - 1);
    }
  }

  lemma BuildableForMw(w: World, p: Party)
    requires !Buildable(w, p)
    ensures p == Btc
  {
  }

  /** Once the contract is out, a refund can still follow exactly when neither file says FINISHED and, if a refund has
      been written, this party's process is still at work on its own (and it can be built). */
  lemma RefundAfterContractExact(ws: seq<World>, i: nat, p: Party)
    requires History(ws) && |ws| > 0 && i < |ws[|ws| - 1].log| && ws[|ws| - 1].log[i].Contracted?
    ensures var w := ws[|ws| - 1];
            CanPublish(ws, p) <==>
              (&& w.mw.pub.status != FINISHED && w.btc.pub.status != FINISHED
               && (w.mw.pub.status == FAILED || w.btc.pub.status == FAILED ==> LifeOf(w, p).Alive?)
               && Buildable(w, p))
  {
    hide Step, Initial, OrderInv, Buildable, CanPublish;
    var w := ws[|ws| - 1];
    HistoryOrder(ws, |ws| - 1);
    ContractedKeys(w, i);
    OutcomeAgreement(ws, |ws| - 1);
    Ordered(w);
    NotAtStart(w);
    RefundReachableExact(ws, p);
    if w.mw.pub.status == FINISHED || w.btc.pub.status == FINISHED {
      FinishedIsExecuted(w);
    }
    if w.mw.pub.status == FAILED || w.btc.pub.status == FAILED {
      FailedIsCancelled(w);
    }
  }

  lemma FailedIsCancelled(w: World)
    requires WorldInv(w) && (w.mw.pub.status == FAILED || w.btc.pub.status == FAILED)
    ensures w.session.RefundSession?
  {
    hide MwLockProgram, BtcLockProgram, MwExecProgram, BtcExecProgram, Inv, AgreedSlate;
    if w.deal.Some? { AgreedStatus(w); }
  }

  lemma ContractedKeys(w: World, i: nat)
    requires OrderInv(w) && i < |w.log| && w.log[i].Contracted?
    ensures PastSetup(w)
  {
    hide WorldInv, KeysInv, LockedFirst, BtcExecute, ExecTalk;
    assert Grounded(w, w.log[i], w.log[..i]);
  }

  /** With no process left and at least one slate written, a refund can still follow exactly when the two files are
      equal and say SETUP (and it can be built). */
  lemma FreeRefundExact(ws: seq<World>, p: Party)
    requires History(ws) && |ws| > 0 && Free(ws[|ws| - 1])
    requires ws[|ws| - 1].mw.pub.status != INITIALIZED || ws[|ws| - 1].btc.pub.status != INITIALIZED
    ensures CanPublish(ws, p) <==>
              (&& ws[|ws| - 1].mw.pub == ws[|ws| - 1].btc.pub && ws[|ws| - 1].mw.pub.status == SETUP
               && Buildable(ws[|ws| - 1], p))
  {
    hide Step, Initial, OrderInv, Buildable, WorldInv;
    var w := ws[|ws| - 1];
    HistoryInv(ws, |ws| - 1);
    WrittenKeys(w);
    if PastSetup(w) {
      RefundReachableExact(ws, p);
      OutcomeAgreement(ws, |ws| - 1);
    } else if vs :| Publishes(ws, vs, p) {
      assert vs[|ws| - 1] == w;
      DivergenceIsPermanent(vs, |ws| - 1, |vs| - 1);
    }
  }

  lemma WrittenKeys(w: World)
    requires WorldInv(w)
    ensures w.mw.pub.status != INITIALIZED <==> w.mw.keys.Some?
    ensures w.btc.pub.status != INITIALIZED <==> w.btc.keys.Some?
  {
    hide MwLockProgram, BtcLockProgram, MwExecProgram, BtcExecProgram, Talking, AgreedSlate;
    if w.deal.Some? { AgreedStatus(w); }
  }

  /** So the exclusion of execution and refund leaves this open. For every pair of parties there is a run in which
      Bob's contract is out, neither file says FINISHED, and his refund is out as well. */
  lemma RefundAfterContract(w: World, a: MwSide, b: BtcSide, x: MwExec, y: BtcExec) returns (ws: seq<World>)
    requires Executable(w, a, b, x, y) && a.start.btc.amount >= 500
    requires b.height + b.start.btc.timelock < 0x1_0000_0000
    ensures History(ws)
    ensures var u := ws[|ws| - 1];
            && u.mw.pub.status == SETUP && u.btc.pub.status == SETUP
            && exists i, j :: 0 <= i < j < |u.log| && u.log[i].Contracted? && u.log[j].BitcoinRefunded?
  {
    hide Executable, Step, Initial, BtcExecute, MwExecute, MwReveal, History, NothingRedeemed;
    ws := ContractOut(w, a, b, x, y);
    var u := ws[|ws| - 1];
    assert Buildable(u, Btc) by { HistoryInv(ws, |ws| - 1); StartOfDeal(u); }
    ws := OpenPublishes(ws, Btc, a.height + a.start.mw.timelock + 1, b.height + b.start.btc.timelock + 1);
    var v := ws[|ws| - 1];
    var j :| |u.log| <= j < |v.log| && RefundOf(v.log[j], Btc);
    assert v.log[|u.log| - 1] == u.log[|u.log| - 1];
  }

  /** That neither file says FINISHED is not enough: for every pair of parties there is a run with the contract out in
      which Alice has refunded and written, Bob has stopped, and his refund can never follow. */
  lemma RefundClosed(w: World, a: MwSide, b: BtcSide, x: MwExec, y: BtcExec) returns (ws: seq<World>)
    requires Executable(w, a, b, x, y)
    ensures History(ws) && |ws| > 0
    ensures var u := ws[|ws| - 1];
            && u.mw.pub.status == FAILED && u.btc.pub.status == SETUP
            && (exists i :: 0 <= i < |u.log| && u.log[i].Contracted?)
            && !CanPublish(ws, Btc)
  {
    hide Executable, Step, Initial, BtcExecute, MwExecute, MwReveal, History, NothingRedeemed, OrderInv,
         MwRefundPhase, BtcRefundPhase, CanPublish, Buildable;
    ws := ContractOut(w, a, b, x, y);
    var u := ws[|ws| - 1];
    ws := Cancelling(ws, Mw, a.height + a.start.mw.timelock + 1, b.height + b.start.btc.timelock + 1);
    var c := ws[|ws| - 1];
    HistoryOrder(ws, |ws| - 1);
    PhasesOf(c, c.grin, c.bitcoin, 0);
    var r := MwRefundPhase(c.mw.keys.value, c.grin, c.bitcoin, true).value;
    var c1 := c.(mwLife := Published, log := c.log + [GrinRefunded(c.grin, c.bitcoin, r.tx)]);
    assert PublishGrinRefund(c, c1, true, c.grin, c.bitcoin);
    ws := Extended(ws, c1);
    var c2 := c1.(mwLife := Gone, mw := MwResult(c1).value);
    assert WriteMw(c1, c2);
    ws := Extended(ws, c2);
    var c3 := c2.(btcLife := Gone);
    assert StopBtc(c2, c3);
    ws := Extended(ws, c3);
    assert c3.log[|u.log| - 1].Contracted?;
    RefundReachableExact(ws, Btc);
  }

  lemma StartOfDeal(w: World)
    requires WorldInv(w) && w.deal.Some?
    ensures w.deal.value.0.start == w.start && w.deal.value.1.start == w.start
  {
    hide SessionInv;
  }
}
