/** The heights at which a swap that has been set up can still be executed or refunded, exactly. */
module SwapHeights {
  import opened Wrappers
  import opened Coins
  import Tcp
  import opened SwapState
  import opened Locking
  import opened Execution
  import opened Swap
  import opened SwapSafety
  import opened SwapOrder
  import opened SwapTime
  import opened SwapRuns
  import opened SwapRefunds

  // ---------------------------------------------------------------- starting an execution

  /** A run that goes on from this one and in which this party passes its time check at these heights. */
  ghost predicate StartsAt(ws: seq<World>, vs: seq<World>, p: Party, grin: nat, bitcoin: nat) {
    && |ws| > 0 && History(vs) && ws <= vs
    && var log := vs[|vs| - 1].log;
       exists i :: |ws[|ws| - 1].log| <= i < |log| && log[i] == ExecStarted(p, grin, bitcoin)
  }

  ghost predicate CanStartAt(ws: seq<World>, p: Party, grin: nat, bitcoin: nat) {
    exists vs :: StartsAt(ws, vs, p, grin, bitcoin)
  }

  /** Both parties have written their slates and neither has gone on from there. */
  ghost predicate SetUp(w: World) { PastSetup(w) && w.mw.pub.status == SETUP && w.btc.pub.status == SETUP }

  /** Both sides connect again and ask for these heights. */
  lemma Reconnected(ws: seq<World>, x: MwExec, y: BtcExec) returns (vs: seq<World>)
    requires History(ws) && |ws| > 0 && SetUp(ws[|ws| - 1])
    requires var w := ws[|ws| - 1];
             && w.mw.keys == Some(x.slate) && w.btc.keys == Some(y.slate)
             && x.env == y.env == w.env && x.e == y.e == w.e
             && w.grin <= x.grin && w.bitcoin <= x.btc && w.grin <= y.grin && w.bitcoin <= y.btc
    ensures History(vs) && |vs| > 0 && ws <= vs && ReadyToExecute(vs[|vs| - 1], x, y)
    ensures vs[|vs| - 1] == ws[|ws| - 1].(mwLife := Gone, btcLife := Gone)
  {
    hide History;
    SameFiles(ws);
    vs := Stopped(ws);
  }

  /** One side begins, at heights that leave an hour. */
  lemma Started(ws: seq<World>, p: Party, grin: nat, bitcoin: nat) returns (vs: seq<World>)
    requires History(ws) && |ws| > 0 && SetUp(ws[|ws| - 1])
    requires ws[|ws| - 1].grin <= grin && ws[|ws| - 1].bitcoin <= bitcoin
    requires CheckTime(ws[|ws| - 1].mw.keys.value.pub, grin, bitcoin).Ok?
    requires CheckTime(ws[|ws| - 1].btc.keys.value.pub, grin, bitcoin).Ok?
    ensures StartsAt(ws, vs, p, grin, bitcoin)
  {
    hide MwExecProgram, BtcExecProgram, Step, Initial, CheckTime, Tcp.Init;
    var w := ws[|ws| - 1];
    var x := MwExec(w.env, w.e, w.mw.keys.value, SpendRandom(0, 0, 0, 0), 0, grin, bitcoin, true);
    var y := BtcExec(w.env, w.e, w.btc.keys.value, 0, RecvRandom(0, 0), grin, bitcoin, true);
    vs := Reconnected(ws, x, y);
    var v := vs[|vs| - 1];
    var c := Connected(v, ExecSession(x, y), MwExecProgram(x), BtcExecProgram(y)).(mwLife := Starting,
        btcLife := Starting);
    assert Step(v, c) by { ConnectIsStep(v, c, x, y); }
    ExtendHistory(vs, c);
    vs := vs + [c];
    vs := Raised(vs, grin, bitcoin);
    hide History;
    var d := vs[|vs| - 1];
    if p.Mw? {
      var u := d.(mwLife := Alive, log := d.log + [ExecStarted(Mw, grin, bitcoin)]);
      assert BeginMw(d, u);
      vs := Extended(vs, u);
      assert u.log[|w.log|] == ExecStarted(Mw, grin, bitcoin);
    } else {
      var u := d.(btcLife := Alive, log := d.log + [ExecStarted(Btc, grin, bitcoin)]);
      assert BeginBtc(d, u);
      vs := Extended(vs, u);
      assert u.log[|w.log|] == ExecStarted(Btc, grin, bitcoin);
    }
  }

  /** An execution in the log was started with an hour left before the locks of the deal it belongs to. */
  lemma StartedEarly(vs: seq<World>, j: nat, i: nat)
    requires History(vs) && j < |vs| && PastSetup(vs[j])
    requires i < |vs[|vs| - 1].log| && vs[|vs| - 1].log[i].ExecStarted?
    ensures vs[j].deal.Some?
    ensures HourLeft(vs[j].deal.value.0, vs[j].deal.value.1, vs[|vs| - 1].log[i].grin, vs[|vs| - 1].log[i].bitcoin)
  {
    hide Step, Initial, WorldInv, KeysInv, LockedFirst, CheckTime, HourLeft, AgreedSlate;
    var v := vs[|vs| - 1];
    DealKept(vs, j, |vs| - 1);
    HistoryOrder(vs, |vs| - 1);
    assert Grounded(v, v.log[i], v.log[..i]);
    MwKeys(v);
    ChecksExact(v.deal.value.0, v.deal.value.1, v.log[i].grin, v.log[i].bitcoin);
  }

  /** After any run that left both slates at SETUP, either party can still start an execution at heights from now on
      exactly when an hour is left on both chains. */
  lemma StartHeightsExact(ws: seq<World>, p: Party, grin: nat, bitcoin: nat)
    requires History(ws) && |ws| > 0 && SetUp(ws[|ws| - 1])
    requires ws[|ws| - 1].grin <= grin && ws[|ws| - 1].bitcoin <= bitcoin
    ensures var w := ws[|ws| - 1];
            && w.deal.Some?
            && (CanStartAt(ws, p, grin, bitcoin) <==>
                  (&& grin + 60 <= w.deal.value.0.height + w.start.mw.timelock
                   && bitcoin + 6 <= w.deal.value.1.height + w.start.btc.timelock))
  {
    hide Step, Initial, History, OrderInv, WorldInv, CheckTime, AgreedSlate;
    var w := ws[|ws| - 1];
    HistoryInv(ws, |ws| - 1);
    HistoryOrder(ws, |ws| - 1);
    MwKeys(w);
    BtcKeys(w);
    StartOfDeal(w);
    var (a, b) := w.deal.value;
    ChecksExact(a, b, grin, bitcoin);
    if HourLeft(a, b, grin, bitcoin) {
      var vs := Started(ws, p, grin, bitcoin);
    } else if vs: seq<World> :| StartsAt(ws, vs, p, grin, bitcoin) {
      var log := vs[|vs| - 1].log;
      var i :| |w.log| <= i < |log| && log[i] == ExecStarted(p, grin, bitcoin);
      StartedEarly(vs, |ws| - 1, i);
    }
  }

  // ---------------------------------------------------------------- publishing the contract

  /** A run that goes on from this one and in which Bob publishes the contract of this session. */
  ghost predicate Contracts(ws: seq<World>, vs: seq<World>, x: MwExec, y: BtcExec) {
    && |ws| > 0 && History(vs) && ws <= vs
    && var log := vs[|vs| - 1].log;
       exists i :: |ws[|ws| - 1].log| <= i < |log| && log[i].Contracted? && log[i].x == x && log[i].y == y
  }

  /** The next session of this swap, on the slates both parties have written. */
  ghost predicate NextSession(w: World, x: MwExec, y: BtcExec) {
    && SetUp(w) && w.mw.keys == Some(x.slate) && w.btc.keys == Some(y.slate)
    && x.env == y.env == w.env && x.e == y.e == w.e
    && w.grin <= x.grin && w.bitcoin <= x.btc && w.grin <= y.grin && w.bitcoin <= y.btc
    && w.deal.Some? && LockAssumptions(w.deal.value.0, w.deal.value.1)
    && ExecAssumptions(w.deal.value.0, x.slate, y.slate, x, y)
  }

  lemma SessionContract(ws: seq<World>, x: MwExec, y: BtcExec)
    requires History(ws) && |ws| > 0 && NextSession(ws[|ws| - 1], x, y)
    ensures var (a, b) := ws[|ws| - 1].deal.value;
            && a.start == b.start == ws[|ws| - 1].start
            && (BtcExecute(y.(pushed := true), ExecTalk(x, y).1).Ok? <==>
                  HourLeft(a, b, x.grin, x.btc) && HourLeft(a, b, y.grin, y.btc))
  {
    hide Step, Initial, History, WorldInv, LockAssumptions, LockCondition, ExecAssumptions, BtcExecute, ExecTalk,
         HourLeft;
    HistoryInv(ws, |ws| - 1);
    StartOfDeal(ws[|ws| - 1]);
    LockedKeys(ws);
    ContractPossible(ws[|ws| - 1].deal.value.0, ws[|ws| - 1].deal.value.1, x, y);
  }

  /** With good draws, parties that have set up a swap can get its contract published from here exactly when each of
      them, at the heights it will be told, finds an hour left on both chains. */
  lemma ContractHeightsExact(ws: seq<World>, x: MwExec, y: BtcExec)
    requires History(ws) && |ws| > 0 && NextSession(ws[|ws| - 1], x, y)
    ensures var w := ws[|ws| - 1];
            var lockGrin, lockBtc := w.deal.value.0.height + w.start.mw.timelock,
                                     w.deal.value.1.height + w.start.btc.timelock;
            (exists vs :: Contracts(ws, vs, x, y)) <==>
              (&& x.grin + 60 <= lockGrin && x.btc + 6 <= lockBtc
               && y.grin + 60 <= lockGrin && y.btc + 6 <= lockBtc)
  {
    hide Step, Initial, History, LockAssumptions, ExecAssumptions, BtcExecute, ExecTalk;
    SessionContract(ws, x, y);
    if BtcExecute(y.(pushed := true), ExecTalk(x, y).1).Ok? {
      var vs := Contracted(ws, x, y);
    } else if vs: seq<World> :| Contracts(ws, vs, x, y) {
      ContractedRests(ws, vs, x, y);
    }
  }

  lemma Contracted(ws: seq<World>, x: MwExec, y: BtcExec) returns (vs: seq<World>)
    requires History(ws) && |ws| > 0 && NextSession(ws[|ws| - 1], x, y)
    requires BtcExecute(y.(pushed := true), ExecTalk(x, y).1).Ok?
    ensures Contracts(ws, vs, x, y)
  {
    hide Step, Initial, History, LockAssumptions, ExecAssumptions, BtcExecute, ExecTalk, ReadyToExecute;
    vs := Reconnected(ws, x, y);
    vs := ContractRunTo(vs, x, y);
  }

  lemma LockedKeys(ws: seq<World>)
    requires History(ws) && |ws| > 0 && PastSetup(ws[|ws| - 1])
    requires ws[|ws| - 1].deal.Some? && LockAssumptions(ws[|ws| - 1].deal.value.0, ws[|ws| - 1].deal.value.1)
    ensures var (a, b) := ws[|ws| - 1].deal.value;
            && LockCondition(a, b) && a.pushed
            && MwLock(a, LockTalk(a, b).0) == Ok(ws[|ws| - 1].mw.keys.value)
            && BtcLock(b, LockTalk(a, b).1) == Ok(ws[|ws| - 1].btc.keys.value)
  {
    hide Step, Initial, History, WorldInv, LockAssumptions, LockCondition, MwLock, BtcLock, LockTalk, LocksMatch,
         MwHolds, LockedFirst, Grounded;
    HistoryOrder(ws, |ws| - 1);
    var (a, b) := ws[|ws| - 1].deal.value;
    LockTalkExact(a, b);
  }

  lemma ContractedRests(ws: seq<World>, vs: seq<World>, x: MwExec, y: BtcExec)
    requires Contracts(ws, vs, x, y)
    ensures BtcExecute(y.(pushed := true), ExecTalk(x, y).1).Ok?
  {
    hide Step, Initial, WorldInv, KeysInv, LockedFirst, BtcExecute, ExecTalk;
    var v := vs[|vs| - 1];
    HistoryOrder(vs, |vs| - 1);
    var i :| 0 <= i < |v.log| && v.log[i].Contracted? && v.log[i].x == x && v.log[i].y == y;
    assert Grounded(v, v.log[i], v.log[..i]);
  }

  // ---------------------------------------------------------------- in minutes

  /** What the minutes given to init come to. A swap that has been set up, with lock heights counted from those the
      parties were told, can be executed at heights up to 60 Grin and 6 Bitcoin blocks before the locks and refunded
      from the block after them on, and at no other heights. */
  lemma MinutesExact(ws: seq<World>, from: Currency, to: Currency, fromAmount: nat, toAmount: nat, minutes: nat,
                     meta: Meta, p: Party, grin: nat, bitcoin: nat)
    requires History(ws) && |ws| > 0 && SetUp(ws[|ws| - 1])
    requires InitSlate(from, to, fromAmount, toAmount, minutes, meta) == Some(ws[0].start)
    ensures ws[|ws| - 1].deal.Some?
    ensures ws[|ws| - 1].grin <= grin && ws[|ws| - 1].bitcoin <= bitcoin ==>
              (CanStartAt(ws, p, grin, bitcoin) <==>
                 (&& grin + 60 <= ws[|ws| - 1].deal.value.0.height + minutes
                  && bitcoin + 6 <= ws[|ws| - 1].deal.value.1.height + minutes / 10))
    ensures CanPublishAt(ws, p, grin, bitcoin) <==>
              (&& Buildable(ws[|ws| - 1], p)
               && grin > ws[|ws| - 1].deal.value.0.height + minutes
               && bitcoin > ws[|ws| - 1].deal.value.1.height + minutes / 10)
  {
    hide Step, Initial, History, Buildable, CanStartAt, CanPublishAt;
    HistoryTime(ws, |ws| - 1);
    RefundHeightsExact(ws, p, grin, bitcoin);
    if ws[|ws| - 1].grin <= grin && ws[|ws| - 1].bitcoin <= bitcoin {
      StartHeightsExact(ws, p, grin, bitcoin);
    }
  }
}
