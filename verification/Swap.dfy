/** The whole swap as a transition system: two parties with one process each, what each has written to disk,
    the session that connects them, both chains' heights and everything ever published. A process may stop at any
    point, and a node may take a transaction and still report an error. */
module Swap {
  import opened Wrappers
  import opened Transactions
  import opened Coins
  import opened Endpoints
  import opened Bitcoin
  import opened Tcp
  import opened SwapState
  import opened Locking
  import opened Execution

  /** A process that has connected and not yet asked for heights, one at work, one whose transaction has been taken
      by its node, and one that has exited. */
  datatype Life = Starting | Alive | Published | Gone

  datatype Party = Mw | Btc

  /** The slate files of each party: the public slate and the keys and coins of a completed setup. */
  datatype MwDisk = MwDisk(pub: PubSlate, keys: Option<MwLocked>)
  datatype BtcDisk = BtcDisk(pub: PubSlate, keys: Option<BtcLocked>)

  /** What the two processes are doing together, if anything. */
  datatype Session = NoSession | LockSession(a: MwSide, b: BtcSide) | ExecSession(x: MwExec, y: BtcExec) | RefundSession

  /** What the two nodes have been given, with what the publishing party knew, the heights it checked and the coin it
      keeps for what it was paid. */
  datatype Event =
    | BitcoinLocked(b: BtcSide, tx: BtcTx)
    | GrinFunded(a: MwSide, b: BtcSide, m: MwLocked)
    | ExecStarted(party: Party, grin: nat, bitcoin: nat)
    | Contracted(x: MwExec, y: BtcExec, contract: Transaction, payout: Coin, aliceHas: seq<Msg>)
    | Redeemed(x: MwExec, y: BtcExec, tx: BtcTx, coin: BtcInput)
    | GrinRefunded(grin: nat, bitcoin: nat, refund: Transaction)
    | BitcoinRefunded(grin: nat, bitcoin: nat, sk2: int, tx: BtcTx, coin: BtcInput)

  datatype World = World(env: Env, e: BtcEnv, start: PubSlate, mw: MwDisk, btc: BtcDisk,
                         session: Session, net: Net<Msg>, mwLife: Life, btcLife: Life,
                         deal: Option<(MwSide, BtcSide)>, grin: nat, bitcoin: nat, log: seq<Event>)

  /** Both parties hold the same freshly initialised public slate. */
  ghost predicate Initial(w: World) {
    && w.start.status == INITIALIZED
    && w.mw == MwDisk(w.start, None) && w.btc == BtcDisk(w.start, None)
    && w.session == NoSession && Free(w) && w.deal == None && w.log == []
  }

  /** Neither party has a process in a session. */
  predicate Free(w: World) { w.mwLife.Gone? && w.btcLife.Gone? }

  // ---------------------------------------------------------------- connecting

  /** The handshake compares checksums of the files, so it succeeds only on equal public slates. */
  ghost predicate Handshake(w: World, status: Status) {
    Free(w) && w.mw.pub == w.btc.pub && w.mw.pub.status == status
  }

  ghost function Connected(w: World, s: Session, p: seq<Action<Msg>>, q: seq<Action<Msg>>): World {
    w.(session := s, net := Init(p, q), mwLife := Alive, btcLife := Alive)
  }

  ghost predicate ConnectLock(w: World, w': World, a: MwSide, b: BtcSide) {
    && Handshake(w, INITIALIZED)
    && Paired(a, b) && a.start == w.mw.pub && a.env == w.env && a.e == w.e
    && w.grin <= a.height && w.bitcoin <= b.height
    && w' == Connected(w, LockSession(a, b), MwLockProgram(a), BtcLockProgram(b)).(deal := Some((a, b)))
  }

  /** Each side will ask its own node for heights, at a moment of its own after the connection. */
  ghost predicate ConnectExecute(w: World, w': World, x: MwExec, y: BtcExec) {
    && Handshake(w, SETUP)
    && w.mw.keys == Some(x.slate) && w.btc.keys == Some(y.slate)
    && x.env == y.env == w.env && x.e == y.e == w.e
    && w.grin <= x.grin && w.bitcoin <= x.btc && w.grin <= y.grin && w.bitcoin <= y.btc
    && w' == Connected(w, ExecSession(x, y), MwExecProgram(x), BtcExecProgram(y)).(mwLife := Starting,
        btcLife := Starting)
  }

  ghost predicate ConnectCancel(w: World, w': World) {
    && Handshake(w, SETUP)
    && w' == Connected(w, RefundSession, [], [])
  }

  // ---------------------------------------------------------------- talking and stopping

  /** Execution begins with a time check, at heights that have been reached by then. */
  function StartEvents(p: Party, s: PubSlate, grin: nat, bitcoin: nat): seq<Event> {
    if CheckTime(s, grin, bitcoin).Ok? then [ExecStarted(p, grin, bitcoin)] else []
  }

  ghost predicate BeginMw(w: World, w': World) {
    && w.session.ExecSession? && w.mwLife.Starting?
    && var x := w.session.x;
       && x.grin <= w.grin && x.btc <= w.bitcoin
       && w' == w.(mwLife := Alive, log := w.log + StartEvents(Mw, x.slate.pub, x.grin, x.btc))
  }

  ghost predicate BeginBtc(w: World, w': World) {
    && w.session.ExecSession? && w.btcLife.Starting?
    && var y := w.session.y;
       && y.grin <= w.grin && y.btc <= w.bitcoin
       && w' == w.(btcLife := Alive, log := w.log + StartEvents(Btc, y.slate.pub, y.grin, y.btc))
  }

  /** Alice has asked her node for the Grin height when she sends her lock height, Bob has asked his when he sends
      the Bitcoin lock time. */
  ghost predicate HeightKnown(w: World) {
    w.session.LockSession? && w.net.a.pc == 6 && !w.net.a.mid ==> w.session.a.height <= w.grin
  }

  ghost predicate TimeKnown(w: World) {
    w.session.LockSession? && w.net.b.pc == 3 && !w.net.b.mid ==> w.session.b.height <= w.bitcoin
  }

  ghost predicate MoveMw(w: World, w': World) {
    && w.mwLife.Alive? && MoveA(w.net, 0).Some? && HeightKnown(w)
    && w' == w.(net := MoveA(w.net, 0).value)
  }

  /** Bob publishes the lock transaction just before he sends its address, his fifth line. */
  ghost predicate LocksNow(w: World) {
    w.session.LockSession? && w.net.b.pc == 4 && !w.net.b.mid && BtcFund(w.session.b, w.net.b.inbox).Ok?
  }

  ghost predicate MoveBtc(w: World, w': World) {
    && w.btcLife.Alive? && MoveB(w.net, 0).Some? && TimeKnown(w)
    && w' == w.(net := MoveB(w.net, 0).value,
                log := w.log + if LocksNow(w) then [BitcoinLocked(w.session.b,
                                                                  BtcFund(w.session.b,
                                                                      w.net.b.inbox).value.tx)] else [])
  }

  ghost predicate StopMw(w: World, w': World) { w' == w.(mwLife := Gone) }

  ghost predicate StopBtc(w: World, w': World) { w' == w.(btcLife := Gone) }

  /** The lock transaction reaches the chain, and Bob stops before telling Alice. */
  ghost predicate LockThenStop(w: World, w': World) {
    && w.session.LockSession? && w.btcLife.Alive? && w.net.b.pc == 4 && !w.net.b.mid
    && var f := BtcFund(w.session.b.(sent := true), w.net.b.inbox);
       && f.Ok?
       && w' == w.(btcLife := Gone, log := w.log + [BitcoinLocked(w.session.b, f.value.tx)])
  }

  // ---------------------------------------------------------------- publishing and writing

  ghost predicate Done(p: Proc<Msg>) { p.pc == |p.prog| && !p.mid }

  /** The node took the transaction; the process goes on only if the node also said so. */
  function After(reported: bool): Life { if reported then Published else Gone }

  ghost predicate PublishFunding(w: World, w': World) {
    && w.session.LockSession? && w.mwLife.Alive? && Done(w.net.a)
    && var a, b := w.session.a, w.session.b;
       var r := MwLock(a.(pushed := true), w.net.a.inbox);
       && r.Ok?
       && w' == w.(mwLife := After(a.pushed), log := w.log + [GrinFunded(a, b, r.value)])
  }

  ghost predicate PublishRedeem(w: World, w': World) {
    && w.session.ExecSession? && w.mwLife.Alive? && Done(w.net.a)
    && var x, y := w.session.x, w.session.y;
       var r := MwExecute(x.(sent := true), w.net.a.inbox);
       && r.Ok?
       && w' == w.(mwLife := After(x.sent), log := w.log + [Redeemed(x, y, r.value.redeem, r.value.swapped)])
  }

  ghost predicate PublishContract(w: World, w': World) {
    && w.session.ExecSession? && w.btcLife.Alive? && Done(w.net.b)
    && var x, y := w.session.x, w.session.y;
       var r := BtcExecute(y.(pushed := true), w.net.b.inbox);
       && r.Ok?
       && w' == w.(btcLife := After(y.pushed),
                   log := w.log + [Contracted(x, y, r.value.contract, r.value.swapped, w.net.a.inbox)])
  }

  /** A refund is checked at heights that have been reached, and then published. */
  ghost predicate PublishGrinRefund(w: World, w': World, reported: bool, grin: nat, bitcoin: nat) {
    && w.session.RefundSession? && w.mwLife.Alive? && w.mw.keys.Some? && grin <= w.grin && bitcoin <= w.bitcoin
    && var r := MwRefundPhase(w.mw.keys.value, grin, bitcoin, true);
       && r.Ok?
       && w' == w.(mwLife := After(reported), log := w.log + [GrinRefunded(grin, bitcoin, r.value.tx)])
  }

  ghost predicate PublishBitcoinRefund(w: World, w': World, reported: bool, grin: nat, bitcoin: nat, sk2: int) {
    && w.session.RefundSession? && w.btcLife.Alive? && w.btc.keys.Some? && grin <= w.grin && bitcoin <= w.bitcoin
    && var r := BtcRefundPhase(BtcRefunder(w.e, w.btc.keys.value, sk2, grin, bitcoin, true));
       && r.Ok?
       && w' == w.(btcLife := After(reported),
                   log := w.log + [BitcoinRefunded(grin, bitcoin, sk2, r.value.tx, r.value.coin)])
  }

  ghost predicate Publish(w: World, w': World) {
    || PublishFunding(w, w') || PublishRedeem(w, w') || PublishContract(w, w')
    || (exists reported, grin, bitcoin :: PublishGrinRefund(w, w', reported, grin, bitcoin))
    || (exists reported, grin, bitcoin, sk2 :: PublishBitcoinRefund(w, w', reported, grin, bitcoin, sk2))
  }

  /** A command that succeeded writes the slate and exits; nothing else writes it. */
  ghost function MwResult(w: World): Result<MwDisk> {
    if !w.mwLife.Published? then Err(NodeFailure)
    else match w.session
      case LockSession(a, _) => var m :- MwLock(a, w.net.a.inbox); Ok(MwDisk(m.pub, Some(m)))
      case ExecSession(x, _) => var f :- MwExecute(x, w.net.a.inbox); Ok(w.mw.(pub := f.pub))
      case RefundSession => Ok(w.mw.(pub := w.mw.pub.(status := FAILED)))
      case NoSession => Err(NodeFailure)
  }

  /** Bob publishes nothing at the end of the setup phase, so his process writes when his last line is through. */
  ghost function BtcResult(w: World): Result<BtcDisk> {
    match w.session
    case LockSession(_, b) =>
      if !w.btcLife.Alive? || !Done(w.net.b) then Err(NodeFailure) else
      var n :- BtcLock(b, w.net.b.inbox); Ok(BtcDisk(n.pub, Some(n)))
    case ExecSession(_, y) =>
      if !w.btcLife.Published? then Err(NodeFailure) else
      var g :- BtcExecute(y, w.net.b.inbox); Ok(w.btc.(pub := g.pub))
    case RefundSession =>
      if !w.btcLife.Published? then Err(NodeFailure) else Ok(w.btc.(pub := w.btc.pub.(status := FAILED)))
    case NoSession => Err(NodeFailure)
  }

  ghost predicate WriteMw(w: World, w': World) {
    MwResult(w).Ok? && w' == w.(mwLife := Gone, mw := MwResult(w).value)
  }

  ghost predicate WriteBtc(w: World, w': World) {
    BtcResult(w).Ok? && w' == w.(btcLife := Gone, btc := BtcResult(w).value)
  }

  /** New blocks on either chain. */
  ghost predicate Rise(w: World, w': World) {
    w'.grin >= w.grin && w'.bitcoin >= w.bitcoin && w' == w.(grin := w'.grin, bitcoin := w'.bitcoin)
  }

  ghost predicate Connect(w: World, w': World) {
    || (exists a, b :: ConnectLock(w, w', a, b))
    || (exists x, y :: ConnectExecute(w, w', x, y))
    || ConnectCancel(w, w')
  }

  ghost predicate Step(w: World, w': World) {
    || Connect(w, w') || BeginMw(w, w') || BeginBtc(w, w') || MoveMw(w, w') || MoveBtc(w, w') || StopMw(w, w')
        || StopBtc(w, w') || LockThenStop(w, w')
    || Publish(w, w') || WriteMw(w, w') || WriteBtc(w, w') || Rise(w, w')
  }

  ghost predicate History(ws: seq<World>) {
    && |ws| > 0 && Initial(ws[0])
    && forall k :: 0 <= k < |ws| - 1 ==> Step(ws[k], ws[k + 1])
  }
}
