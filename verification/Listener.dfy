/** Both ends of the handshake as they run: the listening side's value check and accept loop, and the connecting
    side's offer. */
module Listener {
  import opened Wrappers
  import opened Transactions
  import opened Coins
  import opened Bitcoin
  import opened Tcp
  import opened Endpoints
  import opened Streams
  import opened SwapState
  import opened Locking
  import opened GrinTx
  import opened Commands
  import opened Phases
  import GrinCore

  /** The value of the inputs in the offered currency. */
  function Offered(pub: PubSlate, coins: seq<Coin>, inputs: seq<BtcInput>): int {
    if pub.mw.offered then Sum(Values(coins)) else Amounts(inputs)
  }

  /** The two summing loops; a sum that leaves 64 bits stops the command. */
  method OfferedValue(slate: SwapSlate) returns (value: Option<nat>)
    ensures var total := Offered(slate.pub, slate.coins, slate.inputs);
            value == if 0 <= total < Transactions.U64 then Some(total) else None
  {
    hide Sum;
    if slate.pub.mw.offered {
      var total, _ := GrinCore.ScanInputs(slate.coins);
      ValuesNatural(slate.coins);
      return total;
    }
    var total: nat := 0;
    for i := 0 to |slate.inputs|
      invariant total == Amounts(slate.inputs[..i]) < Transactions.U64
    {
      NextAmount(slate.inputs, i);
      AmountsGrow(slate.inputs, i + 1);
      if total + slate.inputs[i].value >= Transactions.U64 {
        return None;
      }
      total := total + slate.inputs[i].value;
    }
    assert slate.inputs[..|slate.inputs|] == slate.inputs;
    value := Some(total);
  }

  /** The check before listening: until the swap is set up, the inputs of the offered currency must cover its amount.
      Fees are not counted. */
  function ListenCheck(pub: PubSlate, coins: seq<Coin>, inputs: seq<BtcInput>): Result<()> {
    var value := Offered(pub, coins, inputs);
    if value >= Transactions.U64 then Err(Overflow)
    else if pub.status != SETUP && value < (if pub.mw.offered then pub.mw.amount else pub.btc.amount)
    then Err(TooLittleValue)
    else Ok(())
  }

  lemma ValuesNatural(coins: seq<Coin>)
    ensures Sum(Values(coins)) >= 0
  {
    hide Sum;
    GrinCore.TotalGrows(coins, 0);
    GrinCore.EmptySum();
    assert Values(coins[..0]) == [];
  }

  /** On a fresh slate the check holds exactly when whoever initialised the swap has what it offers, below 2^64; the
      listener then takes the role that gives this currency, and the peer the other one. */
  lemma OffererPays(from: Currency, to: Currency, fromAmount: nat, toAmount: nat, minutes: nat, meta: Meta,
                    pub: PubSlate, coins: seq<Coin>, inputs: seq<BtcInput>, own: string, next: Msg)
    requires InitSlate(from, to, fromAmount, toAmount, minutes, meta) == Some(pub)
    ensures ListenCheck(pub, coins, inputs).Ok? <==>
              fromAmount <= (if from == BTC then Amounts(inputs) else Sum(Values(coins))) < 0x1_0000_0000_0000_0000
    ensures ListenerRole(pub, own, Text(own), next) == Some(if from == BTC then LockBtc else LockMw)
    ensures ConnectorRole(LockCommand, pub, Text("OK")) == Ok(if from == BTC then LockMw else LockBtc)
  {
    hide Sum;
    InitExact(from, to, fromAmount, toAmount, minutes, meta, pub);
  }

  /** What the check lets through and setup then refuses, for a listener that gives one Bitcoin input: exactly the
      inputs that cover the amount and not the fee. */
  lemma CheckForgetsFee(b: BtcSide, coins: seq<Coin>)
    requires |b.inputs| == 1 && b.start.btc.offered && !b.start.mw.offered && b.start.status == INITIALIZED
    requires b.sent && b.height + b.start.btc.timelock < 0x8000_0000_0000_0000
    ensures FundCondition(b) ==> ListenCheck(b.start, coins, b.inputs).Ok?
    ensures ListenCheck(b.start, coins, b.inputs).Ok? && !FundCondition(b) <==>
              && b.start.btc.amount <= b.inputs[0].value < b.start.btc.amount + 500
              && b.inputs[0].value < 0x1_0000_0000_0000_0000
  {
    hide Sum;
    AmountsOfOne(b.inputs);
  }

  /** The message the next read on these lines returns. */
  function Upcoming(lines: seq<Line<Msg>>, k: nat): Msg {
    if k >= |lines| then Closed else if lines[k].Data? then lines[k].m else Text("ACK")
  }

  /** A client this listener does not enter a phase with. */
  ghost predicate Rejected(pub: PubSlate, own: string, lines: seq<Line<Msg>>) {
    forall next :: ListenerRole(pub, own, Upcoming(lines, 0), next).None?
  }

  /** The role a client gets with its checksum and, past setup, the word it sends after the reply. */
  ghost predicate Chosen(pub: PubSlate, own: string, lines: seq<Line<Msg>>, role: Role) {
    exists next ::
      ListenerRole(pub, own, Upcoming(lines, 0), next) == Some(role)
      && (pub.status == SETUP ==> next == Upcoming(lines, 2))
  }

  ghost predicate Untouched(clients: seq<Stream>, lines: seq<seq<Line<Msg>>>, from: nat)
    requires |clients| == |lines|
    reads clients
  {
    forall j :: from <= j < |clients| ==> clients[j].incoming == lines[j]
  }

  /** One client: read its checksum, answer, and choose a role on a match. */
  method Greet(pub: PubSlate, own: string, st: Stream) returns (r: Result<Option<Role>>)
    modifies st
    ensures r.Ok? && r.value.Some? ==> Chosen(pub, own, old(st.incoming), r.value.value)
    ensures r.Ok? && r.value.None? ==> Rejected(pub, own, old(st.incoming))
    ensures r.Ok? ==> st.said == old(st.said) + [Reply(own, Upcoming(old(st.incoming), 0))]
  {
    var theirs := st.ReceiveMsg();
    if theirs == Text(own) {
      var _ :- st.SendMsg(Text("OK"));
      if pub.status == INITIALIZED {
        var role := if pub.btc.offered then LockBtc else LockMw;
        assert ListenerRole(pub, own, Upcoming(old(st.incoming), 0), Closed) == Some(role);
        return Ok(Some(role));
      } else if pub.status == SETUP {
        var next := st.ReceiveMsg();
        var role := if next == Text("EXECUTE") then (if pub.btc.offered then ExecBtc else ExecMw)
                    else (if pub.btc.offered then RefundBtc else RefundMw);
        assert ListenerRole(pub, own, Upcoming(old(st.incoming), 0), next) == Some(role);
        return Ok(Some(role));
      }
    } else {
      var _ :- st.SendMsg(Text("FAULT"));
    }
    r := Ok(None);
  }

  /** The accept loop: clients that do not match are told so and left; the first that does decides the role. */
  method Accept(pub: PubSlate, own: string, clients: seq<Stream>) returns (r: Result<Option<(nat, Role)>>)
    requires forall i, j :: 0 <= i < j < |clients| ==> clients[i] != clients[j]
    modifies clients
    ensures r.Ok? && r.value.Some? ==>
              var (i, role) := r.value.value;
              && i < |clients|
              && Chosen(pub, own, old(clients[i].incoming), role)
              && forall j :: 0 <= j < i ==> Rejected(pub, own, old(clients[j].incoming))
    ensures r.Ok? && r.value.None? ==> forall j :: 0 <= j < |clients| ==> Rejected(pub, own, old(clients[j].incoming))
  {
    hide Rejected, Chosen;
    ghost var lines := seq(|clients|, i requires 0 <= i < |clients| reads clients => clients[i].incoming);
    for i := 0 to |clients|
      invariant |lines| == |clients| && forall j :: 0 <= j < |clients| ==> lines[j] == old(clients[j].incoming)
      invariant Untouched(clients, lines, i)
      invariant forall j :: 0 <= j < i ==> Rejected(pub, own, old(clients[j].incoming))
    {
      var role :- Greet(pub, own, clients[i]);
      if role.Some? {
        return Ok(Some((i, role.value)));
      }
    }
    r := Ok(None);
  }

  /** The listening command up to the phase it enters: the check of the offered value, then the accept loop. */
  method Listen(slate: SwapSlate, own: string, clients: seq<Stream>) returns (r: Result<Option<(nat, Role)>>)
    requires forall i, j :: 0 <= i < j < |clients| ==> clients[i] != clients[j]
    modifies clients
    ensures var check := ListenCheck(old(slate.pub), old(slate.coins), old(slate.inputs));
            && (check.Err? ==> r == Err(check.error) && forall i :: 0 <= i < |clients| ==> unchanged(clients[i]))
            && (r.Ok? ==> check.Ok?)
    ensures r.Ok? && r.value.Some? ==>
              var (i, role) := r.value.value;
              && i < |clients|
              && Chosen(old(slate.pub), own, old(clients[i].incoming), role)
              && forall j :: 0 <= j < i ==> Rejected(old(slate.pub), own, old(clients[j].incoming))
  {
    hide Sum, Rejected, Chosen;
    ValuesNatural(slate.coins);
    var value := OfferedValue(slate);
    if value.None? {
      return Err(Overflow);
    }
    var wanted := if slate.pub.mw.offered then slate.pub.mw.amount else slate.pub.btc.amount;
    if slate.pub.status != SETUP && value.value < wanted {
      return Err(TooLittleValue);
    }
    ghost var before := seq(|clients|, i requires 0 <= i < |clients| reads clients => clients[i].incoming);
    assert forall j :: 0 <= j < |clients| ==> before[j] == old(clients[j].incoming);
    r := Accept(slate.pub, own, clients);
    if r.Ok? && r.value.Some? {
      assert Chosen(slate.pub, own, before[r.value.value.0], r.value.value.1);
    }
  }

  /** The connecting side: offer the checksum, read the reply, check the status, announce the command. */
  method Connect(c: Command, pub: PubSlate, own: string, st: Stream) returns (r: Result<Role>)
    modifies st
    ensures old(st.heard) <= st.heard
    ensures Computes(r, ConnectorRole(c, pub, Nth(Since(old(st.heard), st.heard), 0)), st.broken)
    ensures r.Ok? ==>
              st.said == old(st.said) + [Text(own)] +
                         if c.LockCommand? then [] else [ConnectorSays(c, pub, Nth(Since(old(st.heard), st.heard), 0))]
  {
    var _ :- st.SendMsg(Text(own));
    var reply := st.ReceiveMsg();
    assert Since(old(st.heard), st.heard) == [reply];
    if reply != Text("OK") {
      return Err(ChecksumMismatch);
    } else if pub.status != Wanted(c) {
      return Err(WrongStatus);
    }
    match c
    case LockCommand => r := Ok(if pub.btc.offered then LockMw else LockBtc);
    case ExecuteCommand =>
      var _ :- st.SendMsg(Text("EXECUTE"));
      r := Ok(if pub.btc.offered then ExecMw else ExecBtc);
    case CancelCommand =>
      var _ :- st.SendMsg(Text("CANCEL"));
      r := Ok(if pub.btc.offered then RefundMw else RefundBtc);
  }
}
