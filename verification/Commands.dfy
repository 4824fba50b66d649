/** The commands that drive a swap: the handshake over the public slate's checksum, and which phase and role each
    side enters after it. */
module Commands {
  import opened Wrappers
  import opened Curve
  import opened Tcp
  import opened Endpoints
  import opened SwapState
  import opened Locking
  import opened Execution

  datatype Command = LockCommand | ExecuteCommand | CancelCommand

  datatype Role = LockMw | LockBtc | ExecMw | ExecBtc | RefundMw | RefundBtc

  /** The role of the other party in the same phase. */
  function Complement(r: Role): Role {
    match r
    case LockMw => LockBtc
    case LockBtc => LockMw
    case ExecMw => ExecBtc
    case ExecBtc => ExecMw
    case RefundMw => RefundBtc
    case RefundBtc => RefundMw
  }

  /** The status a command insists on. */
  function Wanted(c: Command): Status { if c.LockCommand? then INITIALIZED else SETUP }

  // ---------------------------------------------------------------- the connecting side

  /** What the connecting side does with the reply to its checksum. The party that did not offer plays the other
      currency's role. */
  function ConnectorRole(c: Command, pub: PubSlate, reply: Msg): Result<Role> {
    if reply != Text("OK") then Err(ChecksumMismatch)
    else if pub.status != Wanted(c) then Err(WrongStatus)
    else Ok(match c
            case LockCommand => if pub.btc.offered then LockMw else LockBtc
            case ExecuteCommand => if pub.btc.offered then ExecMw else ExecBtc
            case CancelCommand => if pub.btc.offered then RefundMw else RefundBtc)
  }

  /** The line the connecting side sends next: a command after a good reply, nothing when it has stopped. */
  function ConnectorSays(c: Command, pub: PubSlate, reply: Msg): Msg {
    if ConnectorRole(c, pub, reply).Err? then Closed
    else match c
         case LockCommand => Closed
         case ExecuteCommand => Text("EXECUTE")
         case CancelCommand => Text("CANCEL")
  }

  // ---------------------------------------------------------------- the listening side

  function Reply(own: string, theirs: Msg): Msg { if theirs == Text(own) then Text("OK") else Text("FAULT") }

  /** What the listening side does after a matching checksum: it sets up when nothing is set up yet, whatever the
      peer wanted; otherwise it executes on the word EXECUTE and refunds on anything else. */
  function ListenerRole(pub: PubSlate, own: string, theirs: Msg, next: Msg): Option<Role> {
    if theirs != Text(own) then None
    else if pub.status == INITIALIZED then Some(if pub.btc.offered then LockBtc else LockMw)
    else if pub.status == SETUP then
      Some(if next == Text("EXECUTE") then (if pub.btc.offered then ExecBtc else ExecMw)
           else (if pub.btc.offered then RefundBtc else RefundMw))
    else None
  }

  // ---------------------------------------------------------------- both sides

  /** The two roles a handshake leads to. */
  function Handshake(sum: PubSlate -> string, c: Command, connector: PubSlate, listener: PubSlate)
    : (Result<Role>, Option<Role>)
  {
    var reply := Reply(sum(listener), Text(sum(connector)));
    (ConnectorRole(c, connector, reply),
     ListenerRole(listener, sum(listener), Text(sum(connector)), ConnectorSays(c, connector, reply)))
  }

  ghost predicate Injective(sum: PubSlate -> string) { forall s, t :: sum(s) == sum(t) ==> s == t }

  /** The connecting side enters a role exactly when the slates are equal and the status suits its command, and
      then the listener enters the complementary role of the same phase. The listener enters a role by itself
      exactly when the slates are equal but the command does not suit them: it then starts to set up, or it refunds. */
  lemma DispatchExact(sum: PubSlate -> string, c: Command, connector: PubSlate, listener: PubSlate)
    requires Injective(sum)
    ensures var (mine, theirs) := Handshake(sum, c, connector, listener);
            && (mine.Ok? <==> connector == listener && connector.status == Wanted(c))
            && (mine.Ok? ==> theirs == Some(Complement(mine.value)))
            && (mine.Err? && theirs.Some? <==>
                  connector == listener && connector.status != Wanted(c)
                      && (connector.status == INITIALIZED || connector.status == SETUP))
            && (mine.Err? && theirs.Some? ==>
                  theirs.value == (if connector.status == INITIALIZED
                                   then (if listener.btc.offered then LockBtc else LockMw)
                                   else (if listener.btc.offered then RefundBtc else RefundMw)))
  {
  }

  /** Completed phases leave slates on which the next handshake succeeds: after the setup for execution and
      cancellation, after either of those for nothing. */
  lemma NextHandshake(sum: PubSlate -> string, a: MwSide, b: BtcSide, c: Command, status: Status)
    requires Injective(sum) && (status == FINISHED || status == FAILED)
    ensures var s := AgreedSlate(a, b);
            && (Handshake(sum, c, s, s).0.Ok? <==> c.ExecuteCommand? || c.CancelCommand?)
            && Handshake(sum, c, s.(status := status), s.(status := status)).0.Err?
            && Handshake(sum, c, s.(status := status), s.(status := status)).1.None?
  {
    hide PointOf;
    var s := AgreedSlate(a, b);
    DispatchExact(sum, c, s, s);
    DispatchExact(sum, c, s.(status := status), s.(status := status));
  }

  // ---------------------------------------------------------------- sessions on the line

  function Offer(sum: string): seq<Action<Msg>> { [Send(h => Text(sum)), Recv] }

  function Answer(sum: string): seq<Action<Msg>> { [Recv, Send(h => Reply(sum, Nth(h, 0)))] }

  function OfferWith(sum: string, word: string): seq<Action<Msg>> {
    [Send(h => Text(sum)), Recv, Send(h => Text(word))]
  }

  function AnswerWith(sum: string): seq<Action<Msg>> { [Recv, Send(h => Reply(sum, Nth(h, 0))), Recv] }

  lemma OfferTalk(sum: string)
    ensures Dual(Offer(sum), Answer(sum))
    ensures Talk(Offer(sum), Answer(sum), 2) == ([Text("OK")], [Text(sum)])
  {
    var p, q := Offer(sum), Answer(sum);
    TalkLengths(p, q, 0);
    TalkStep(p, q, 0);
    assert Talk(p, q, 1).1 == [Text(sum)] && Talk(p, q, 1).0 == [];
    TalkStep(p, q, 1);
    assert Talk(p, q, 2).0 == [Text("OK")];
  }

  lemma OfferWithTalk(sum: string, word: string)
    ensures Dual(OfferWith(sum, word), AnswerWith(sum))
    ensures Talk(OfferWith(sum, word), AnswerWith(sum), 3) == ([Text("OK")], [Text(sum), Text(word)])
  {
    var p, q := OfferWith(sum, word), AnswerWith(sum);
    TalkLengths(p, q, 0);
    TalkStep(p, q, 0);
    assert Talk(p, q, 1).1 == [Text(sum)] && Talk(p, q, 1).0 == [];
    TalkStep(p, q, 1);
    assert Talk(p, q, 2).0 == [Text("OK")] && Talk(p, q, 2).1 == [Text(sum)];
    TalkStep(p, q, 2);
    assert Talk(p, q, 3).1 == [Text(sum), Text(word)];
  }

  /** A whole setup session, whichever party connects: handshake and phase are dual over their full length, and
      the phase hears exactly what it would hear alone. */
  lemma LockSessionTalk(sum: string, p: seq<Action<Msg>>, q: seq<Action<Msg>>)
    requires Dual(p, q)
    ensures Dual(Offer(sum) + Later(p, 1), Answer(sum) + Later(q, 1))
    ensures Talk(Offer(sum) + Later(p, 1), Answer(sum) + Later(q, 1), 2 + |p|)
         == ([Text("OK")] + Talk(p, q, |p|).0, [Text(sum)] + Talk(p, q, |p|).1)
  {
    hide Talk, Later;
    OfferTalk(sum);
    TalkAppend(Offer(sum), Answer(sum), p, q, |p|, 1, 1);
  }

  lemma ExecSessionTalk(sum: string, word: string, p: seq<Action<Msg>>, q: seq<Action<Msg>>)
    requires Dual(p, q)
    ensures Dual(OfferWith(sum, word) + Later(p, 1), AnswerWith(sum) + Later(q, 2))
    ensures Talk(OfferWith(sum, word) + Later(p, 1), AnswerWith(sum) + Later(q, 2), 3 + |p|)
         == ([Text("OK")] + Talk(p, q, |p|).0, [Text(sum), Text(word)] + Talk(p, q, |p|).1)
  {
    hide Talk, Later;
    OfferWithTalk(sum, word);
    TalkAppend(OfferWith(sum, word), AnswerWith(sum), p, q, |p|, 1, 2);
  }

  /** The four sessions that talk at length: either party may be the one that connects. */
  lemma SessionsDual(sum: string, a: MwSide, b: BtcSide, x: MwExec, y: BtcExec)
    ensures Dual(Offer(sum) + Later(MwLockProgram(a), 1), Answer(sum) + Later(BtcLockProgram(b), 1))
    ensures Dual(Offer(sum) + Later(BtcLockProgram(b), 1), Answer(sum) + Later(MwLockProgram(a), 1))
    ensures Dual(OfferWith(sum, "EXECUTE") + Later(MwExecProgram(x), 1), AnswerWith(sum) + Later(BtcExecProgram(y), 2))
    ensures Dual(OfferWith(sum, "EXECUTE") + Later(BtcExecProgram(y), 1), AnswerWith(sum) + Later(MwExecProgram(x), 2))
  {
    hide Talk, Later, MwLockProgram, BtcLockProgram, MwExecProgram, BtcExecProgram;
    LockProgramsDual(a, b);
    ExecProgramsDual(x, y);
    LockSessionTalk(sum, MwLockProgram(a), BtcLockProgram(b));
    LockSessionTalk(sum, BtcLockProgram(b), MwLockProgram(a));
    ExecSessionTalk(sum, "EXECUTE", MwExecProgram(x), BtcExecProgram(y));
    ExecSessionTalk(sum, "EXECUTE", BtcExecProgram(y), MwExecProgram(x));
  }
}
