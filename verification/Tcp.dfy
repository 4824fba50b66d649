/** Two endpoints talking over a stream of lines, where every message is answered by an ACK line before the
    sender goes on. Programs are sequences of sends and receives; what is sent may depend on everything
    received before. */
module Tcp {
  import opened Wrappers

  datatype Action<!M> = Send(make: seq<M> -> M) | Recv

  datatype Line<+M> = Data(m: M) | Ack

  /** An endpoint: its program, the next action, whether that action is half done (a message written and not
      yet acknowledged, or read and not yet answered), and the messages received so far. */
  datatype Proc<!M> = Proc(prog: seq<Action<M>>, pc: nat, mid: bool, inbox: seq<M>)

  datatype Net<!M> = Net(a: Proc<M>, b: Proc<M>, toA: seq<Line<M>>, toB: seq<Line<M>>)

  function Start<M>(p: seq<Action<M>>): Proc<M> { Proc(p, 0, false, []) }

  function Init<M>(p: seq<Action<M>>, q: seq<Action<M>>): Net<M> { Net(Start(p), Start(q), [], []) }

  // ---------------------------------------------------------------- steps

  datatype Move<!M> = Moved(p: Proc<M>, inn: seq<Line<M>>, out: seq<Line<M>>) | Blocked | Finished | Garbled

  /** One step of an endpoint on its incoming and outgoing lines. Reading takes the first line and drops the
      next `lost` lines with it. */
  function Advance<M>(p: Proc<M>, inn: seq<Line<M>>, out: seq<Line<M>>, lost: nat): Move<M>
    requires lost == 0 || lost < |inn|
  {
    if p.pc >= |p.prog| then Finished
    else if p.prog[p.pc].Send? then
      if !p.mid then Moved(p.(mid := true), inn, out + [Data(p.prog[p.pc].make(p.inbox))])
      else if |inn| == 0 then Blocked
      else if inn[0].Ack? then Moved(p.(pc := p.pc + 1, mid := false), inn[1 + lost..], out)
      else Garbled
    else
      if p.mid then Moved(p.(pc := p.pc + 1, mid := false), inn, out + [Ack])
      else if |inn| == 0 then Blocked
      else if inn[0].Data? then Moved(p.(mid := true, inbox := p.inbox + [inn[0].m]), inn[1 + lost..], out)
      else Garbled
  }

  function MoveA<M>(n: Net<M>, lost: nat): Option<Net<M>>
    requires lost == 0 || lost < |n.toA|
  {
    var r := Advance(n.a, n.toA, n.toB, lost);
    if r.Moved? then Some(Net(r.p, n.b, r.inn, r.out)) else None
  }

  function MoveB<M>(n: Net<M>, lost: nat): Option<Net<M>>
    requires lost == 0 || lost < |n.toB|
  {
    var r := Advance(n.b, n.toB, n.toA, lost);
    if r.Moved? then Some(Net(n.a, r.p, r.out, r.inn)) else None
  }

  /** A step of either endpoint when every line is kept. */
  ghost predicate Next<M(!new)>(n: Net<M>, m: Net<M>) { MoveA(n, 0) == Some(m) || MoveB(n, 0) == Some(m) }

  /** A step of either endpoint when a read may lose lines that had already arrived behind the one it wanted,
      as a buffered reader made for one line and dropped does. */
  ghost predicate NextLossy<M(!new)>(n: Net<M>, m: Net<M>) {
    || (exists k: nat :: (k == 0 || k < |n.toA|) && MoveA(n, k) == Some(m))
    || (exists k: nat :: (k == 0 || k < |n.toB|) && MoveB(n, k) == Some(m))
  }

  // ---------------------------------------------------------------- dual programs

  predicate Dual<M>(p: seq<Action<M>>, q: seq<Action<M>>) {
    |p| == |q| && forall i :: 0 <= i < |p| ==> (p[i].Send? <==> q[i].Recv?)
  }

  /** The messages each side has received after the first i actions of both programs, run in lockstep. */
  function Talk<M>(p: seq<Action<M>>, q: seq<Action<M>>, i: nat): (seq<M>, seq<M>)
    requires Dual(p, q) && i <= |p|
  {
    if i == 0 then ([], [])
    else
      var t := Talk(p, q, i - 1);
      if p[i - 1].Send? then (t.0, t.1 + [p[i - 1].make(t.0)]) else (t.0 + [q[i - 1].make(t.1)], t.1)
  }

  // ---------------------------------------------------------------- the invariant

  /** How far an exchange has come, seen from the side that sends at position i. */
  datatype Phase = Idle | Written | Read | Acked | Ahead

  /** The sender s and the receiver r of action i, with the lines towards each, in a given phase. In the last
      phase the receiver has already written its own next message behind the ACK. */
  ghost predicate At<M(!new)>(ph: Phase, s: Proc<M>, r: Proc<M>, toS: seq<Line<M>>, toR: seq<Line<M>>, i: nat,
                              inS: seq<M>, inR: seq<M>)
    requires i < |s.prog| == |r.prog| && s.prog[i].Send? && r.prog[i].Recv?
  {
    var msg := s.prog[i].make(inS);
    && s.pc == i && s.inbox == inS && s.mid == !ph.Idle?
    && match ph
       case Idle => r.pc == i && !r.mid && r.inbox == inR && toS == [] && toR == []
       case Written => r.pc == i && !r.mid && r.inbox == inR && toS == [] && toR == [Data(msg)]
       case Read => r.pc == i && r.mid && r.inbox == inR + [msg] && toS == [] && toR == []
       case Acked => r.pc == i + 1 && !r.mid && r.inbox == inR + [msg] && toS == [Ack] && toR == []
       case Ahead =>
         && i + 1 < |r.prog| && r.prog[i + 1].Send?
         && r.pc == i + 1 && r.mid && r.inbox == inR + [msg] && toR == []
         && toS == [Ack, Data(r.prog[i + 1].make(r.inbox))]
  }

  ghost predicate AtNet<M(!new)>(n: Net<M>, p: seq<Action<M>>, q: seq<Action<M>>, i: nat, ph: Phase)
    requires Dual(p, q) && i < |p|
  {
    && n.a.prog == p && n.b.prog == q
    && var t := Talk(p, q, i);
       if p[i].Send? then At(ph, n.a, n.b, n.toA, n.toB, i, t.0, t.1)
       else At(ph, n.b, n.a, n.toB, n.toA, i, t.1, t.0)
  }

  ghost predicate Over<M(!new)>(n: Net<M>, p: seq<Action<M>>, q: seq<Action<M>>)
    requires Dual(p, q)
  {
    && n.a == Proc(p, |p|, false, Talk(p, q, |p|).0)
    && n.b == Proc(q, |q|, false, Talk(p, q, |p|).1)
    && n.toA == [] && n.toB == []
  }

  ghost predicate Inv<M(!new)>(n: Net<M>, p: seq<Action<M>>, q: seq<Action<M>>)
    requires Dual(p, q)
  {
    Over(n, p, q) || exists i, ph :: 0 <= i < |p| && AtNet(n, p, q, i, ph)
  }

  lemma InitInv<M(!new)>(p: seq<Action<M>>, q: seq<Action<M>>)
    requires Dual(p, q)
    ensures Inv(Init(p, q), p, q)
  {
    if |p| > 0 {
      assert AtNet(Init(p, q), p, q, 0, Idle);
    }
  }

  /** Both endpoints at the start of action i (or finished) with nothing in flight. */
  ghost predicate Level<M(!new)>(n: Net<M>, p: seq<Action<M>>, q: seq<Action<M>>, i: nat)
    requires Dual(p, q) && i <= |p|
  {
    && n.a == Proc(p, i, false, Talk(p, q, i).0) && n.b == Proc(q, i, false, Talk(p, q, i).1)
    && n.toA == [] && n.toB == []
  }

  lemma LevelInv<M(!new)>(n: Net<M>, p: seq<Action<M>>, q: seq<Action<M>>, i: nat)
    requires Dual(p, q) && i <= |p| && Level(n, p, q, i)
    ensures Inv(n, p, q)
    ensures i < |p| ==> AtNet(n, p, q, i, Idle)
  {
    if i < |p| {
      assert AtNet(n, p, q, i, Idle);
    }
  }

  lemma MovesWithin<M(!new)>(n: Net<M>, p: seq<Action<M>>, q: seq<Action<M>>, i: nat, ph: Phase, m: Net<M>)
    requires Dual(p, q) && i < |p| && AtNet(n, p, q, i, ph) && Next(n, m)
    ensures ph.Idle? ==> AtNet(m, p, q, i, Written)
    ensures ph.Written? ==> AtNet(m, p, q, i, Read)
    ensures ph.Read? ==> AtNet(m, p, q, i, Acked)
  {
  }

  lemma MovesFromAcked<M(!new)>(n: Net<M>, p: seq<Action<M>>, q: seq<Action<M>>, i: nat, m: Net<M>)
    requires Dual(p, q) && i < |p| && AtNet(n, p, q, i, Acked) && Next(n, m)
    ensures Level(m, p, q, i + 1) || AtNet(m, p, q, i, Ahead)
  {
    var t := Talk(p, q, i + 1);
    assert n.a.inbox == t.0 && n.b.inbox == t.1;
    if p[i].Send? {
      if MoveA(n, 0) == Some(m) {
        assert Level(m, p, q, i + 1);
      } else {
        assert AtNet(m, p, q, i, Ahead);
      }
    } else {
      if MoveB(n, 0) == Some(m) {
        assert Level(m, p, q, i + 1);
      } else {
        assert AtNet(m, p, q, i, Ahead);
      }
    }
  }

  lemma MovesFromAhead<M(!new)>(n: Net<M>, p: seq<Action<M>>, q: seq<Action<M>>, i: nat, m: Net<M>)
    requires Dual(p, q) && i < |p| && AtNet(n, p, q, i, Ahead) && Next(n, m)
    ensures i + 1 < |p| && AtNet(m, p, q, i + 1, Written)
  {
    var t := Talk(p, q, i + 1);
    assert n.a.inbox == t.0 && n.b.inbox == t.1;
    assert if p[i].Send? then MoveA(n, 0) == Some(m) else MoveB(n, 0) == Some(m);
  }

  /** Every step of either endpoint keeps the invariant. */
  lemma NextInv<M(!new)>(n: Net<M>, m: Net<M>, p: seq<Action<M>>, q: seq<Action<M>>)
    requires Dual(p, q) && Inv(n, p, q) && Next(n, m)
    ensures Inv(m, p, q)
  {
    hide At, Talk;
    var i, ph :| 0 <= i < |p| && AtNet(n, p, q, i, ph);
    if ph.Acked? {
      MovesFromAcked(n, p, q, i, m);
      if Level(m, p, q, i + 1) {
        LevelInv(m, p, q, i + 1);
      }
    } else if ph.Ahead? {
      MovesFromAhead(n, p, q, i, m);
    } else {
      MovesWithin(n, p, q, i, ph, m);
    }
  }

  // ---------------------------------------------------------------- progress

  ghost predicate CanMove<M(!new)>(n: Net<M>) { MoveA(n, 0).Some? || MoveB(n, 0).Some? }

  /** Half-steps left to do. */
  function WorkOf<M>(p: Proc<M>): int { 2 * (|p.prog| - p.pc) - if p.mid then 1 else 0 }

  function Work<M>(n: Net<M>): int { WorkOf(n.a) + WorkOf(n.b) }

  lemma PhaseProgress<M(!new)>(ph: Phase, s: Proc<M>, r: Proc<M>, toS: seq<Line<M>>, toR: seq<Line<M>>, i: nat,
                               inS: seq<M>, inR: seq<M>)
    requires i < |s.prog| == |r.prog| && s.prog[i].Send? && r.prog[i].Recv? && At(ph, s, r, toS, toR, i, inS, inR)
    ensures var ms, mr := Advance(s, toS, toR, 0), Advance(r, toR, toS, 0);
            && (ms.Moved? || mr.Moved?) && !ms.Garbled? && !mr.Garbled?
            && (ms.Moved? ==> WorkOf(ms.p) == WorkOf(s) - 1)
            && (mr.Moved? ==> WorkOf(mr.p) == WorkOf(r) - 1)
            && WorkOf(s) + WorkOf(r) > 0
  {
  }

  /** Short of the end somebody can always move, nobody ever reads a message where it expects an ACK or the
      other way round, and one half-step of work disappears at every step. */
  lemma Progress<M(!new)>(n: Net<M>, p: seq<Action<M>>, q: seq<Action<M>>)
    requires Dual(p, q) && Inv(n, p, q)
    ensures Over(n, p, q) || CanMove(n)
    ensures !Advance(n.a, n.toA, n.toB, 0).Garbled? && !Advance(n.b, n.toB, n.toA, 0).Garbled?
    ensures Over(n, p, q) <==> Work(n) == 0
    ensures forall m :: Next(n, m) ==> Work(m) == Work(n) - 1
  {
    hide Talk, At;
    if !Over(n, p, q) {
      var i, ph :| 0 <= i < |p| && AtNet(n, p, q, i, ph);
      var t := Talk(p, q, i);
      hide Advance, WorkOf;
      if p[i].Send? {
        PhaseProgress(ph, n.a, n.b, n.toA, n.toB, i, t.0, t.1);
      } else {
        PhaseProgress(ph, n.b, n.a, n.toB, n.toA, i, t.1, t.0);
      }
    }
  }

  ghost predicate IsRun<M(!new)>(run: seq<Net<M>>, p: seq<Action<M>>, q: seq<Action<M>>) {
    && |run| > 0 && run[0] == Init(p, q)
    && forall k :: 0 <= k < |run| - 1 ==> Next(run[k], run[k + 1])
  }

  /** Deadlock freedom for programs of any length and every schedule: each state of each run keeps the
      invariant, a run can always be continued until both programs are over, and it takes exactly four
      half-steps per message to get there. */
  lemma {:induction false} DualProgramsComplete<M(!new)>(run: seq<Net<M>>, p: seq<Action<M>>, q: seq<Action<M>>)
    requires Dual(p, q) && IsRun(run, p, q)
    ensures Inv(run[|run| - 1], p, q)
    ensures |run| - 1 + Work(run[|run| - 1]) == 4 * |p|
    ensures Over(run[|run| - 1], p, q) || CanMove(run[|run| - 1])
    ensures |run| - 1 <= 4 * |p|
    ensures |run| - 1 == 4 * |p| <==> Over(run[|run| - 1], p, q)
  {
    hide Inv, Over, Talk, At, Advance;
    var last := run[|run| - 1];
    if |run| == 1 {
      InitInv(p, q);
    } else {
      var init := run[..|run| - 1];
      assert run[|run| - 2] == init[|init| - 1] && Next(run[|run| - 2], run[|run| - 1]);
      DualProgramsComplete(init, p, q);
      Progress(run[|run| - 2], p, q);
      NextInv(run[|run| - 2], last, p, q);
    }
    Progress(last, p, q);
    WorkNonNegative(last, p, q);
  }

  lemma WorkNonNegative<M(!new)>(n: Net<M>, p: seq<Action<M>>, q: seq<Action<M>>)
    requires Dual(p, q) && Inv(n, p, q)
    ensures Work(n) >= 0
  {
    hide Talk;
    if !Over(n, p, q) {
      var i, ph :| 0 <= i < |p| && AtNet(n, p, q, i, ph);
    }
  }

  /** Whatever the schedule, a finished run has delivered the lockstep conversation, each message at the
      position it was sent for, and left no line behind. */
  lemma FinishedRunsAgree<M(!new)>(run: seq<Net<M>>, p: seq<Action<M>>, q: seq<Action<M>>)
    requires Dual(p, q) && IsRun(run, p, q) && !CanMove(run[|run| - 1])
    ensures var last := run[|run| - 1];
            && last.a.inbox == Talk(p, q, |p|).0 && last.b.inbox == Talk(p, q, |p|).1
            && last.a.pc == last.b.pc == |p| && last.toA == [] && last.toB == []
  {
    hide Talk;
    DualProgramsComplete(run, p, q);
  }

  // ---------------------------------------------------------------- reading a conversation

  /** How many of the first i actions are receives. */
  function Heard<M>(p: seq<Action<M>>, i: nat): nat
    requires i <= |p|
  {
    if i == 0 then 0 else Heard(p, i - 1) + if p[i - 1].Recv? then 1 else 0
  }

  lemma {:induction false} TalkLengths<M>(p: seq<Action<M>>, q: seq<Action<M>>, i: nat)
    requires Dual(p, q) && i <= |p|
    ensures |Talk(p, q, i).0| == Heard(p, i) <= i && |Talk(p, q, i).1| == i - Heard(p, i)
  {
    if i > 0 {
      TalkLengths(p, q, i - 1);
    }
  }

  lemma {:induction false} TalkExtends<M>(p: seq<Action<M>>, q: seq<Action<M>>, i: nat, j: nat)
    requires Dual(p, q) && i <= j <= |p|
    ensures Talk(p, q, i).0 <= Talk(p, q, j).0 && Talk(p, q, i).1 <= Talk(p, q, j).1
  {
    if i < j {
      TalkExtends(p, q, i, j - 1);
    }
  }

  /** The message of action i, in the finished conversation, is what its sender makes of all it had received. */
  lemma TalkSays<M>(p: seq<Action<M>>, q: seq<Action<M>>, i: nat)
    requires Dual(p, q) && i < |p|
    ensures Heard(p, i) <= i && Heard(p, i) <= |Talk(p, q, |p|).0| && i - Heard(p, i) <= |Talk(p, q, |p|).1|
    ensures p[i].Send? ==>
              i - Heard(p, i) < |Talk(p, q, |p|).1|
              && Talk(p, q, |p|).1[i - Heard(p, i)] == p[i].make(Talk(p, q, |p|).0[..Heard(p, i)])
    ensures p[i].Recv? ==>
              Heard(p, i) < |Talk(p, q, |p|).0|
              && Talk(p, q, |p|).0[Heard(p, i)] == q[i].make(Talk(p, q, |p|).1[..i - Heard(p, i)])
  {
    TalkLengths(p, q, i);
    TalkExtends(p, q, i, |p|);
    TalkExtends(p, q, i + 1, |p|);
    var t := Talk(p, q, |p|);
    assert t.0[..Heard(p, i)] == Talk(p, q, i).0 && t.1[..i - Heard(p, i)] == Talk(p, q, i).1;
  }

  /** A program run after n messages have been received: it does not look at them. */
  function Later<M>(p: seq<Action<M>>, n: nat): seq<Action<M>> {
    seq(|p|, i requires 0 <= i < |p| =>
      if p[i].Recv? then Recv else Send(h => p[i].make(if n <= |h| then h[n..] else [])))
  }

  lemma DualAppend<M>(p: seq<Action<M>>, q: seq<Action<M>>, p': seq<Action<M>>, q': seq<Action<M>>, m: nat, n: nat)
    requires Dual(p, q) && Dual(p', q')
    ensures Dual(p + Later(p', m), q + Later(q', n))
  {
  }

  lemma TalkStep<M>(p: seq<Action<M>>, q: seq<Action<M>>, i: nat)
    requires Dual(p, q) && i < |p|
    ensures Talk(p, q, i + 1) ==
      var t := Talk(p, q, i);
      if p[i].Send? then (t.0, t.1 + [p[i].make(t.0)]) else (t.0 + [q[i].make(t.1)], t.1)
  {
  }

  lemma TalkAppendStep<M>(p: seq<Action<M>>, q: seq<Action<M>>, p': seq<Action<M>>, q': seq<Action<M>>, i: nat,
                          a: seq<M>, b: seq<M>, a': seq<M>, b': seq<M>)
    requires Dual(p, q) && Dual(p', q') && i < |p'|
    ensures var P, Q := p + Later(p', |a|), q + Later(q', |b|);
            && |P| == |p| + |p'| && |Q| == |q| + |q'|
            && (P[|p| + i].Send? <==> p'[i].Send?) && (P[|p| + i].Recv? <==> p'[i].Recv?)
            && (p'[i].Send? ==> P[|p| + i].make(a + a') == p'[i].make(a'))
            && (p'[i].Recv? ==> Q[|p| + i].Send? && q'[i].Send? && Q[|p| + i].make(b + b') == q'[i].make(b'))
  {
    assert (a + a')[|a|..] == a' && (b + b')[|b|..] == b';
  }

  /** Programs run one after the other talk as each pair would alone. */
  lemma {:induction false} TalkAppend<M>(p: seq<Action<M>>, q: seq<Action<M>>, p': seq<Action<M>>, q': seq<Action<M>>,
                                         i: nat, m: nat, n: nat)
    requires Dual(p, q) && Dual(p', q') && i <= |p'| && m == |Talk(p, q, |p|).0| && n == |Talk(p, q, |p|).1|
    ensures Dual(p + Later(p', m), q + Later(q', n))
    ensures var first, second := Talk(p, q, |p|), Talk(p', q', i);
            Talk(p + Later(p', m), q + Later(q', n), |p| + i) == (first.0 + second.0, first.1 + second.1)
  {
    hide Talk, Later;
    DualAppend(p, q, p', q', m, n);
    var P, Q := p + Later(p', m), q + Later(q', n);
    if i == 0 {
      TalkPrefix(p, q, P, Q, |p|);
      TalkLengths(p', q', 0);
      var first, second := Talk(p, q, |p|), Talk(p', q', 0);
      assert first.0 + second.0 == first.0 && first.1 + second.1 == first.1;
    } else {
      TalkAppend(p, q, p', q', i - 1, m, n);
      var first, before := Talk(p, q, |p|), Talk(p', q', i - 1);
      TalkAppendStep(p, q, p', q', i - 1, first.0, first.1, before.0, before.1);
      hide Dual;
      TalkStep(P, Q, |p| + i - 1);
      TalkStep(p', q', i - 1);
      var after := Talk(p', q', i);
      assert p'[i - 1].Send? ==> first.1 + before.1 + [p'[i - 1].make(before.0)] == first.1 + after.1;
      assert p'[i - 1].Recv? ==> first.0 + before.0 + [q'[i - 1].make(before.1)] == first.0 + after.0;
    }
  }

  lemma {:induction false} TalkPrefix<M>(p: seq<Action<M>>, q: seq<Action<M>>, P: seq<Action<M>>, Q: seq<Action<M>>,
                                         i: nat)
    requires Dual(p, q) && Dual(P, Q) && i <= |p| <= |P| && P[..|p|] == p && Q[..|p|] == q
    ensures Talk(P, Q, i) == Talk(p, q, i)
  {
    if i > 0 {
      TalkPrefix(p, q, P, Q, i - 1);
      assert P[i - 1] == p[i - 1] && Q[i - 1] == q[i - 1];
    }
  }

  /** How many actions an endpoint has the messages of. */
  function Reached<M>(p: Proc<M>): nat {
    if p.mid && p.pc < |p.prog| && p.prog[p.pc].Recv? then p.pc + 1 else p.pc
  }

  lemma HeardInPhase<M(!new)>(ph: Phase, s: Proc<M>, r: Proc<M>, toS: seq<Line<M>>, toR: seq<Line<M>>, i: nat,
                              inS: seq<M>, inR: seq<M>)
    requires i < |s.prog| == |r.prog| && s.prog[i].Send? && r.prog[i].Recv? && At(ph, s, r, toS, toR, i, inS, inR)
    ensures Reached(s) == i && s.inbox == inS
    ensures (Reached(r) == i && r.inbox == inR) || (Reached(r) == i + 1 && r.inbox == inR + [s.prog[i].make(inS)])
  {
  }

  /** At every moment each endpoint has heard exactly its part of the conversation up to where it is. */
  lemma HeardSoFar<M(!new)>(n: Net<M>, p: seq<Action<M>>, q: seq<Action<M>>)
    requires Dual(p, q) && Inv(n, p, q)
    ensures n.a.prog == p && n.b.prog == q
    ensures Reached(n.a) <= |p| && n.a.inbox == Talk(p, q, Reached(n.a)).0
    ensures Reached(n.b) <= |p| && n.b.inbox == Talk(p, q, Reached(n.b)).1
  {
    hide At;
    if !Over(n, p, q) {
      var i, ph :| 0 <= i < |p| && AtNet(n, p, q, i, ph);
      var t := Talk(p, q, i);
      assert Talk(p, q, i + 1) == if p[i].Send? then (t.0, t.1 + [p[i].make(t.0)]) else (t.0 + [q[i].make(t.1)], t.1);
      hide Talk, Reached;
      if p[i].Send? {
        HeardInPhase(ph, n.a, n.b, n.toA, n.toB, i, t.0, t.1);
      } else {
        HeardInPhase(ph, n.b, n.a, n.toB, n.toA, i, t.1, t.0);
      }
    }
  }

  /** An endpoint that has come to the end has heard its whole part, whatever became of the other one; and if it
      had the last word, the other has heard everything too. */
  lemma EndHeard<M(!new)>(n: Net<M>, p: seq<Action<M>>, q: seq<Action<M>>)
    requires Dual(p, q) && Inv(n, p, q)
    ensures n.a.prog == p && n.b.prog == q
    ensures n.a.pc == |p| && !n.a.mid ==> n.a.inbox == Talk(p, q, |p|).0
    ensures n.b.pc == |q| && !n.b.mid ==> n.b.inbox == Talk(p, q, |p|).1
    ensures n.b.pc == |q| && !n.b.mid && |q| > 0 && q[|q| - 1].Send? ==> n.a.inbox == Talk(p, q, |p|).0 && n.a.pc == |p|
    ensures n.a.pc == |p| && !n.a.mid && |p| > 0 ==> n.b.pc + 1 >= |p| && (n.b.pc + 1 == |p| ==> n.b.mid)
  {
    if !Over(n, p, q) {
      var i, ph :| 0 <= i < |p| && AtNet(n, p, q, i, ph);
      if i == |p| - 1 {
        var t := Talk(p, q, i);
        assert Talk(p, q, |p|) == if p[i].Send? then (t.0, t.1 + [p[i].make(t.0)]) else (t.0 + [q[i].make(t.1)], t.1);
      }
    }
  }

  // ---------------------------------------------------------------- a reader that reads ahead

  /** All messages go the same way. */
  predicate OneWay<M>(p: seq<Action<M>>) {
    forall i :: 0 <= i < |p| - 1 ==> (p[i].Send? <==> p[i + 1].Send?)
  }

  ghost predicate IsLossyRun<M(!new)>(run: seq<Net<M>>, p: seq<Action<M>>, q: seq<Action<M>>) {
    && |run| > 0 && run[0] == Init(p, q)
    && forall k :: 0 <= k < |run| - 1 ==> NextLossy(run[k], run[k + 1])
  }

  ghost predicate Stuck<M(!new)>(n: Net<M>) {
    (n.a.pc < |n.a.prog| || n.b.pc < |n.b.prog|) && forall m :: !NextLossy(n, m)
  }

  /** With one-way traffic at most one line is ever in flight, so reading ahead loses nothing. */
  lemma OneWayIsLossless<M(!new)>(n: Net<M>, p: seq<Action<M>>, q: seq<Action<M>>, m: Net<M>)
    requires Dual(p, q) && OneWay(p) && Inv(n, p, q) && NextLossy(n, m)
    ensures Next(n, m)
  {
    hide Talk;
    var i, ph :| 0 <= i < |p| && AtNet(n, p, q, i, ph);
    assert !ph.Ahead?;
    assert |n.toA| <= 1 && |n.toB| <= 1;
  }

  lemma ExtendRun<M(!new)>(run: seq<Net<M>>, m: Net<M>, p: seq<Action<M>>, q: seq<Action<M>>)
    requires IsRun(run, p, q) && Next(run[|run| - 1], m)
    ensures IsRun(run + [m], p, q)
  {
    hide Next, Init;
    var longer := run + [m];
    forall k | 0 <= k < |longer| - 1 ensures Next(longer[k], longer[k + 1]) {
      if k < |run| - 1 {
        assert longer[k] == run[k] && longer[k + 1] == run[k + 1];
      }
    }
  }

  lemma {:induction false} OneWaySafe<M(!new)>(run: seq<Net<M>>, p: seq<Action<M>>, q: seq<Action<M>>)
    requires Dual(p, q) && OneWay(p) && IsLossyRun(run, p, q)
    ensures IsRun(run, p, q)
  {
    hide Inv, Over, Next, NextLossy;
    if |run| > 1 {
      var init := run[..|run| - 1];
      forall k | 0 <= k < |init| - 1 ensures NextLossy(init[k], init[k + 1]) {
        assert init[k] == run[k] && init[k + 1] == run[k + 1];
      }
      OneWaySafe(init, p, q);
      DualProgramsComplete(init, p, q);
      assert NextLossy(run[|run| - 2], run[|run| - 1]);
      OneWayIsLossless(run[|run| - 2], p, q, run[|run| - 1]);
      ExtendRun(init, run[|run| - 1], p, q);
      assert run == init + [run[|run| - 1]];
    }
  }

  // ---------------------------------------------------------------- building schedules

  /** The sender takes its ACK before the receiver writes anything else. */
  lemma SenderReads<M(!new)>(n: Net<M>, p: seq<Action<M>>, q: seq<Action<M>>, i: nat) returns (m: Net<M>)
    requires Dual(p, q) && i < |p| && AtNet(n, p, q, i, Acked)
    ensures Next(n, m) && Level(m, p, q, i + 1)
  {
    var t := Talk(p, q, i + 1);
    assert n.a.inbox == t.0 && n.b.inbox == t.1;
    m := if p[i].Send? then MoveA(n, 0).value else MoveB(n, 0).value;
  }

  /** Or the receiver, whose turn it is to send, writes first. */
  lemma ReceiverWrites<M(!new)>(n: Net<M>, p: seq<Action<M>>, q: seq<Action<M>>, i: nat) returns (m: Net<M>)
    requires Dual(p, q) && i + 1 < |p| && AtNet(n, p, q, i, Acked) && (p[i].Send? <==> p[i + 1].Recv?)
    ensures Next(n, m) && AtNet(m, p, q, i, Ahead)
  {
    hide Talk;
    m := if p[i].Send? then MoveB(n, 0).value else MoveA(n, 0).value;
  }

  lemma StepOn<M(!new)>(run: seq<Net<M>>, p: seq<Action<M>>, q: seq<Action<M>>, i: nat,
                        ph: Phase) returns (longer: seq<Net<M>>)
    requires Dual(p, q) && i < |p| && IsRun(run, p, q) && AtNet(run[|run| - 1], p, q, i, ph)
    requires ph.Idle? || ph.Written? || ph.Read?
    ensures IsRun(longer, p, q)
    ensures AtNet(longer[|longer| - 1], p, q, i, match ph case Idle => Written case Written => Read case _ => Acked)
  {
    hide At, Talk, Advance;
    var n := run[|run| - 1];
    Progress(n, p, q) by { assert Inv(n, p, q); }
    assert !Over(n, p, q) by { NotOver(n, p, q, i, ph); }
    var m := if MoveA(n, 0).Some? then MoveA(n, 0).value else MoveB(n, 0).value;
    MovesWithin(n, p, q, i, ph, m);
    ExtendRun(run, m, p, q);
    longer := run + [m];
  }

  lemma NotOver<M(!new)>(n: Net<M>, p: seq<Action<M>>, q: seq<Action<M>>, i: nat, ph: Phase)
    requires Dual(p, q) && i < |p| && AtNet(n, p, q, i, ph)
    ensures !Over(n, p, q)
  {
    hide Talk;
  }

  lemma ReachAcked<M(!new)>(run: seq<Net<M>>, p: seq<Action<M>>, q: seq<Action<M>>,
                            i: nat) returns (longer: seq<Net<M>>)
    requires Dual(p, q) && i < |p| && IsRun(run, p, q) && Level(run[|run| - 1], p, q, i)
    ensures IsRun(longer, p, q) && AtNet(longer[|longer| - 1], p, q, i, Acked)
  {
    hide At, Talk, Next, Advance;
    LevelInv(run[|run| - 1], p, q, i);
    longer := StepOn(run, p, q, i, Idle);
    longer := StepOn(longer, p, q, i, Written);
    longer := StepOn(longer, p, q, i, Read);
  }

  lemma {:induction false} ReachLevel<M(!new)>(p: seq<Action<M>>, q: seq<Action<M>>, i: nat) returns (run: seq<Net<M>>)
    requires Dual(p, q) && i <= |p|
    ensures IsRun(run, p, q) && Level(run[|run| - 1], p, q, i)
  {
    if i == 0 {
      run := [Init(p, q)];
    } else {
      run := ReachLevel(p, q, i - 1);
      run := ReachAcked(run, p, q, i - 1);
      var m := SenderReads(run[|run| - 1], p, q, i - 1);
      ExtendRun(run, m, p, q);
      run := run + [m];
    }
  }

  /** Where the direction turns, the ACK and the next message can arrive together; a reader that drops what it
      read ahead then leaves both sides waiting for ever. */
  lemma LosingReadSticks<M(!new)>(n: Net<M>, p: seq<Action<M>>, q: seq<Action<M>>, i: nat) returns (m: Net<M>)
    requires Dual(p, q) && i < |p| && AtNet(n, p, q, i, Ahead)
    ensures NextLossy(n, m) && Stuck(m)
  {
    hide Talk;
    if p[i].Send? {
      m := MoveA(n, 1).value;
      assert m.toA == [] && m.toB == [];
    } else {
      m := MoveB(n, 1).value;
      assert m.toA == [] && m.toB == [];
    }
  }

  lemma RunIsLossyRun<M(!new)>(run: seq<Net<M>>, m: Net<M>, p: seq<Action<M>>, q: seq<Action<M>>)
    requires IsRun(run, p, q) && NextLossy(run[|run| - 1], m)
    ensures IsLossyRun(run + [m], p, q)
  {
    hide Advance;
    var longer := run + [m];
    forall k | 0 <= k < |longer| - 1 ensures NextLossy(longer[k], longer[k + 1]) {
      if k < |run| - 1 {
        assert longer[k] == run[k] && longer[k + 1] == run[k + 1];
        assert Next(run[k], run[k + 1]);
      }
    }
  }

  lemma TurnaroundSticks<M(!new)>(p: seq<Action<M>>, q: seq<Action<M>>, i: nat) returns (run: seq<Net<M>>)
    requires Dual(p, q) && i + 1 < |p| && (p[i].Send? <==> p[i + 1].Recv?)
    ensures IsLossyRun(run, p, q) && Stuck(run[|run| - 1])
  {
    hide At, Talk, Next, NextLossy, Stuck, Advance;
    run := ReachLevel(p, q, i);
    run := ReachAcked(run, p, q, i);
    var w := ReceiverWrites(run[|run| - 1], p, q, i);
    ExtendRun(run, w, p, q);
    run := run + [w];
    var m := LosingReadSticks(w, p, q, i);
    RunIsLossyRun(run, m, p, q);
    run := run + [m];
  }

  /** With a reader that may drop what it read ahead, two dual programs are free of deadlock exactly when all
      their messages go one way. */
  lemma ReadAheadExact<M(!new)>(p: seq<Action<M>>, q: seq<Action<M>>)
    requires Dual(p, q)
    ensures OneWay(p) <==> forall run :: IsLossyRun(run, p, q) ==> !Stuck(run[|run| - 1])
  {
    hide NextLossy, Next, Advance, Inv, Over;
    if OneWay(p) {
      forall run | IsLossyRun(run, p, q) ensures !Stuck(run[|run| - 1]) {
        OneWaySafe(run, p, q);
        DualProgramsComplete(run, p, q);
        NotStuck(run[|run| - 1], p, q);
      }
    } else {
      var i :| 0 <= i < |p| - 1 && !(p[i].Send? <==> p[i + 1].Send?);
      var run := TurnaroundSticks(p, q, i);
    }
  }

  lemma NotStuck<M(!new)>(n: Net<M>, p: seq<Action<M>>, q: seq<Action<M>>)
    requires Dual(p, q) && Inv(n, p, q)
    ensures !Stuck(n)
  {
    hide Talk;
    Progress(n, p, q);
    if CanMove(n) {
      var m := if MoveA(n, 0).Some? then MoveA(n, 0).value else MoveB(n, 0).value;
      assert NextLossy(n, m);
    }
  }
}
