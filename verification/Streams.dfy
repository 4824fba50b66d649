/** One party's end of the connection: writing a message and waiting for its ACK, reading one and answering it. */
module Streams {
  import opened Wrappers
  import opened Tcp
  import opened Endpoints

  /** The lines still to come from the peer, the lines written so far, whether an exchange has gone wrong, and the
      messages heard and said. Running out of lines means that the peer has stopped. */
  class Stream {
    var incoming: seq<Line<Msg>>
    var written: seq<Line<Msg>>
    var broken: bool
    ghost var heard: seq<Msg>
    ghost var said: seq<Msg>

    constructor (lines: seq<Line<Msg>>)
      ensures incoming == lines && written == [] && !broken && heard == [] && said == []
    {
      incoming, written, broken, heard, said := lines, [], false, [], [];
    }

    method ReadLine() returns (line: Option<Line<Msg>>)
      modifies this`incoming
      ensures old(incoming) == [] ==> line == None && incoming == []
      ensures old(incoming) != [] ==> line == Some(old(incoming)[0]) && incoming == old(incoming)[1..]
    {
      if |incoming| == 0 {
        return None;
      }
      line := Some(incoming[0]);
      incoming := incoming[1..];
    }

    /** The message goes out; anything but an ACK in return stops the party. */
    method SendMsg(m: Msg) returns (r: Result<()>)
      modifies this
      ensures written == old(written) + [Data(m)] && said == old(said) + [m] && heard == old(heard)
      ensures r.Ok? <==> old(incoming) != [] && old(incoming)[0] == Ack
      ensures r.Ok? ==> incoming == old(incoming)[1..]
      ensures broken == (old(broken) || r.Err?)
    {
      written := written + [Data(m)];
      said := said + [m];
      var line := ReadLine();
      if line != Some(Ack) {
        broken := true;
        return Err(NoAcknowledgement);
      }
      r := Ok(());
    }

    /** The next line is the message, whatever it is; it is acknowledged unless the peer has stopped. */
    method ReceiveMsg() returns (m: Msg)
      modifies this
      ensures heard == old(heard) + [m] && said == old(said)
      ensures old(incoming) == [] ==> m == Closed && written == old(written) && broken
      ensures old(incoming) != [] ==> incoming == old(incoming)[1..] && written == old(written) + [Ack]
      ensures old(incoming) != [] ==> broken == old(broken)
      ensures old(incoming) != [] ==> m == if old(incoming)[0].Data? then old(incoming)[0].m else Text("ACK")
    {
      var line := ReadLine();
      if line.None? {
        broken := true;
        m := Closed;
      } else {
        m := if line.value.Data? then line.value.m else Text("ACK");
        written := written + [Ack];
      }
      heard := heard + [m];
    }
  }

  /** A send is exactly the two half-steps of its action: the message goes out, and then it succeeds, waits or goes
      wrong as the endpoint program does. */
  lemma SendIsTwoSteps(p: Proc<Msg>, incoming: seq<Line<Msg>>, written: seq<Line<Msg>>, m: Msg)
    requires p.pc < |p.prog| && p.prog[p.pc].Send? && !p.mid && p.prog[p.pc].make(p.inbox) == m
    ensures var half := Advance(p, incoming, written, 0);
            && half == Moved(p.(mid := true), incoming, written + [Data(m)])
            && Advance(half.p, half.inn, half.out, 0)
               == if incoming == [] then Blocked
                  else if incoming[0].Ack? then Moved(p.(pc := p.pc + 1), incoming[1..], written + [Data(m)])
                  else Garbled
  {
  }

  /** A receive is exactly the two half-steps of its action: it waits for a line, goes wrong on a stray ACK, and
      otherwise takes the message and answers it. */
  lemma ReceiveIsTwoSteps(p: Proc<Msg>, incoming: seq<Line<Msg>>, written: seq<Line<Msg>>)
    requires p.pc < |p.prog| && p.prog[p.pc].Recv? && !p.mid
    ensures var half := Advance(p, incoming, written, 0);
            if incoming == [] then half == Blocked
            else if incoming[0].Ack? then half == Garbled
            else
              && half == Moved(p.(mid := true, inbox := p.inbox + [incoming[0].m]), incoming[1..], written)
              && Advance(half.p, half.inn, half.out, 0)
                 == Moved(p.(pc := p.pc + 1, inbox := p.inbox + [incoming[0].m]), incoming[1..], written + [Ack])
  {
  }
}
