/** The version 4 wire form of a slate, and what survives a trip over the wire. */
module Wire {
  import opened Wrappers
  import opened Curve
  import opened Transactions
  import opened Slates
  import opened SlateProofs

  /** A commitment on the wire: an output carries its proof, an input does not. */
  datatype CommitsV4 = CommitsV4(f: nat, c: Commitment, p: Option<RangeProof>)

  datatype ParticipantV4 = ParticipantV4(xs: Point, nonce: Point, part: Option<Sig>)

  datatype SlateV4 = SlateV4(
    numParts: nat,
    id: nat,
    coms: Option<seq<CommitsV4>>,
    amt: nat,
    fee: nat,
    feat: nat,
    off: Scalar,
    sigs: seq<ParticipantV4>,
    featArgs: Option<nat>)

  function FeaturesToV4(f: OutputFeatures): nat { if f == CoinbaseOutput then 1 else 0 }
  function FeaturesFromV4(f: nat): OutputFeatures { if f == 1 then CoinbaseOutput else PlainOutput }

  function InputToV4(i: Input): CommitsV4 { CommitsV4(FeaturesToV4(i.features), i.commit, None) }
  function OutputToV4(o: Output): CommitsV4 { CommitsV4(FeaturesToV4(o.features), o.commit, Some(o.proof)) }

  function InCommits(ins: seq<Input>): seq<CommitsV4> {
    seq(|ins|, i requires 0 <= i < |ins| => InputToV4(ins[i]))
  }

  function OutCommits(outs: seq<Output>): seq<CommitsV4> {
    seq(|outs|, i requires 0 <= i < |outs| => OutputToV4(outs[i]))
  }

  function CommitsOf(tx: Transaction): seq<CommitsV4> {
    InCommits(tx.inputs) + OutCommits(tx.outputs)
  }

  function ToV4(s: Slate): SlateV4 {
    SlateV4(s.numParticipants, s.id,
            if s.tx.None? then None else Some(CommitsOf(s.tx.value)),
            s.amount, s.fee, s.features, s.offset,
            seq(|s.participants|, i requires 0 <= i < |s.participants| =>
              ParticipantV4(s.participants[i].key, s.participants[i].nonce, s.participants[i].sig)),
            s.lockHeight)
  }

  function ParticipantsOf(sigs: seq<ParticipantV4>): seq<Participant> {
    seq(|sigs|, i requires 0 <= i < |sigs| => Participant(sigs[i].xs, sigs[i].nonce, sigs[i].part))
  }

  function InputsOf(cs: seq<CommitsV4>): seq<Input> {
    if |cs| == 0 then []
    else
      var c := cs[|cs| - 1];
      InputsOf(cs[..|cs| - 1]) + if c.p.None? then [Input(FeaturesFromV4(c.f), c.c)] else []
  }

  function OutputsOf(cs: seq<CommitsV4>): seq<Output> {
    if |cs| == 0 then []
    else
      var c := cs[|cs| - 1];
      OutputsOf(cs[..|cs| - 1]) + if c.p.None? then [] else [Output(FeaturesFromV4(c.f), c.c, c.p.value)]
  }

  /** The kernel tx_from_slate_v4 recomputes from the participant table. It treats every slate as a plain
      one except those with feature number 1, so a height-locked slate (2) comes back with plain features. */
  function RecomputedKernel(env: Env, fee: nat, feat: nat, featArgs: Option<nat>, ps: seq<Participant>): Kernel {
    var shadow := Blank(0, 2).(fee := fee, participants := ps);
    var excess := PubBlindSum(ps);
    var sig := FinalizeSignature(env, shadow);
    Kernel(if feat == 1 then HeightLocked(fee, if featArgs.None? then 0 else featArgs.value) else Plain(fee),
           if excess.Ok? then excess.value else INFINITY,
           if sig.Ok? then sig.value else NO_SIG)
  }

  function TxFromV4(env: Env, v: SlateV4): Option<Transaction> {
    if v.coms.None? then None
    else Some(Transaction(InputsOf(v.coms.value), OutputsOf(v.coms.value),
                          [RecomputedKernel(env, v.fee, v.feat, v.featArgs, ParticipantsOf(v.sigs))], v.off))
  }

  function FromV4(env: Env, v: SlateV4): Slate {
    Slate(v.numParts, v.id, TxFromV4(env, v), v.amt, v.fee, v.feat, v.off, ParticipantsOf(v.sigs), v.featArgs)
  }

  /** What the peer reads after one trip over the wire. */
  function Carry(env: Env, s: Slate): Slate { FromV4(env, ToV4(s)) }

  /** tx_from_slate_v4, with the loop that pushes each commitment into the inputs or the outputs. */
  method TxFromSlateV4(env: Env, v: SlateV4) returns (tx: Option<Transaction>)
    ensures tx == TxFromV4(env, v)
  {
    if v.coms.None? {
      return None;
    }
    var coms := v.coms.value;
    var inputs: seq<Input> := [];
    var outputs: seq<Output> := [];
    for i := 0 to |coms|
      invariant inputs == InputsOf(coms[..i]) && outputs == OutputsOf(coms[..i])
    {
      assert coms[..i + 1][..i] == coms[..i];
      var c := coms[i];
      match c.p
      case Some(proof) => outputs := outputs + [Output(FeaturesFromV4(c.f), c.c, proof)];
      case None => inputs := inputs + [Input(FeaturesFromV4(c.f), c.c)];
    }
    assert coms[..|coms|] == coms;
    var kernel := RecomputedKernel(env, v.fee, v.feat, v.featArgs, ParticipantsOf(v.sigs));
    tx := Some(Transaction(inputs, outputs, [kernel], v.off));
  }

  // ---------------------------------------------------------------- what survives

  /** One more commitment on the wire: an input without a proof, an output with one, a coinbase only under number
      1. */
  lemma ReadBack(cs: seq<CommitsV4>, c: CommitsV4)
    ensures var features := if c.f == 1 then CoinbaseOutput else PlainOutput;
            && InputsOf(cs + [c]) == InputsOf(cs) + (if c.p.None? then [Input(features, c.c)] else [])
            && OutputsOf(cs + [c]) == OutputsOf(cs) + (if c.p.None? then [] else [Output(features, c.c, c.p.value)])
  {
    assert (cs + [c])[..|cs|] == cs;
  }

  lemma {:induction false} InputsReadBack(ins: seq<Input>)
    ensures InputsOf(InCommits(ins)) == ins
    ensures OutputsOf(InCommits(ins)) == []
  {
    if |ins| > 0 {
      var init, last := ins[..|ins| - 1], ins[|ins| - 1];
      assert InCommits(ins) == InCommits(init) + [InputToV4(last)];
      InputsReadBack(init);
      ReadBack(InCommits(init), InputToV4(last));
      assert ins == init + [last];
    }
  }

  lemma {:induction false} OutputsReadBack(cs: seq<CommitsV4>, outs: seq<Output>)
    ensures InputsOf(cs + OutCommits(outs)) == InputsOf(cs)
    ensures OutputsOf(cs + OutCommits(outs)) == OutputsOf(cs) + outs
  {
    if |outs| == 0 {
      assert cs + OutCommits(outs) == cs;
    } else {
      var init, last := outs[..|outs| - 1], outs[|outs| - 1];
      assert cs + OutCommits(outs) == (cs + OutCommits(init)) + [OutputToV4(last)];
      OutputsReadBack(cs, init);
      ReadBack(cs + OutCommits(init), OutputToV4(last));
      assert outs == init + [last];
    }
  }

  /** The trip keeps every field and the transaction's inputs and outputs; it resets the offset to the
      slate's and the kernel to the recomputed one. */
  lemma CarryShape(env: Env, s: Slate)
    ensures Carry(env, s) ==
      if s.tx.None? then s
      else s.(tx := Some(Transaction(s.tx.value.inputs, s.tx.value.outputs,
                           [RecomputedKernel(env, s.fee, s.features, s.lockHeight, s.participants)], s.offset)))
  {
    assert ParticipantsOf(ToV4(s).sigs) == s.participants;
    if s.tx.Some? {
      var tx := s.tx.value;
      InputsReadBack(tx.inputs);
      OutputsReadBack(InCommits(tx.inputs), tx.outputs);
      assert OutputsOf(CommitsOf(tx)) == tx.outputs;
    }
  }

  /** Exactly which slates come back unchanged. */
  lemma RoundTripExact(env: Env, s: Slate)
    ensures Carry(env, s) == s <==>
      (s.tx.Some? ==>
        (&& s.tx.value.offset == s.offset
         && s.tx.value.kernels == [RecomputedKernel(env, s.fee, s.features, s.lockHeight, s.participants)]))
  {
    CarryShape(env, s);
  }

  lemma PlainContext(env: Env, s: Slate)
    requires s.features == 0
    ensures FinalizeSignature(env, Blank(0, 2).(fee := s.fee, participants := s.participants)) == FinalizeSignature(env,
        s)
  {
    var shadow := Blank(0, 2).(fee := s.fee, participants := s.participants);
    assert SigningContext(shadow) == SigningContext(s);
    forall i | 0 <= i < |s.participants|
      ensures SigAccepted(env, shadow, s.participants[i], Plain(s.fee), INFINITY)
         <==> SigAccepted(env, s, s.participants[i], Plain(s.fee), INFINITY)
    {
    }
    assert VerifyPartSigs(env, shadow) == VerifyPartSigs(env, s);
  }

  /** A finalised plain slate survives the wire whole: inputs, outputs, offset and the full kernel. */
  lemma PlainRoundTrip(env: Env, s: Slate)
    requires Finalize(env, s).Ok?
    requires s.features == 0 && s.tx.value.kernels[0].features == Plain(s.fee) && s.tx.value.offset == s.offset
    ensures Carry(env, Finalize(env, s).value) == Finalize(env, s).value
  {
    var t := Finalize(env, s).value;
    RoundTripExact(env, t);
    PlainContext(env, s);
    assert t.participants == s.participants && t.fee == s.fee && t.features == 0;
  }

  /** The kernel every slate comes back with: a plain one, unless the feature number is 1, with the key sum as its
      excess and a signature only if the signatures of the table, taken as those of a plain slate, complete one. So a
      height-locked slate comes back with a plain kernel. */
  lemma HeightLockedLosesKernel(env: Env, s: Slate)
    requires s.tx.Some?
    ensures |Carry(env, s).tx.value.kernels| == 1
    ensures var k, plain := Carry(env, s).tx.value.kernels[0], s.(features := 0, lockHeight := None);
            && k.features == (if s.features != 1 then Plain(s.fee)
                              else HeightLocked(s.fee, if s.lockHeight.None? then 0 else s.lockHeight.value))
            && k.excess == PointOf(Sum(Keys(s.participants)))
            && (FinalizeSignature(env, plain).Ok? ==>
                  k.sig == Sig(PointOf(Sum(Nonces(s.participants))), Mod(Sum(SigScalars(s.participants)))))
            && (FinalizeSignature(env, plain).Err? ==> k.sig == Sig(INFINITY, 0))
  {
    CarryShape(env, s);
    PlainContext(env, s.(features := 0, lockHeight := None));
    if |s.participants| == 0 {
      ModZero();
    }
  }

  /** The challenges of two messages act alike on this participant's key. */
  ghost predicate ActAlike(env: Env, ps: seq<Participant>, p: Participant, m: Features, m': Features) {
    var n, k := NonceTotal(ps), KeyTotal(ps);
    Mod(env.challenge(n, k, m) * p.key.dlog) == Mod(env.challenge(n, k, m') * p.key.dlog)
  }

  /** A partial signature made for one message is accepted for another exactly when their challenges act alike. */
  lemma AcceptedForOther(env: Env, s: Slate, t: Slate, p: Participant, m: Features, m': Features)
    requires t.participants == s.participants && p.sig.Some? && SigAccepted(env, s, p, m, INFINITY)
    ensures SigAccepted(env, t, p, m', INFINITY) <==> ActAlike(env, s.participants, p, m, m')
  {
    hide Mod, Sum;
    ModZero();
    var n, k := NonceTotal(s.participants), KeyTotal(s.participants);
    ModCancel(env.challenge(n, k, m) * p.key.dlog, env.challenge(n, k, m') * p.key.dlog, p.sig.value.R.dlog);
  }

  /** And an honestly signed one comes back without a signature, unless the height-locked and the plain message
      happen to share their challenge for every participant. */
  lemma HeightLockedLosesSignature(env: Env, s: Slate, cs: seq<Secret>, signed: seq<bool>)
    requires s.features == 2 && s.lockHeight.Some? && s.tx.Some? && |cs| > 0
    requires Built(env, s, cs, signed) && SumsValid(s) && forall i :: 0 <= i < |signed| ==> signed[i]
    ensures var ps, m := s.participants, HeightLocked(s.fee, s.lockHeight.value);
            Carry(env, s).tx.value.kernels[0].sig == NO_SIG <==>
              exists i :: 0 <= i < |ps| && !ActAlike(env, ps, ps[i], m, Plain(s.fee))
  {
    hide Mod, Sum, ActAlike;
    CarryShape(env, s);
    HonestAccepted(env, s, cs, signed);
    SigNoncesOf(env, s, cs, signed);
    var shadow := Blank(0, 2).(fee := s.fee, participants := s.participants);
    var ps, m := s.participants, HeightLocked(s.fee, s.lockHeight.value);
    assert SigningContext(shadow) == Ok(Plain(s.fee));
    forall i | 0 <= i < |ps|
      ensures SigAccepted(env, shadow, ps[i], Plain(s.fee), INFINITY) <==> ActAlike(env, ps, ps[i], m, Plain(s.fee))
    {
      assert ps[i].sig.Some?;
      AcceptedForOther(env, s, shadow, ps[i], m, Plain(s.fee));
    }
    if forall i :: 0 <= i < |ps| ==> ActAlike(env, ps, ps[i], m, Plain(s.fee)) {
      AggregationExact(env, shadow, Plain(s.fee));
      assert FinalizeSignature(env, shadow) == Ok(Aggregate(ps));
    } else {
      assert !Unsigned(ps) by { assert ps[0].sig.Some?; }
      assert FinalizeSignature(env, shadow).Err?;
    }
  }

  /** Yet, whatever the features, rebuilding the kernel and finalising again yields the very transaction the
      peer finalised, provided the peer had rebuilt its kernel too. */
  lemma RebuiltAgreement(env: Env, s: Slate)
    requires s.tx.Some? && s.tx.value.offset == s.offset
    requires UpdateKernel(s) == Ok(s)
    requires Finalize(env, s).Ok?
    ensures UpdateKernel(Carry(env, Finalize(env, s).value)).Ok?
    ensures Finalize(env, UpdateKernel(Carry(env, Finalize(env, s).value)).value) == Finalize(env, s)
  {
    hide Mod, Sum;
    var t := Finalize(env, s).value;
    CarryShape(env, t);
    var u := UpdateKernel(Carry(env, t)).value;
    assert u.tx.value.inputs == s.tx.value.inputs && u.tx.value.outputs == s.tx.value.outputs;
    assert u == s;
  }
}
