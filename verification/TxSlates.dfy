/** The transaction slate as the object its participants edit in place. Every method is tied to the function of
    the slate's value that the proofs are about. */
module TxSlates {
  import opened Wrappers
  import opened Curve
  import opened Transactions
  import opened Slates

  /** What a method that edits a slate in place owes to the function that specifies it: the same outcome, and
      no change unless it succeeded. */
  predicate Edits(before: Slate, after: Slate, r: Result<()>, spec: Result<Slate>) {
    match spec
    case Ok(s) => r == Ok(()) && after == s
    case Err(e) => r == Err(e) && after == before
  }

  class TxSlate {
    var numParticipants: nat
    var id: nat
    var tx: Option<Transaction>
    var amount: nat
    var fee: nat
    var features: nat
    var offset: Scalar
    var participants: seq<Participant>
    var lockHeight: Option<nat>

    function Value(): Slate
      reads this
    {
      Slate(numParticipants, id, tx, amount, fee, features, offset, participants, lockHeight)
    }

    constructor (s: Slate)
      ensures Value() == s
    {
      numParticipants, id, tx, amount, fee := s.numParticipants, s.id, s.tx, s.amount, s.fee;
      features, offset, participants, lockHeight := s.features, s.offset, s.participants, s.lockHeight;
    }

    method UpdateKernel() returns (r: Result<()>)
      modifies this
      ensures Edits(old(Value()), Value(), r, Slates.UpdateKernel(old(Value())))
    {
      if tx.None? {
        return Err(NoTransaction);
      }
      var f :- KernelFeatures(Value());
      tx := Some(ReplaceKernel(tx.value, Kernel(f, INFINITY, NO_SIG)));
      r := Ok(());
    }

    /** Entries of this participant are removed and one is appended; a signature found on the way is kept. */
    method AddParticipantInfo(x: int, k: int, given: Option<Sig>) returns (r: Result<()>)
      modifies this
      ensures Edits(old(Value()), Value(), r, Slates.AddParticipantInfo(old(Value()), x, k, given))
    {
      var key, nonce := PointOf(x), PointOf(k);
      if key == INFINITY || nonce == INFINITY {
        return Err(BadKey);
      }
      var sig := given;
      var kept: seq<Participant> := [];
      for i := 0 to |participants|
        invariant Value() == old(Value())
        invariant kept == Others(participants[..i], key, nonce)
        invariant sig == KeptSig(participants[..i], key, nonce, given)
      {
        assert participants[..i + 1][..i] == participants[..i];
        var p := participants[i];
        if p.nonce == nonce && p.key == key && sig.None? {
          sig := p.sig;
        }
        if p.nonce != nonce || p.key != key {
          kept := kept + [p];
        }
      }
      assert participants[..|participants|] == participants;
      participants := kept + [Participant(key, nonce, sig)];
      r := Ok(());
    }

    method FillRound1(x: int, k: int) returns (r: Result<()>)
      modifies this
      ensures Edits(old(Value()), Value(), r, Slates.FillRound1(old(Value()), x, k))
    {
      r := AddParticipantInfo(x, k, None);
    }

    /** Each signature present is checked against the sums of the whole table. */
    method VerifyPartSigs(env: Env) returns (r: Result<()>)
      ensures r == Slates.VerifyPartSigs(env, Value())
    {
      for i := 0 to |participants|
        invariant forall j :: 0 <= j < i ==>
                    participants[j].sig.None?
                    || (SigningContext(Value()).Ok? && SigAccepted(env, Value(), participants[j],
                                                                SigningContext(Value()).value, INFINITY))
      {
        if participants[i].sig.Some? {
          var m :- SigningContext(Value());
          if !VerifyPartial(env.challenge, participants[i].sig.value, m, NonceTotal(participants), participants[i].key,
                            KeyTotal(participants), INFINITY) {
            assert !SigAccepted(env, Value(), participants[i], m, INFINITY);
            return Err(InvalidPartialSignature);
          }
        }
      }
      r := Ok(());
    }

    /** The loop over the participant slots that stores a signature in this participant's entry. */
    method SetSig(key: Point, nonce: Point, sig: Sig) returns (r: Result<()>)
      modifies this
      ensures Edits(old(Value()), Value(), r, Slates.SetSig(old(Value()), key, nonce, sig))
    {
      var n := NumParticipants(Value());
      var i := 0;
      while i < n
        invariant 0 <= i <= n && Value() == old(Value())
        invariant FindEntry(participants, n, key, nonce, i) == FindEntry(participants, n, key, nonce, 0)
      {
        if i >= |participants| {
          return Err(IndexOutOfBounds);
        }
        if participants[i].key == key && participants[i].nonce == nonce {
          participants := participants[i := participants[i].(sig := Some(sig))];
          return Ok(());
        }
        i := i + 1;
      }
      r := Ok(());
    }

    method FillRound2(env: Env, x: int, k: int) returns (r: Result<()>)
      modifies this
      ensures Edits(old(Value()), Value(), r, Slates.FillRound2(env, old(Value()), x, k))
    {
      var _ :- VerifyPartSigs(env);
      var m :- SigningContext(Value());
      if PointOf(x) == INFINITY || PointOf(k) == INFINITY {
        return Err(BadKey);
      }
      var sig := Sign(env.challenge, m, x, k, 0, NonceTotal(participants), KeyTotal(participants));
      r := SetSig(PointOf(x), PointOf(k), sig);
    }

    method FinalizeSignature(env: Env) returns (r: Result<Sig>)
      ensures r == Slates.FinalizeSignature(env, Value())
    {
      var _ :- VerifyPartSigs(env);
      var m :- SigningContext(Value());
      var scalars: seq<int> := [];
      for i := 0 to |participants|
        invariant scalars == SigScalars(participants[..i])
      {
        assert participants[..i + 1][..i] == participants[..i];
        if participants[i].sig.Some? {
          scalars := scalars + [participants[i].sig.value.s];
        }
      }
      assert participants[..|participants|] == participants;
      var sig := Sig(NonceTotal(participants), Mod(Sum(scalars)));
      r := if VerifyCompleted(env.challenge, sig, m, KeyTotal(participants)) then Ok(sig) else Err(InvalidSignature);
    }

    /** Nothing is stored unless the final transaction validates. */
    method FinalizeTransaction(env: Env, sig: Sig) returns (r: Result<()>)
      modifies this
      ensures Edits(old(Value()), Value(), r, Slates.FinalizeTransaction(env, old(Value()), sig))
    {
      var _ :- CheckFees(env, Value());
      var excess :- PubBlindSum(participants);
      if |tx.value.kernels| != 1 {
        return Err(KernelCount);
      }
      var final := ReplaceKernel(tx.value, tx.value.kernels[0].(excess := excess, sig := sig));
      if !TxValid(env, final) {
        return Err(InvalidTransaction);
      }
      tx := Some(final);
      r := Ok(());
    }

    method Finalize(env: Env) returns (r: Result<()>)
      modifies this
      ensures Edits(old(Value()), Value(), r, Slates.Finalize(env, old(Value())))
    {
      var sig :- FinalizeSignature(env);
      r := FinalizeTransaction(env, sig);
    }
  }
}
