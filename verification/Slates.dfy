/** The transaction slate that two or more participants edit in turn, and its wire form. */
module Slates {
  import opened Wrappers
  import opened Curve
  import opened Transactions

  datatype Participant = Participant(key: Point, nonce: Point, sig: Option<Sig>)

  datatype Slate = Slate(
    numParticipants: nat,
    id: nat,
    tx: Option<Transaction>,
    amount: nat,
    fee: nat,
    features: nat,
    offset: Scalar,
    participants: seq<Participant>,
    lockHeight: Option<nat>)

  /** The longest relative lock a no-recent-duplicate kernel may carry. */
  const WEEK_HEIGHT: nat := 10080

  function NumParticipants(s: Slate): nat {
    if s.numParticipants == 0 then 2 else s.numParticipants
  }

  function BlankWithKernelFeatures(id: nat, numParticipants: nat, feat: nat, lockHeight: Option<nat>): Slate {
    var features := if feat > 3 then 0 else feat;
    Slate(if numParticipants == 0 then 2 else numParticipants, id, Some(EMPTY_TX), 0, 0, features, 0, [],
          if lockHeight.Some? && (features == 2 || features == 3) then lockHeight else None)
  }

  function Blank(id: nat, numParticipants: nat): Slate {
    BlankWithKernelFeatures(id, numParticipants, 0, None)
  }

  /** The kernel features a slate stands for; also the message its participants sign. */
  function KernelFeatures(s: Slate): Result<Features> {
    if s.features == 0 then Ok(Plain(s.fee))
    else if s.features == 2 then
      if s.lockHeight.None? then Err(FeaturesMissing) else Ok(HeightLocked(s.fee, s.lockHeight.value))
    else if s.features == 3 then
      if s.lockHeight.None? then Err(FeaturesMissing)
      else if s.lockHeight.value == 0 || s.lockHeight.value > WEEK_HEIGHT then Err(UnknownFeatures)
      else Ok(NoRecentDuplicate(s.fee, s.lockHeight.value))
    else Err(UnknownFeatures)
  }

  function UpdateKernel(s: Slate): Result<Slate> {
    if s.tx.None? then Err(NoTransaction) else
    var f :- KernelFeatures(s);
    Ok(s.(tx := Some(ReplaceKernel(s.tx.value, Kernel(f, INFINITY, NO_SIG)))))
  }

  // ---------------------------------------------------------------- participant sums

  function Keys(ps: seq<Participant>): seq<int> { seq(|ps|, i requires 0 <= i < |ps| => ps[i].key.dlog) }
  function Nonces(ps: seq<Participant>): seq<int> { seq(|ps|, i requires 0 <= i < |ps| => ps[i].nonce.dlog) }

  function KeyTotal(ps: seq<Participant>): Point { PointOf(Sum(Keys(ps))) }
  function NonceTotal(ps: seq<Participant>): Point { PointOf(Sum(Nonces(ps))) }

  function PubNonceSum(ps: seq<Participant>): Result<Point> {
    if |ps| == 0 then Err(NoParticipants)
    else if NonceTotal(ps) == INFINITY then Err(KeySumIsInfinity)
    else Ok(NonceTotal(ps))
  }

  function PubBlindSum(ps: seq<Participant>): Result<Point> {
    if |ps| == 0 then Err(NoParticipants)
    else if KeyTotal(ps) == INFINITY then Err(KeySumIsInfinity)
    else Ok(KeyTotal(ps))
  }

  // ---------------------------------------------------------------- round 1

  predicate Matches(p: Participant, key: Point, nonce: Point) { p.key == key && p.nonce == nonce }

  /** The entries of other participants, in order. */
  function Others(ps: seq<Participant>, key: Point, nonce: Point): seq<Participant> {
    if |ps| == 0 then []
    else
      var rest := Others(ps[..|ps| - 1], key, nonce);
      if Matches(ps[|ps| - 1], key, nonce) then rest else rest + [ps[|ps| - 1]]
  }

  /** The first signature among the entries that match, unless one is given. */
  function KeptSig(ps: seq<Participant>, key: Point, nonce: Point, given: Option<Sig>): Option<Sig> {
    if |ps| == 0 then given
    else
      var before := KeptSig(ps[..|ps| - 1], key, nonce, given);
      if before.None? && Matches(ps[|ps| - 1], key, nonce) then ps[|ps| - 1].sig else before
  }

  function AddParticipantInfo(s: Slate, x: int, k: int, given: Option<Sig>): Result<Slate> {
    var key, nonce := PointOf(x), PointOf(k);
    if key == INFINITY || nonce == INFINITY then Err(BadKey) else
    Ok(s.(participants := Others(s.participants, key, nonce)
                          + [Participant(key, nonce, KeptSig(s.participants, key, nonce, given))]))
  }

  function FillRound1(s: Slate, x: int, k: int): Result<Slate> {
    AddParticipantInfo(s, x, k, None)
  }

  // ---------------------------------------------------------------- round 2

  predicate SigAccepted(env: Env, s: Slate, p: Participant, m: Features, extra: Point) {
    p.sig.None?
    || VerifyPartial(env.challenge, p.sig.value, m, NonceTotal(s.participants), p.key, KeyTotal(s.participants), extra)
  }

  predicate Unsigned(ps: seq<Participant>) {
    forall i :: 0 <= i < |ps| ==> ps[i].sig.None?
  }

  /** The sums and the message a signature on this slate refers to. */
  function SigningContext(s: Slate): Result<Features> {
    var _ :- PubNonceSum(s.participants);
    var _ :- PubBlindSum(s.participants);
    KernelFeatures(s)
  }

  function VerifyPartSigs(env: Env, s: Slate): Result<()> {
    if Unsigned(s.participants) then Ok(()) else
    var m :- SigningContext(s);
    if forall i :: 0 <= i < |s.participants| ==> SigAccepted(env, s, s.participants[i], m, INFINITY)
    then Ok(()) else Err(InvalidPartialSignature)
  }

  /** Where the loop over the participant slots finds this entry: a slot past the table is a panic,
      no entry at all leaves the index at n. */
  function FindEntry(ps: seq<Participant>, n: nat, key: Point, nonce: Point, i: nat): (r: Result<nat>)
    requires i <= n
    ensures r.Ok? ==> i <= r.value <= n
    ensures r.Ok? && r.value < n ==> r.value < |ps| && Matches(ps[r.value], key, nonce)
    decreases n - i
  {
    if i == n then Ok(n)
    else if i >= |ps| then Err(IndexOutOfBounds)
    else if Matches(ps[i], key, nonce) then Ok(i)
    else FindEntry(ps, n, key, nonce, i + 1)
  }

  function SetSig(s: Slate, key: Point, nonce: Point, sig: Sig): Result<Slate> {
    var i :- FindEntry(s.participants, NumParticipants(s), key, nonce, 0);
    Ok(if i == NumParticipants(s) then s
       else s.(participants := s.participants[i := s.participants[i].(sig := Some(sig))]))
  }

  function FillRound2(env: Env, s: Slate, x: int, k: int): Result<Slate> {
    var _ :- VerifyPartSigs(env, s);
    var m :- SigningContext(s);
    if PointOf(x) == INFINITY || PointOf(k) == INFINITY then Err(BadKey) else
    SetSig(s, PointOf(x), PointOf(k),
           Sign(env.challenge, m, x, k, 0, NonceTotal(s.participants), KeyTotal(s.participants)))
  }

  // ---------------------------------------------------------------- finalisation

  function SigScalars(ps: seq<Participant>): seq<int> {
    if |ps| == 0 then []
    else
      var rest := SigScalars(ps[..|ps| - 1]);
      if ps[|ps| - 1].sig.None? then rest else rest + [ps[|ps| - 1].sig.value.s]
  }

  /** add_signatures: the nonce sum with the sum of all s values present. */
  function Aggregate(ps: seq<Participant>): Sig {
    Sig(NonceTotal(ps), Mod(Sum(SigScalars(ps))))
  }

  function FinalizeSignature(env: Env, s: Slate): Result<Sig> {
    var _ :- VerifyPartSigs(env, s);
    var m :- SigningContext(s);
    var sig := Aggregate(s.participants);
    if VerifyCompleted(env.challenge, sig, m, KeyTotal(s.participants)) then Ok(sig) else Err(InvalidSignature)
  }

  function CheckFees(env: Env, s: Slate): Result<()> {
    if s.tx.None? then Err(NoTransaction) else
    var tx := s.tx.value;
    var fee := env.txFee(|tx.inputs|, |tx.outputs|, |tx.kernels|);
    if fee > Sum(Fees(tx.kernels)) then Err(FeeDispute)
    else if fee > s.amount + s.fee then Err(FeeDispute)
    else Ok(())
  }

  function FinalizeTransaction(env: Env, s: Slate, sig: Sig): Result<Slate> {
    var _ :- CheckFees(env, s);
    var excess :- PubBlindSum(s.participants);
    var tx := s.tx.value;
    if |tx.kernels| != 1 then Err(KernelCount) else
    var final := ReplaceKernel(tx, Kernel(tx.kernels[0].features, excess, sig));
    if TxValid(env, final) then Ok(s.(tx := Some(final))) else Err(InvalidTransaction)
  }

  function Finalize(env: Env, s: Slate): Result<Slate> {
    var sig :- FinalizeSignature(env, s);
    FinalizeTransaction(env, s, sig)
  }
}
