/** Mimblewimble transactions: range proofs, kernel balance and validity. */
module Transactions {
  import opened Wrappers
  import opened Curve

  /** The coefficients a multiparty range proof draws from its public values. */
  datatype Coefficients = Coefficients(a: int, b: int, z: int)

  /** Everything the swap takes from the curve and chain libraries as given: the signature challenge,
      the minimum fee for a transaction shape (inputs, outputs, kernels), the challenge of a multiparty
      range proof, the two secret terms a party's proof nonce yields, and the text form of commitments. */
  datatype Env = Env(
    challenge: Challenge,
    txFee: (nat, nat, nat) -> nat,
    proofChallenge: (Point, Point, Commitment) -> Coefficients,
    proofShare: int -> (int, int),
    commitText: Commitment -> string,
    readCommit: string -> Option<Commitment>)

  /** What the libraries promise: fees are positive and never fall with another output, and the text of a
      commitment reads back. */
  ghost predicate GoodEnv(env: Env) {
    && (forall i: nat, o: nat, k: nat :: env.txFee(i, o, k) > 0)
    && (forall i: nat, o: nat, p: nat, k: nat :: o <= p ==> env.txFee(i, o, k) <= env.txFee(i, p, k))
    && (forall c: Commitment :: env.readCommit(env.commitText(c)) == Some(c))
  }

  const U64: nat := 0x1_0000_0000_0000_0000
  const I64: nat := 0x8000_0000_0000_0000
  const FEE_LIMIT: nat := 0x100_0000_0000

  datatype OutputFeatures = PlainOutput | CoinbaseOutput

  datatype RangeProof =
    | Bullet(value: int, blind: int)
    | MultiParty(value: int, t1: Point, t2: Point, tauX: Scalar)

  datatype Input = Input(features: OutputFeatures, commit: Commitment)

  datatype Output = Output(features: OutputFeatures, commit: Commitment, proof: RangeProof)

  datatype Kernel = Kernel(features: Features, excess: Point, sig: Sig)

  datatype Transaction = Transaction(inputs: seq<Input>, outputs: seq<Output>, kernels: seq<Kernel>, offset: Scalar)

  const EMPTY_TX := Transaction([], [], [], 0)
  const NO_SIG := Sig(INFINITY, 0)

  function WithOutput(tx: Transaction, o: Output): Transaction { tx.(outputs := tx.outputs + [o]) }

  function ReplaceKernel(tx: Transaction, k: Kernel): Transaction { tx.(kernels := [k]) }

  // ---------------------------------------------------------------- sums

  function Sum(xs: seq<int>): int { AddUp(xs) }

  function AddUp(xs: seq<int>): int {
    if |xs| == 0 then 0 else AddUp(xs[..|xs| - 1]) + xs[|xs| - 1]
  }

  lemma SumAppend(xs: seq<int>, x: int)
    ensures Sum(xs + [x]) == Sum(xs) + x
  {
    assert (xs + [x])[..|xs|] == xs;
  }

  function InValues(ins: seq<Input>): seq<int> { seq(|ins|, i requires 0 <= i < |ins| => ins[i].commit.v) }
  function InBlinds(ins: seq<Input>): seq<int> { seq(|ins|, i requires 0 <= i < |ins| => ins[i].commit.r) }
  function OutValues(outs: seq<Output>): seq<int> { seq(|outs|, i requires 0 <= i < |outs| => outs[i].commit.v) }
  function OutBlinds(outs: seq<Output>): seq<int> { seq(|outs|, i requires 0 <= i < |outs| => outs[i].commit.r) }
  function Fees(ks: seq<Kernel>): seq<int> { seq(|ks|, i requires 0 <= i < |ks| => ks[i].features.fee) }
  function Excesses(ks: seq<Kernel>): seq<int> { seq(|ks|, i requires 0 <= i < |ks| => ks[i].excess.dlog) }

  lemma OutputAppend(outs: seq<Output>, o: Output)
    ensures Sum(OutValues(outs + [o])) == Sum(OutValues(outs)) + o.commit.v
    ensures Sum(OutBlinds(outs + [o])) == Sum(OutBlinds(outs)) + o.commit.r
  {
    assert OutValues(outs + [o]) == OutValues(outs) + [o.commit.v];
    assert OutBlinds(outs + [o]) == OutBlinds(outs) + [o.commit.r];
    SumAppend(OutValues(outs), o.commit.v);
    SumAppend(OutBlinds(outs), o.commit.r);
  }

  // ---------------------------------------------------------------- validity

  predicate VerifyProof(env: Env, c: Commitment, p: RangeProof) {
    0 <= p.value < U64
    && match p
    case Bullet(v, b) => c == Commit(v, b)
    case MultiParty(v, t1, t2, tauX) =>
      var k := env.proofChallenge(t1, t2, c);
      c.v == v && Mod(tauX) == Mod(k.a * t1.dlog + k.b * t2.dlog + k.z * c.r)
  }

  predicate ProofsValid(env: Env, tx: Transaction) {
    forall i :: 0 <= i < |tx.outputs| ==> VerifyProof(env, tx.outputs[i].commit, tx.outputs[i].proof)
  }

  /** Outputs plus fee minus inputs commit to nothing but the kernel excess and the offset. */
  predicate ValueBalanced(tx: Transaction) {
    Sum(OutValues(tx.outputs)) + Sum(Fees(tx.kernels)) == Sum(InValues(tx.inputs))
  }

  predicate BlindBalanced(tx: Transaction) {
    Mod(Sum(OutBlinds(tx.outputs)) - Sum(InBlinds(tx.inputs))) == Mod(Sum(Excesses(tx.kernels)) + tx.offset)
  }

  predicate KernelValid(env: Env, k: Kernel) {
    VerifyCompleted(env.challenge, k.sig, k.features, k.excess)
  }

  predicate TxValid(env: Env, tx: Transaction) {
    && ProofsValid(env, tx)
    && (forall i :: 0 <= i < |tx.kernels| ==> KernelValid(env, tx.kernels[i]))
    && ValueBalanced(tx)
    && BlindBalanced(tx)
  }

  /** With a single kernel the balance reads off that kernel. */
  lemma SingleKernelSums(k: Kernel)
    ensures Sum(Fees([k])) == k.features.fee
    ensures Sum(Excesses([k])) == k.excess.dlog
  {
    assert Fees([k]) == [] + [k.features.fee as int];
    assert Excesses([k]) == [] + [k.excess.dlog as int];
    SumAppend([], k.features.fee);
    SumAppend([], k.excess.dlog);
  }
}
