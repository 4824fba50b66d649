/** The linear algebra behind keys, commitments and aggregated Schnorr signatures.

    A secret key or nonce is any integer and stands for its residue modulo the group order.
    A public key is the residue of its secret key, a Pedersen commitment is a pair of a value and
    a blinding residue. The challenge hash is a parameter of every statement. */
module Curve {

  /** The order of the secp256k1 group. */
  const ORDER: nat := 0xFFFFFFFF_FFFFFFFF_FFFFFFFF_FFFFFFFE_BAAEDCE6_AF48A03B_BFD25E8C_D0364141

  type Scalar = s: int | 0 <= s < ORDER

  /** Reduction modulo the group order. */
  function Mod(x: int): Scalar { Reduce(x) }

  function Reduce(x: int): Scalar
    decreases x < 0, if x < 0 then -x else x
  {
    if x < 0 then Reduce(x + ORDER)
    else if x < ORDER then x
    else Reduce(x - ORDER)
  }

  ghost function Quot(x: int): int
    decreases x < 0, if x < 0 then -x else x
  {
    if x < 0 then Quot(x + ORDER) - 1
    else if x < ORDER then 0
    else Quot(x - ORDER) + 1
  }

  lemma {:induction false} ModQuot(x: int)
    ensures x == Mod(x) + ORDER * Quot(x)
    decreases x < 0, if x < 0 then -x else x
  {
    if x < 0 {
      ModQuot(x + ORDER);
    } else if x >= ORDER {
      ModQuot(x - ORDER);
    }
  }

  /** Euclidean division is unique, so Mod is the remainder. */
  lemma {:induction false} ModUnique(x: int, r: Scalar, k: int)
    requires x == r + ORDER * k
    ensures Mod(x) == r
    decreases k < 0, if k < 0 then -k else k
  {
    if k < 0 {
      ModUnique(x + ORDER, r, k + 1);
    } else if k > 0 {
      ModUnique(x - ORDER, r, k - 1);
    }
  }

  lemma ModShift(x: int, y: int, k: int)
    requires x == y + ORDER * k
    ensures Mod(x) == Mod(y)
  {
    ModQuot(y);
    ModUnique(x, Mod(y), Quot(y) + k);
  }

  lemma ModIdem(x: int)
    ensures Mod(Mod(x)) == Mod(x)
  {
  }

  lemma ModZero()
    ensures Mod(0) == 0
    ensures PointOf(0) == INFINITY
  {
  }

  lemma ModAdd(a: int, b: int)
    ensures Mod(Mod(a) + b) == Mod(a + b)
    ensures Mod(Mod(a) + Mod(b)) == Mod(a + b)
  {
    ModQuot(a);
    ModQuot(b);
    ModShift(a + b, Mod(a) + b, Quot(a));
    ModShift(a + b, Mod(a) + Mod(b), Quot(a) + Quot(b));
  }

  lemma ModSub(a: int, b: int)
    ensures Mod(Mod(a) - Mod(b)) == Mod(a - b)
  {
    ModQuot(a);
    ModQuot(b);
    ModShift(a - b, Mod(a) - Mod(b), Quot(a) - Quot(b));
  }

  /** Congruences add and subtract. */
  lemma CongAdd(a: int, b: int, c: int, d: int)
    requires Mod(a) == Mod(b) && Mod(c) == Mod(d)
    ensures Mod(a + c) == Mod(b + d)
  {
    ModAdd(a, c);
    ModAdd(b, d);
  }

  lemma CongSub(a: int, b: int, c: int, d: int)
    requires Mod(a) == Mod(b) && Mod(c) == Mod(d)
    ensures Mod(a - c) == Mod(b - d)
  {
    ModSub(a, c);
    ModSub(b, d);
  }

  lemma MulSplit(e: int, m: int, n: int, q: int)
    ensures e * (m + n * q) == e * m + n * (e * q)
  {
  }

  lemma ModMul(e: int, a: int)
    ensures Mod(e * Mod(a)) == Mod(e * a)
  {
    ModQuot(a);
    MulSplit(e, Mod(a), ORDER, Quot(a));
    ModShift(e * a, e * Mod(a), e * Quot(a));
  }

  /** A congruence may be shifted by the same amount on both sides, in either direction. */
  lemma ModCancel(a: int, b: int, c: int)
    ensures Mod(a + c) == Mod(b + c) <==> Mod(a) == Mod(b)
  {
    ModAdd(a, c);
    ModAdd(b, c);
    if Mod(a + c) == Mod(b + c) {
      ModAdd(a + c, -c);
      ModAdd(b + c, -c);
      assert a + c - c == a && b + c - c == b;
    }
  }

  lemma ModThree(k: int, a: int, b: int, z: int)
    requires Mod(a) == Mod(b)
    ensures Mod(Mod(k) + a + Mod(z)) == Mod(k + b + z)
  {
    ModAdd(k, a + Mod(z));
    ModAdd(a, k + Mod(z));
    ModAdd(b, k + Mod(z));
    ModAdd(z, b + k);
  }

  /** The shape of every signature equation: reduce each part or the whole. */
  lemma ModLinear(k: int, e: int, x: int, z: int)
    ensures Mod(Mod(k) + e * Mod(x) + Mod(z)) == Mod(k + e * x + z)
  {
    ModMul(e, x);
    ModThree(k, e * Mod(x), e * x, z);
  }

  // ---------------------------------------------------------------- points and commitments

  /** A curve point, given by its discrete logarithm. */
  datatype Point = Point(dlog: Scalar)

  const INFINITY := Point(0)

  function PointOf(x: int): Point { Point(Mod(x)) }

  datatype Commitment = Commitment(v: int, r: Scalar)

  function Commit(value: int, blind: int): Commitment { Commitment(value, Mod(blind)) }

  function AddCommit(c: Commitment, d: Commitment): Commitment { Commitment(c.v + d.v, Mod(c.r + d.r)) }

  // ---------------------------------------------------------------- signatures

  /** What a kernel signature covers: the kernel features and their arguments. */
  datatype Features =
    | Plain(fee: nat)
    | HeightLocked(fee: nat, lockHeight: nat)
    | NoRecentDuplicate(fee: nat, relativeHeight: nat)

  type Challenge = (Point, Point, Features) -> int

  datatype Sig = Sig(R: Point, s: Scalar)

  /** aggsig sign_single: the nonce, the challenge times the key, and the extra secret. */
  function Sign(h: Challenge, m: Features, x: int, k: int, extra: int, nonceSum: Point, keySum: Point): Sig {
    Sig(PointOf(k), Mod(k + h(nonceSum, keySum, m) * x + extra))
  }

  /** aggsig verify_single for a partial signature, with an extra public key (INFINITY when absent). */
  predicate VerifyPartial(h: Challenge, sig: Sig, m: Features, nonceSum: Point, key: Point, keySum: Point,
                          extra: Point) {
    Mod(sig.s) == Mod(sig.R.dlog + h(nonceSum, keySum, m) * key.dlog + extra.dlog)
  }

  /** verify_completed_sig and the kernel's own check: the challenge uses the signature's nonce. */
  predicate VerifyCompleted(h: Challenge, sig: Sig, m: Features, key: Point) {
    Mod(sig.s) == Mod(sig.R.dlog + h(sig.R, key, m) * key.dlog)
  }

  /** A signature made with extra secret z is accepted under an extra public key exactly when that key is z's. */
  lemma SignVerifies(h: Challenge, m: Features, x: int, k: int, z: int, nonceSum: Point, keySum: Point, extra: Point)
    ensures VerifyPartial(h, Sign(h, m, x, k, z, nonceSum, keySum), m, nonceSum, PointOf(x), keySum, extra)
       <==> extra == PointOf(z)
  {
    var e := h(nonceSum, keySum, m);
    ModLinear(k, e, x, z);
    ModIdem(k + e * x + z);
    var base := Mod(k) + e * Mod(x);
    ModCancel(Mod(z), extra.dlog, base);
    assert Mod(z) + base == base + Mod(z);
    assert extra.dlog + base == base + extra.dlog;
    ModIdem(z);
  }

  /** The difference of the two s values, as ext_witness computes it: negate one, add the other. */
  function ExtractWitness(sig: Sig, adapted: Sig): Scalar {
    Mod(adapted.s + Mod(0 - (sig.s as int)))
  }

  lemma ModDifference(a: int, b: int, base: int, z: Scalar)
    requires Mod(a) == Mod(base + z) && Mod(b) == Mod(base)
    ensures Mod(a + Mod(0 - b)) == z
  {
    ModAdd(0 - b, a);
    ModSub(a, b);
    ModSub(base + z, base);
    ModIdem(z);
  }

  /** Any signature accepted under X and any plain signature with the same nonce, challenge and key
      differ by exactly the discrete logarithm of X. No honesty of the signer is needed. */
  lemma ExtractionExact(h: Challenge, m: Features, sig: Sig, adapted: Sig, nonceSum: Point, key: Point, keySum: Point,
                        X: Point)
    requires sig.R == adapted.R
    requires VerifyPartial(h, adapted, m, nonceSum, key, keySum, X)
    requires VerifyPartial(h, sig, m, nonceSum, key, keySum, INFINITY)
    ensures ExtractWitness(sig, adapted) == X.dlog
    ensures PointOf(ExtractWitness(sig, adapted)) == X
  {
    var base := sig.R.dlog + h(nonceSum, keySum, m) * key.dlog;
    ModDifference(adapted.s, sig.s, base, X.dlog);
  }

  /** A signature accepted under X is a plain partial signature only when X is the identity. */
  lemma AdaptedIsNotPlain(h: Challenge, m: Features, sig: Sig, nonceSum: Point, key: Point, keySum: Point, X: Point)
    requires VerifyPartial(h, sig, m, nonceSum, key, keySum, X)
    ensures VerifyPartial(h, sig, m, nonceSum, key, keySum, INFINITY) <==> X == INFINITY
  {
    var base := sig.R.dlog + h(nonceSum, keySum, m) * key.dlog;
    ModCancel(X.dlog, 0, base);
    assert X.dlog + base == base + X.dlog;
  }
}
