/** A Bitcoin script interpreter for the opcodes of the lock script, and the exact conditions under which the
    lock script accepts. Stacks grow to the right: the last element is the top. */
module Script {
  import opened Wrappers

  type Bytes = seq<nat>

  datatype Op =
    | Push(data: Bytes)
    | If | Else | EndIf
    | CheckLockTimeVerify | Drop | CheckSig | CheckMultiSig

  type Program = seq<Op>
  type Stack = seq<Bytes>

  /** What the spending transaction offers a script: its lock time, the input's sequence number, and which
      signatures it satisfies for which keys. */
  datatype Spend = Spend(lockTime: nat, sequence: nat, valid: (Bytes, Bytes) -> bool)

  const SEQUENCE_FINAL: nat := 0xFFFF_FFFF
  const LOCKTIME_THRESHOLD: nat := 500_000_000

  /** OP_CHECKLOCKTIMEVERIFY reads at most five bytes. */
  const CLTV_LIMIT: nat := 0x80_0000_0000

  // ---------------------------------------------------------------- numbers on the stack

  function LeBytes(n: nat): Bytes { if n == 0 then [] else [n % 256] + LeBytes(n / 256) }

  function LeValue(b: Bytes): nat { if |b| == 0 then 0 else b[0] + 256 * LeValue(b[1..]) }

  function EncodeNum(n: int): Bytes {
    if n == 0 then []
    else
      var m := LeBytes(if n < 0 then -n else n);
      if |m| == 0 then []
      else if m[|m| - 1] >= 0x80 then m + [if n < 0 then 0x80 else 0]
      else m[|m| - 1 := m[|m| - 1] + if n < 0 then 0x80 else 0]
  }

  function DecodeNum(b: Bytes): int {
    if |b| == 0 then 0
    else if b[|b| - 1] >= 0x80 then 0 - LeValue(b[|b| - 1 := b[|b| - 1] - 0x80])
    else LeValue(b)
  }

  /** Every element is true except zero and negative zero. */
  predicate CastToBool(b: Bytes) {
    exists i :: 0 <= i < |b| && b[i] != 0 && !(i == |b| - 1 && b[i] == 0x80)
  }

  const TRUE: Bytes := [1]
  const FALSE: Bytes := []

  // ---------------------------------------------------------------- the interpreter

  /** OP_CHECKLOCKTIMEVERIFY: same kind of lock, not in the future, and the input not final. */
  predicate LockTimeMet(n: int, t: Spend) {
    && 0 <= n
    && (n < LOCKTIME_THRESHOLD <==> t.lockTime < LOCKTIME_THRESHOLD)
    && n <= t.lockTime
    && t.sequence != SEQUENCE_FINAL
  }

  /** OP_CHECKMULTISIG matches signatures to keys from the top of the stack downwards. */
  predicate MultiSigMet(sigs: seq<Bytes>, keys: seq<Bytes>, t: Spend)
    decreases |keys|
  {
    if |sigs| == 0 then true
    else if |sigs| > |keys| then false
    else if t.valid(sigs[|sigs| - 1], keys[|keys| - 1]) then MultiSigMet(sigs[..|sigs| - 1], keys[..|keys| - 1], t)
    else MultiSigMet(sigs, keys[..|keys| - 1], t)
  }

  /** Pops a number of elements given by the top of the stack. */
  function PopCounted(s: Stack, limit: nat): Option<(Stack, seq<Bytes>)> {
    if |s| == 0 || |s[|s| - 1]| > 4 then None else
    var n := DecodeNum(s[|s| - 1]);
    if n < 0 || n > limit || n > |s| - 1 then None
    else Some((s[..|s| - 1 - n], s[|s| - 1 - n..|s| - 1]))
  }

  function MultiSig(s: Stack, t: Spend): Option<Stack> {
    var k := PopCounted(s, 20);
    if k.None? then None else
    var g := PopCounted(k.value.0, |k.value.1|);
    if g.None? then None
    else if |g.value.0| == 0 then None
    else Some(g.value.0[..|g.value.0| - 1] + [if MultiSigMet(g.value.1, k.value.1, t) then TRUE else FALSE])
  }

  /** One opcode other than the conditionals. */
  function Step(op: Op, s: Stack, t: Spend): Option<Stack> {
    match op
    case Push(d) => Some(s + [d])
    case CheckLockTimeVerify =>
      if |s| == 0 || |s[|s| - 1]| > 5 || !LockTimeMet(DecodeNum(s[|s| - 1]), t) then None else Some(s)
    case Drop => if |s| == 0 then None else Some(s[..|s| - 1])
    case CheckSig =>
      if |s| < 2 then None
      else Some(s[..|s| - 2] + [if t.valid(s[|s| - 2], s[|s| - 1]) then TRUE else FALSE])
    case CheckMultiSig => MultiSig(s, t)
    case _ => None
  }

  predicate Executing(conds: seq<bool>) { forall i :: 0 <= i < |conds| ==> conds[i] }

  predicate Straight(op: Op) { !op.If? && !op.Else? && !op.EndIf? }

  function Exec(p: Program, s: Stack, conds: seq<bool>, t: Spend): Option<Stack> {
    if |p| == 0 then (if |conds| == 0 then Some(s) else None)
    else if p[0].If? then
      if !Executing(conds) then Exec(p[1..], s, conds + [false], t)
      else if |s| == 0 then None
      else Exec(p[1..], s[..|s| - 1], conds + [CastToBool(s[|s| - 1])], t)
    else if p[0].Else? then
      if |conds| == 0 then None else Exec(p[1..], s, conds[|conds| - 1 := !conds[|conds| - 1]], t)
    else if p[0].EndIf? then
      if |conds| == 0 then None else Exec(p[1..], s, conds[..|conds| - 1], t)
    else if !Executing(conds) then Exec(p[1..], s, conds, t)
    else
      var r := Step(p[0], s, t);
      if r.None? then None else Exec(p[1..], r.value, conds, t)
  }

  predicate Accepts(p: Program, s: Stack, t: Spend) {
    var r := Exec(p, s, [], t);
    r.Some? && |r.value| > 0 && CastToBool(r.value[|r.value| - 1])
  }

  // ---------------------------------------------------------------- the lock script

  function RefundBranch(refund: Bytes, time: int): Program {
    [Push(EncodeNum(time)), CheckLockTimeVerify, Drop, Push(refund), CheckSig]
  }

  function RedeemBranch(recv: Bytes, x: Bytes): Program {
    [Push([2]), Push(recv), Push(x), Push([2]), CheckMultiSig]
  }

  function LockScript(recv: Bytes, x: Bytes, refund: Bytes, time: int): Program {
    [If] + RefundBranch(refund, time) + [Else] + RedeemBranch(recv, x) + [EndIf]
  }

  // ---------------------------------------------------------------- running straight-line code

  function Run(p: Program, s: Stack, t: Spend): Option<Stack> {
    if |p| == 0 then Some(s)
    else
      var r := Step(p[0], s, t);
      if r.None? then None else Run(p[1..], r.value, t)
  }

  predicate StraightLine(p: Program) { forall i :: 0 <= i < |p| ==> Straight(p[i]) }

  lemma {:induction false} ExecStraight(p: Program, rest: Program, s: Stack, conds: seq<bool>, t: Spend)
    requires StraightLine(p)
    ensures Exec(p + rest, s, conds, t) ==
              if !Executing(conds) then Exec(rest, s, conds, t)
              else if Run(p, s, t).None? then None
              else Exec(rest, Run(p, s, t).value, conds, t)
  {
    if |p| == 0 {
      assert p + rest == rest;
    } else {
      assert (p + rest)[0] == p[0] && (p + rest)[1..] == p[1..] + rest;
      if !Executing(conds) {
        ExecStraight(p[1..], rest, s, conds, t);
      } else if Step(p[0], s, t).Some? {
        ExecStraight(p[1..], rest, Step(p[0], s, t).value, conds, t);
      }
    }
  }

  lemma RunStep(op: Op, rest: Program, s: Stack, t: Spend)
    ensures Run([op] + rest, s, t) == if Step(op, s, t).None? then None else Run(rest, Step(op, s, t).value, t)
  {
    assert ([op] + rest)[1..] == rest;
  }

  // ---------------------------------------------------------------- the branches

  lemma RunRefund(refund: Bytes, time: int, s: Stack, t: Spend)
    ensures Run(RefundBranch(refund, time), s, t) ==
              if |EncodeNum(time)| > 5 || !LockTimeMet(DecodeNum(EncodeNum(time)), t) || |s| == 0 then None
              else Some(s[..|s| - 1] + [if t.valid(s[|s| - 1], refund) then TRUE else FALSE])
  {
    var n := EncodeNum(time);
    var p := RefundBranch(refund, time);
    assert p == [Push(n)] + [CheckLockTimeVerify, Drop, Push(refund), CheckSig];
    RunStep(Push(n), [CheckLockTimeVerify, Drop, Push(refund), CheckSig], s, t);
    assert [CheckLockTimeVerify, Drop, Push(refund), CheckSig] == [CheckLockTimeVerify] + [Drop, Push(refund),
        CheckSig];
    RunStep(CheckLockTimeVerify, [Drop, Push(refund), CheckSig], s + [n], t);
    if |n| <= 5 && LockTimeMet(DecodeNum(n), t) {
      assert [Drop, Push(refund), CheckSig] == [Drop] + [Push(refund), CheckSig];
      RunStep(Drop, [Push(refund), CheckSig], s + [n], t);
      assert (s + [n])[..|s|] == s;
      assert [Push(refund), CheckSig] == [Push(refund)] + [CheckSig];
      RunStep(Push(refund), [CheckSig], s, t);
      assert [CheckSig] == [CheckSig] + [];
      RunStep(CheckSig, [], s + [refund], t);
      if |s| > 0 {
        assert (s + [refund])[..|s| - 1] == s[..|s| - 1];
      }
    }
  }

  lemma TwoDecodes()
    ensures DecodeNum([2]) == 2
  {
    assert LeValue([2]) == 2 + 256 * LeValue([2][1..]);
  }

  lemma TwoOfTwo(a: Bytes, b: Bytes, k: Bytes, l: Bytes, t: Spend)
    ensures MultiSigMet([a, b], [k, l], t) <==> t.valid(b, l) && t.valid(a, k)
  {
    assert [a, b][..1] == [a] && [k, l][..1] == [k];
    assert [a][..0] == [] && [k][..0] == [];
    assert MultiSigMet([a], [k], t) <==> t.valid(a, k);
    assert !MultiSigMet([a, b], [k], t);
  }

  /** A count of two on top takes the two elements below it. */
  lemma PopTwo(s: Stack, a: Bytes, b: Bytes, limit: nat)
    requires limit >= 2
    ensures PopCounted(s + [a, b, [2]], limit) == Some((s, [a, b]))
  {
    hide DecodeNum;
    TwoDecodes();
    var u := s + [a, b, [2]];
    assert u[..|u| - 3] == s && u[|u| - 3..|u| - 1] == [a, b];
  }

  lemma PopTooMany(s: Stack)
    requires |s| < 2
    ensures PopCounted(s + [[2]], 2).None?
  {
    hide DecodeNum;
    TwoDecodes();
  }

  lemma MultiSigStep(s: Stack, recv: Bytes, x: Bytes, t: Spend)
    ensures MultiSig(s + [[2], recv, x, [2]], t) ==
              if |s| < 3 then None
              else Some(s[..|s| - 3] + [if t.valid(s[|s| - 1], x) && t.valid(s[|s| - 2], recv) then TRUE else FALSE])
  {
    hide PopCounted, MultiSigMet;
    var m := s + [[2]];
    assert s + [[2], recv, x, [2]] == m + [recv, x, [2]];
    PopTwo(m, recv, x, 20);
    if |s| < 2 {
      PopTooMany(s);
    } else {
      var u, a, b := s[..|s| - 2], s[|s| - 2], s[|s| - 1];
      assert m == u + [a, b, [2]];
      PopTwo(u, a, b, 2);
      TwoOfTwo(a, b, recv, x, t);
      if |s| >= 3 {
        assert u[..|u| - 1] == s[..|s| - 3];
      }
    }
  }

  lemma RunRedeem(recv: Bytes, x: Bytes, s: Stack, t: Spend)
    ensures Run(RedeemBranch(recv, x), s, t) ==
              if |s| < 3 then None
              else Some(s[..|s| - 3] + [if t.valid(s[|s| - 1], x) && t.valid(s[|s| - 2], recv) then TRUE else FALSE])
  {
    hide MultiSig;
    assert RedeemBranch(recv, x) == [Push([2])] + [Push(recv), Push(x), Push([2]), CheckMultiSig];
    RunStep(Push([2]), [Push(recv), Push(x), Push([2]), CheckMultiSig], s, t);
    assert [Push(recv), Push(x), Push([2]), CheckMultiSig] == [Push(recv)] + [Push(x), Push([2]), CheckMultiSig];
    RunStep(Push(recv), [Push(x), Push([2]), CheckMultiSig], s + [[2]], t);
    assert [Push(x), Push([2]), CheckMultiSig] == [Push(x)] + [Push([2]), CheckMultiSig];
    RunStep(Push(x), [Push([2]), CheckMultiSig], s + [[2]] + [recv], t);
    assert [Push([2]), CheckMultiSig] == [Push([2])] + [CheckMultiSig];
    RunStep(Push([2]), [CheckMultiSig], s + [[2]] + [recv] + [x], t);
    assert [CheckMultiSig] == [CheckMultiSig] + [];
    var u := s + [[2]] + [recv] + [x] + [[2]];
    RunStep(CheckMultiSig, [], u, t);
    assert u == s + [[2], recv, x, [2]];
    MultiSigStep(s, recv, x, t);
  }

  /** The refund branch is open to this spend. */
  predicate RefundMet(s: Stack, refund: Bytes, time: int, t: Spend) {
    && |s| >= 2 && CastToBool(s[|s| - 1])
    && 0 <= time < CLTV_LIMIT && LockTimeMet(time, t)
    && t.valid(s[|s| - 2], refund)
  }

  /** The redeem branch is open to this spend: a dummy, the receiver's signature, the signature under x. */
  predicate RedeemMet(s: Stack, recv: Bytes, x: Bytes, t: Spend) {
    && |s| >= 4 && !CastToBool(s[|s| - 1])
    && t.valid(s[|s| - 2], x) && t.valid(s[|s| - 3], recv)
  }

  lemma Conditionals(refund: Bytes, time: int, recv: Bytes, x: Bytes, s: Stack, t: Spend)
    ensures Exec(LockScript(recv, x, refund, time), s, [], t) ==
              if |s| == 0 then None
              else if CastToBool(s[|s| - 1]) then Run(RefundBranch(refund, time), s[..|s| - 1], t)
              else Run(RedeemBranch(recv, x), s[..|s| - 1], t)
  {
    var rest1 := RefundBranch(refund, time) + ([Else] + RedeemBranch(recv, x) + [EndIf]);
    assert LockScript(recv, x, refund, time) == [If] + rest1;
    assert ([If] + rest1)[1..] == rest1;
    if |s| > 0 {
      var b, u := CastToBool(s[|s| - 1]), s[..|s| - 1];
      assert [] + [b] == [b];
      assert Exec([If] + rest1, s, [], t) == Exec(rest1, u, [b], t);
      var rest2 := RedeemBranch(recv, x) + [EndIf];
      assert [Else] + RedeemBranch(recv, x) + [EndIf] == [Else] + rest2;
      ExecStraight(RefundBranch(refund, time), [Else] + rest2, u, [b], t);
      assert Executing([b]) == b && Executing([!b]) == !b by { OneCond(b); OneCond(!b); }
      var v := if !b then Some(u) else Run(RefundBranch(refund, time), u, t);
      if v.Some? {
        assert ([Else] + rest2)[1..] == rest2;
        assert [b][0 := !b] == [!b];
        assert Exec([Else] + rest2, v.value, [b], t) == Exec(rest2, v.value, [!b], t);
        ExecStraight(RedeemBranch(recv, x), [EndIf], v.value, [!b], t);
        forall w: Stack ensures Exec([EndIf], w, [!b], t) == Some(w) {
          assert [EndIf][1..] == [] && [!b][..0] == [];
        }
      }
    }
  }

  lemma OneCond(b: bool)
    ensures Executing([b]) == b
  {
    assert [b][0] == b;
  }

  /** For every stack and every spending transaction, the lock script accepts exactly the two ways out. */
  lemma LockScriptExact(recv: Bytes, x: Bytes, refund: Bytes, time: int, s: Stack, t: Spend)
    ensures Accepts(LockScript(recv, x, refund, time), s, t)
       <==> RefundMet(s, refund, time, t) || RedeemMet(s, recv, x, t)
  {
    hide Exec, Run, LockScript, RefundBranch, RedeemBranch, EncodeNum, DecodeNum;
    Conditionals(refund, time, recv, x, s, t);
    assert CastToBool(TRUE) by { assert TRUE[0] == 1; }
    assert !CastToBool(FALSE);
    NumberReadsBack(time);
    if time >= 0 {
      NumberFits(time);
    }
    if |s| > 0 {
      RunRefund(refund, time, s[..|s| - 1], t);
      RunRedeem(recv, x, s[..|s| - 1], t);
    }
  }

  // ---------------------------------------------------------------- numbers read back

  function Pow256(k: nat): nat { if k == 0 then 1 else 256 * Pow256(k - 1) }

  lemma {:induction false} LeValueSplit(b: Bytes, c: nat)
    ensures LeValue(b + [c]) == LeValue(b) + c * Pow256(|b|)
  {
    if |b| == 0 {
      assert b + [c] == [c];
      assert LeValue([c]) == c + 256 * LeValue([c][1..]);
    } else {
      assert (b + [c])[1..] == b[1..] + [c];
      LeValueSplit(b[1..], c);
      assert 256 * (c * Pow256(|b| - 1)) == c * Pow256(|b|);
    }
  }

  lemma {:induction false} LeBytesFacts(n: nat)
    ensures LeValue(LeBytes(n)) == n
    ensures n > 0 ==> |LeBytes(n)| > 0 && LeBytes(n)[|LeBytes(n)| - 1] > 0
    ensures forall i :: 0 <= i < |LeBytes(n)| ==> LeBytes(n)[i] < 256
  {
    if n > 0 {
      LeBytesFacts(n / 256);
      assert LeBytes(n)[1..] == LeBytes(n / 256);
      if n / 256 == 0 {
        assert LeBytes(n / 256) == [];
      }
    }
  }

  lemma {:induction false} LeValueBound(b: Bytes)
    requires forall i :: 0 <= i < |b| ==> b[i] < 256
    ensures LeValue(b) < Pow256(|b|)
  {
    if |b| > 0 {
      LeValueBound(b[1..]);
    }
  }

  /** A number pushed by the builder reads back as itself. */
  lemma NumberReadsBack(n: int)
    ensures DecodeNum(EncodeNum(n)) == n
  {
    if n != 0 {
      var a: nat := if n < 0 then -n else n;
      LeBytesFacts(a);
      var m := LeBytes(a);
      var init, last := m[..|m| - 1], m[|m| - 1];
      assert m == init + [last];
      var e := EncodeNum(n);
      if last >= 0x80 {
        LeValueSplit(m, 0);
        if n < 0 {
          assert e[|e| - 1 := 0] == m + [0];
        } else {
          assert e == m + [0];
        }
      } else if n < 0 {
        assert e[|e| - 1 := last] == m;
      } else {
        assert e == m;
      }
    }
  }

  /** The form Bitcoin asks of numbers: bytes, of which the last carries more than a sign only if the one before leaves
      no room for it. */
  predicate Minimal(b: Bytes) {
    && (forall i :: 0 <= i < |b| ==> b[i] < 256)
    && (|b| > 0 && b[|b| - 1] % 0x80 == 0 ==> |b| > 1 && b[|b| - 2] >= 0x80)
  }

  lemma {:induction false} LeBytesUnique(c: Bytes)
    requires forall i :: 0 <= i < |c| ==> c[i] < 256
    requires |c| > 0 ==> c[|c| - 1] > 0
    ensures LeBytes(LeValue(c)) == c
  {
    if |c| > 0 {
      LeBytesUnique(c[1..]);
      assert LeValue(c) % 256 == c[0] && LeValue(c) / 256 == LeValue(c[1..]);
    }
  }

  /** Of all byte strings the builder pushes the minimal one that reads as the number. */
  lemma EncodingExact(b: Bytes, n: int)
    ensures b == EncodeNum(n) <==> Minimal(b) && DecodeNum(b) == n
  {
    hide LeBytes, LeValue;
    NumberReadsBack(n);
    EncodingMinimal(n);
    if Minimal(b) && DecodeNum(b) == n {
      MinimalUnique(b);
    }
  }

  lemma EncodingMinimal(n: int)
    ensures Minimal(EncodeNum(n))
  {
    hide LeValue;
    if n != 0 {
      LeBytesFacts(if n < 0 then -n else n);
    }
  }

  lemma MinimalUnique(b: Bytes)
    requires Minimal(b)
    ensures EncodeNum(DecodeNum(b)) == b
  {
    hide EncodeNum, DecodeNum;
    if |b| == 0 {
      EmptyNumber();
    } else if b[|b| - 1] % 0x80 == 0 {
      assert b == b[..|b| - 1] + [b[|b| - 1]];
      SignAlone(b[..|b| - 1], b[|b| - 1]);
    } else {
      SignShared(b);
    }
  }

  lemma EmptyNumber()
    ensures EncodeNum(DecodeNum([])) == []
  {
  }

  /** The last byte holds nothing but the sign. */
  lemma SignAlone(c: Bytes, t: nat)
    requires |c| > 0 && c[|c| - 1] >= 0x80 && (forall i :: 0 <= i < |c| ==> c[i] < 256) && (t == 0 || t == 0x80)
    ensures EncodeNum(DecodeNum(c + [t])) == c + [t]
  {
    hide LeBytes, LeValue, Pow256;
    var b := c + [t];
    assert b[|b| - 1 := 0] == c + [0];
    LeValueSplit(c, 0);
    LeBytesUnique(c);
    BytesOfZero();
  }

  /** The last byte holds the sign and the top of the number. */
  lemma SignShared(b: Bytes)
    requires |b| > 0 && b[|b| - 1] % 0x80 != 0 && (forall i :: 0 <= i < |b| ==> b[i] < 256)
    ensures EncodeNum(DecodeNum(b)) == b
  {
    hide LeBytes, LeValue;
    var t := b[|b| - 1];
    var c := b[|b| - 1 := if t >= 0x80 then t - 0x80 else t];
    assert c[|c| - 1 := t] == b && (t < 0x80 ==> c == b);
    LeBytesUnique(c);
    BytesOfZero();
  }

  /** The lock script, opcode by opcode, leaves nothing open but how its number is written, and that is minimal. */
  lemma LayoutExact(p: Program, recv: Bytes, x: Bytes, refund: Bytes, time: int)
    ensures p == LockScript(recv, x, refund, time) <==>
              (&& |p| == 13
               && p[0] == If && p[1].Push? && Minimal(p[1].data) && DecodeNum(p[1].data) == time
               && p[2..6] == [CheckLockTimeVerify, Drop, Push(refund), CheckSig]
               && p[6..] == [Else, Push([2]), Push(recv), Push(x), Push([2]), CheckMultiSig, EndIf])
  {
    hide EncodeNum, DecodeNum, Minimal;
    var n := EncodeNum(time);
    EncodingExact(n, time);
    var q := [If, Push(n), CheckLockTimeVerify, Drop, Push(refund), CheckSig]
             + [Else, Push([2]), Push(recv), Push(x), Push([2]), CheckMultiSig, EndIf];
    assert LockScript(recv, x, refund, time) == q;
    if |p| == 13 && p[1].Push? {
      EncodingExact(p[1].data, time);
      assert p == [p[0], p[1]] + p[2..6] + p[6..];
    }
  }

  lemma BytesOfZero()
    ensures LeBytes(0) == []
  {
  }

  lemma PowLiterals()
    ensures Pow256(3) == 0x100_0000 && Pow256(4) == 0x1_0000_0000 && Pow256(5) == 0x100_0000_0000
  {
    assert Pow256(1) == 256 && Pow256(2) == 0x1_0000;
  }

  /** How the length and the top byte of a number's encoding compare with 2^39. */
  lemma TopByte(n: nat, k: nat, low: nat, last: nat)
    requires n == low + last * Pow256(k) && low < Pow256(k) && 0 < last < 256
    ensures k < 4 || (k == 4 && last < 0x80) <==> n < CLTV_LIMIT
  {
    hide Pow256;
    PowLiterals();
    if k < 4 {
      PowMonotone(k, 3);
      MulMonotone(last, 255, Pow256(k), 0x100_0000);
    } else if k > 4 {
      PowMonotone(5, k);
      MulMonotone(1, last, Pow256(5), Pow256(k));
    }
  }

  /** A non-negative number fits the five bytes OP_CHECKLOCKTIMEVERIFY reads exactly when it is below 2^39. */
  lemma NumberFits(n: nat)
    ensures |EncodeNum(n)| <= 5 <==> n < CLTV_LIMIT
  {
    hide Pow256, LeBytes, LeValue;
    if n > 0 {
      LeBytesFacts(n);
      var m := LeBytes(n);
      var init, last := m[..|m| - 1], m[|m| - 1];
      assert m == init + [last];
      LeValueSplit(init, last);
      LeValueBound(init);
      TopByte(n, |init|, LeValue(init), last);
    }
  }

  lemma MulMonotone(a: nat, b: nat, c: nat, d: nat)
    requires a <= b && c <= d
    ensures a * c <= b * d
  {
  }

  lemma {:induction false} PowMonotone(j: nat, k: nat)
    requires j <= k
    ensures Pow256(j) <= Pow256(k)
    decreases k - j
  {
    if j < k {
      PowMonotone(j, k - 1);
    }
  }
}
