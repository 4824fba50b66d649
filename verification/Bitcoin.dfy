/** The Bitcoin side of the swap: building and signing the lock, redeem and refund transactions. */
module Bitcoin {
  import opened Wrappers
  import opened Curve
  import opened Script

  const U64: nat := 0x1_0000_0000_0000_0000
  const U32: nat := 0x1_0000_0000
  const BTC_FEE: nat := 500

  type Txid = string

  datatype OutPoint = OutPoint(txid: Txid, vout: nat)

  datatype PubScript = P2sh(hash: nat) | P2pkh(hash: nat)

  /** A signed input carries the data its script pushes, in order. */
  datatype TxIn = TxIn(prev: OutPoint, scriptSig: seq<Bytes>, sequence: nat)

  datatype TxOut = TxOut(value: nat, script: PubScript)

  datatype BtcTx = BtcTx(version: nat, lockTime: nat, inputs: seq<TxIn>, outputs: seq<TxOut>)

  /** What a signature covers: everything but the input scripts, and the script it satisfies. */
  datatype Preimage = Preimage(version: nat, lockTime: nat, inputs: seq<(OutPoint, nat)>, outputs: seq<TxOut>, ix: nat,
                               code: ScriptCode)

  datatype ScriptCode = Redeem(p: Program) | Payment(s: PubScript)

  /** What comes from the Bitcoin library: signing, checking, key and script encodings, hashes. */
  datatype BtcEnv = BtcEnv(
    sign: (int, Preimage) -> Bytes,
    check: (Bytes, Bytes, Preimage) -> bool,
    keyBytes: Point -> Bytes,
    scriptBytes: Program -> Bytes,
    parseScript: Bytes -> Option<Program>,
    hash160: Bytes -> nat,
    address: PubScript -> string,
    txid: BtcTx -> Txid)

  /** A signature checks under its own key, and a serialised script parses back. */
  ghost predicate GoodBtcEnv(e: BtcEnv) {
    && (forall sk: int, m: Preimage :: e.check(e.sign(sk, m), e.keyBytes(PointOf(sk)), m))
    && (forall p: Program :: e.parseScript(e.scriptBytes(p)) == Some(p))
  }

  datatype BtcInput = BtcInput(txid: Txid, vout: nat, value: nat, secret: int, key: Point, script: PubScript)

  /** A coin as its owner keeps it: this output of the transaction, paid to the key of this secret. */
  ghost predicate Records(e: BtcEnv, tx: BtcTx, vout: nat, secret: int, coin: BtcInput) {
    && vout < |tx.outputs|
    && tx.outputs[vout].script == P2pkh(e.hash160(e.keyBytes(PointOf(secret))))
    && coin == BtcInput(e.txid(tx), vout, tx.outputs[vout].value, secret, PointOf(secret), tx.outputs[vout].script)
  }

  // ---------------------------------------------------------------- scripts

  function LockProgram(e: BtcEnv, recv: Point, x: Point, refund: Point, time: int): Program {
    LockScript(e.keyBytes(recv), e.keyBytes(x), e.keyBytes(refund), time)
  }

  function LockPubScript(e: BtcEnv, recv: Point, x: Point, refund: Point, time: int): PubScript {
    P2sh(e.hash160(e.scriptBytes(LockProgram(e, recv, x, refund, time))))
  }

  function P2pkhScript(e: BtcEnv, key: Point): PubScript { P2pkh(e.hash160(e.keyBytes(key))) }

  function Skeleton(ins: seq<TxIn>): seq<(OutPoint, nat)> {
    seq(|ins|, i requires 0 <= i < |ins| => (ins[i].prev, ins[i].sequence))
  }

  function SigHash(tx: BtcTx, ix: nat, code: ScriptCode): Preimage {
    Preimage(tx.version, tx.lockTime, Skeleton(tx.inputs), tx.outputs, ix, code)
  }

  /** Does input ix of this transaction satisfy the script of the output it spends? */
  predicate SpendsOutput(e: BtcEnv, tx: BtcTx, ix: nat, out: PubScript)
    requires ix < |tx.inputs|
  {
    var pushed := tx.inputs[ix].scriptSig;
    match out
    case P2sh(h) =>
      && |pushed| > 0
      && e.hash160(pushed[|pushed| - 1]) == h
      && var p := e.parseScript(pushed[|pushed| - 1]);
         && p.Some?
         && Accepts(p.value, pushed[..|pushed| - 1], SpendOf(e, tx, ix, Redeem(p.value)))
    case P2pkh(h) =>
      && |pushed| == 2
      && e.hash160(pushed[1]) == h
      && e.check(pushed[0], pushed[1], SigHash(tx, ix, Payment(out)))
  }

  function SpendOf(e: BtcEnv, tx: BtcTx, ix: nat, code: ScriptCode): Spend
    requires ix < |tx.inputs|
  {
    Spend(tx.lockTime, tx.inputs[ix].sequence, (s, k) => e.check(s, k, SigHash(tx, ix, code)))
  }

  // ---------------------------------------------------------------- building

  function Amounts(ins: seq<BtcInput>): nat {
    if |ins| == 0 then 0 else Amounts(ins[..|ins| - 1]) + ins[|ins| - 1].value
  }

  function UnsignedInputs(ins: seq<BtcInput>): seq<TxIn> {
    seq(|ins|, i requires 0 <= i < |ins| => TxIn(OutPoint(ins[i].txid, ins[i].vout), [], SEQUENCE_FINAL))
  }

  function LockTx(e: BtcEnv, recv: Point, x: Point, refund: Point, change: Point, ins: seq<BtcInput>, amount: nat,
                  fee: nat, time: int): Result<BtcTx> {
    if Amounts(ins) >= U64 || amount + fee >= U64 then Err(Overflow)
    else if Amounts(ins) < amount + fee then Err(TooLittleValue)
    else Ok(BtcTx(1, 0, UnsignedInputs(ins),
                  [TxOut(amount, LockPubScript(e, recv, x, refund, time)),
                   TxOut(Amounts(ins) - amount - fee, P2pkhScript(e, change))]))
  }

  lemma {:induction false} AmountsGrow(ins: seq<BtcInput>, i: nat)
    requires i <= |ins|
    ensures Amounts(ins[..i]) <= Amounts(ins)
    decreases |ins| - i
  {
    if i == |ins| {
      assert ins[..i] == ins;
    } else {
      AmountsGrow(ins, i + 1);
      NextAmount(ins, i);
    }
  }

  lemma NextAmount(ins: seq<BtcInput>, i: nat)
    requires i < |ins|
    ensures Amounts(ins[..i + 1]) == Amounts(ins[..i]) + ins[i].value
  {
    assert ins[..i + 1][..i] == ins[..i];
  }

  /** create_lock_transaction, with its loop over the inputs. An addition that would leave 64 bits stops it. */
  method CreateLockTransaction(e: BtcEnv, recv: Point, x: Point, refund: Point, change: Point, ins: seq<BtcInput>,
                               amount: nat, fee: nat, time: int)
    returns (r: Result<BtcTx>)
    ensures r == LockTx(e, recv, x, refund, change, ins, amount, fee, time)
    ensures r.Ok? <==> amount + fee <= Amounts(ins) < 0x1_0000_0000_0000_0000
    ensures r.Ok? ==>
              && r.value.version == 1 && r.value.lockTime == 0
              && |r.value.inputs| == |ins|
              && (forall i :: 0 <= i < |ins| ==>
                    r.value.inputs[i] == TxIn(OutPoint(ins[i].txid, ins[i].vout), [], 0xFFFF_FFFF))
              && |r.value.outputs| == 2
              && r.value.outputs[0] == TxOut(amount, LockPubScript(e, recv, x, refund, time))
              && r.value.outputs[1].script == P2pkhScript(e, change)
              && amount + r.value.outputs[1].value + fee == Amounts(ins)
  {
    var txinp: seq<TxIn> := [];
    var total := 0;
    for i := 0 to |ins|
      invariant total == Amounts(ins[..i]) < U64
      invariant txinp == UnsignedInputs(ins)[..i]
    {
      NextAmount(ins, i);
      AmountsGrow(ins, i + 1);
      if total + ins[i].value >= U64 {
        return Err(Overflow);
      }
      total := total + ins[i].value;
      txinp := txinp + [TxIn(OutPoint(ins[i].txid, ins[i].vout), [], SEQUENCE_FINAL)];
    }
    assert ins[..|ins|] == ins && UnsignedInputs(ins)[..|ins|] == UnsignedInputs(ins);
    if amount + fee >= U64 {
      return Err(Overflow);
    } else if total < amount + fee {
      return Err(TooLittleValue);
    }
    var lock := TxOut(amount, LockPubScript(e, recv, x, refund, time));
    r := Ok(BtcTx(1, 0, txinp, [lock, TxOut(total - amount - fee, P2pkhScript(e, change))]));
  }

  function SpendLockTx(e: BtcEnv, recv: Point, input: BtcInput, amount: nat, fee: nat, lockTime: nat): Result<BtcTx> {
    if input.value != amount then Err(NotFullyRedeemed)
    else if amount < fee then Err(Overflow)
    else Ok(BtcTx(1, lockTime, [TxIn(OutPoint(input.txid, input.vout), [],
                                     if lockTime == 0 then SEQUENCE_FINAL else 0)],
                  [TxOut(amount - fee, P2pkhScript(e, recv))]))
  }

  /** A spend of the locked coin is built exactly when the coin is spent whole and covers the fee. It spends just that
      outpoint, pays the rest to the one key, and is final at once unless it is given a lock time. */
  lemma SpendLockExact(e: BtcEnv, recv: Point, input: BtcInput, amount: nat, fee: nat, lockTime: nat, tx: BtcTx)
    ensures SpendLockTx(e, recv, input, amount, fee, lockTime) == Ok(tx) <==>
              (&& input.value == amount >= fee
               && tx.version == 1 && tx.lockTime == lockTime
               && tx.inputs == [TxIn(OutPoint(input.txid, input.vout), [], if lockTime == 0 then 0xFFFF_FFFF else 0)]
               && |tx.outputs| == 1 && tx.outputs[0].value + fee == amount
               && tx.outputs[0].script == P2pkh(e.hash160(e.keyBytes(recv))))
  {
    if |tx.outputs| == 1 && tx.outputs[0].value + fee == amount {
      assert tx.outputs == [TxOut(tx.outputs[0].value, tx.outputs[0].script)];
      assert tx == BtcTx(tx.version, tx.lockTime, tx.inputs, tx.outputs);
    }
  }

  // ---------------------------------------------------------------- signing

  /** The unsigned transaction with the given data on one input and all else as it was. */
  predicate SameButScripts(tx: BtcTx, signed: BtcTx) {
    && signed.version == tx.version && signed.lockTime == tx.lockTime && signed.outputs == tx.outputs
    && Skeleton(signed.inputs) == Skeleton(tx.inputs)
  }

  function P2pkhData(e: BtcEnv, tx: BtcTx, i: nat, script: PubScript, sk: int, pk: Point): seq<Bytes> {
    [e.sign(sk, SigHash(tx, i, Payment(script))), e.keyBytes(pk)]
  }

  function P2pkhSigned(e: BtcEnv, tx: BtcTx, scripts: seq<PubScript>, sks: seq<int>, pks: seq<Point>): Result<BtcTx> {
    if |scripts| < |tx.inputs| || |sks| < |tx.inputs| || |pks| < |tx.inputs| then Err(UnsignedInput)
    else Ok(tx.(inputs := seq(|tx.inputs|, i requires 0 <= i < |tx.inputs| =>
                            tx.inputs[i].(scriptSig := P2pkhData(e, tx, i, scripts[i], sks[i], pks[i])))))
  }

  /** sign_p2pkh_transaction: a script or key missing for some input stops it. */
  method SignP2pkhTransaction(e: BtcEnv, tx: BtcTx, scripts: seq<PubScript>, sks: seq<int>, pks: seq<Point>)
    returns (r: Result<BtcTx>)
    ensures r == P2pkhSigned(e, tx, scripts, sks, pks)
    ensures r.Ok? <==> |tx.inputs| <= |scripts| && |tx.inputs| <= |sks| && |tx.inputs| <= |pks|
    ensures r.Ok? ==> SameButScripts(tx, r.value)
  {
    var signed: seq<TxIn> := [];
    for i := 0 to |tx.inputs|
      invariant |signed| == i && i <= |scripts| && i <= |sks| && i <= |pks|
      invariant forall j :: 0 <= j < i ==>
                  signed[j] == tx.inputs[j].(scriptSig := P2pkhData(e, tx, j, scripts[j], sks[j], pks[j]))
    {
      if i >= |scripts| || i >= |sks| || i >= |pks| {
        return Err(UnsignedInput);
      }
      signed := signed + [TxIn(tx.inputs[i].prev, P2pkhData(e, tx, i, scripts[i], sks[i], pks[i]),
                               tx.inputs[i].sequence)];
    }
    assert signed == P2pkhSigned(e, tx, scripts, sks, pks).value.inputs;
    assert Skeleton(signed) == Skeleton(tx.inputs);
    r := Ok(BtcTx(tx.version, tx.lockTime, signed, tx.outputs));
  }

  /** Every input signed with the key of the output it spends satisfies that output. */
  lemma P2pkhSpends(e: BtcEnv, tx: BtcTx, scripts: seq<PubScript>, sks: seq<int>, pks: seq<Point>, i: nat)
    requires GoodBtcEnv(e) && P2pkhSigned(e, tx, scripts, sks, pks).Ok? && i < |tx.inputs|
    requires pks[i] == PointOf(sks[i]) && scripts[i] == P2pkhScript(e, pks[i])
    ensures SameButScripts(tx, P2pkhSigned(e, tx, scripts, sks, pks).value)
    ensures SpendsOutput(e, P2pkhSigned(e, tx, scripts, sks, pks).value, i, scripts[i])
  {
    hide Mod;
    var signed := P2pkhSigned(e, tx, scripts, sks, pks).value;
    assert Skeleton(signed.inputs) == Skeleton(tx.inputs);
    assert SigHash(signed, i, Payment(scripts[i])) == SigHash(tx, i, Payment(scripts[i]));
  }

  function WithScript(tx: BtcTx, ix: nat, data: seq<Bytes>): BtcTx {
    if ix < |tx.inputs| then tx.(inputs := tx.inputs[ix := tx.inputs[ix].(scriptSig := data)]) else tx
  }

  function RedeemData(e: BtcEnv, tx: BtcTx, ix: nat, p: Program, sk: int, x: int): seq<Bytes> {
    [[], e.sign(sk, SigHash(tx, ix, Redeem(p))), e.sign(x, SigHash(tx, ix, Redeem(p))), [], e.scriptBytes(p)]
  }

  function RefundData(e: BtcEnv, tx: BtcTx, ix: nat, p: Program, sk: int): seq<Bytes> {
    [e.sign(sk, SigHash(tx, ix, Redeem(p))), [1], e.scriptBytes(p)]
  }

  method SignLockTransactionRedeemer(e: BtcEnv, tx: BtcTx, ix: nat, p: Program, sk: int, x: int) returns (signed: BtcTx)
    ensures signed == WithScript(tx, ix, RedeemData(e, tx, ix, p, sk, x))
  {
    var inputs := SignAt(tx, ix, RedeemData(e, tx, ix, p, sk, x));
    signed := BtcTx(tx.version, tx.lockTime, inputs, tx.outputs);
  }

  method SignLockTransactionRefund(e: BtcEnv, tx: BtcTx, ix: nat, p: Program, sk: int) returns (signed: BtcTx)
    ensures signed == WithScript(tx, ix, RefundData(e, tx, ix, p, sk))
  {
    var inputs := SignAt(tx, ix, RefundData(e, tx, ix, p, sk));
    signed := BtcTx(tx.version, tx.lockTime, inputs, tx.outputs);
  }

  /** The loop both signers share: rebuild the input list, filling in one script. */
  method SignAt(tx: BtcTx, ix: nat, data: seq<Bytes>) returns (inputs: seq<TxIn>)
    ensures inputs == WithScript(tx, ix, data).inputs
  {
    inputs := [];
    for i := 0 to |tx.inputs|
      invariant inputs == WithScript(tx, ix, data).inputs[..i]
    {
      if i == ix {
        inputs := inputs + [TxIn(tx.inputs[i].prev, data, tx.inputs[i].sequence)];
      } else {
        inputs := inputs + [tx.inputs[i]];
      }
    }
  }

  // ---------------------------------------------------------------- what the transactions achieve

  /** Signing never changes what the signatures cover. */
  lemma SigningKeepsPreimage(tx: BtcTx, ix: nat, data: seq<Bytes>, j: nat, code: ScriptCode)
    ensures SameButScripts(tx, WithScript(tx, ix, data))
    ensures SigHash(WithScript(tx, ix, data), j, code) == SigHash(tx, j, code)
  {
    assert Skeleton(WithScript(tx, ix, data).inputs) == Skeleton(tx.inputs);
  }

  /** A signature checks under no other key. */
  ghost predicate OnlyOwnKey(e: BtcEnv) {
    forall sk: int, k: Point, m: Preimage :: e.check(e.sign(sk, m), e.keyBytes(k), m) ==> k == PointOf(sk)
  }

  /** The redeemer's data spends the lock output exactly when its two signatures check under the receiver's key and
      X, in this order. */
  lemma RedeemChecks(e: BtcEnv, tx: BtcTx, recv: Point, x: Point, refund: Point, time: int, sk: int, w: int)
    requires GoodBtcEnv(e) && |tx.inputs| > 0
    ensures var p := LockProgram(e, recv, x, refund, time);
            var m := SigHash(tx, 0, Redeem(p));
            SpendsOutput(e, WithScript(tx, 0, RedeemData(e, tx, 0, p, sk, w)), 0,
                         LockPubScript(e, recv, x, refund, time)) <==>
              e.check(e.sign(sk, m), e.keyBytes(recv), m) && e.check(e.sign(w, m), e.keyBytes(x), m)
  {
    hide Mod, Accepts, LockScript;
    var p := LockProgram(e, recv, x, refund, time);
    var data := RedeemData(e, tx, 0, p, sk, w);
    var signed := WithScript(tx, 0, data);
    SigningKeepsPreimage(tx, 0, data, 0, Redeem(p));
    var pushed := signed.inputs[0].scriptSig;
    var s := pushed[..|pushed| - 1];
    assert s == [[], data[1], data[2], []];
    LockScriptExact(e.keyBytes(recv), e.keyBytes(x), e.keyBytes(refund), time, s, SpendOf(e, signed, 0, Redeem(p)));
    assert !CastToBool(s[3]);
  }

  /** So the keys of receiver and X always do, and where signatures check under their own keys only, no others do. */
  lemma RedeemSpends(e: BtcEnv, tx: BtcTx, recv: Point, x: Point, refund: Point, time: int, sk: int, w: int)
    requires GoodBtcEnv(e) && |tx.inputs| > 0
    ensures var p := LockProgram(e, recv, x, refund, time);
            var signed := WithScript(tx, 0, RedeemData(e, tx, 0, p, sk, w));
            && (PointOf(sk) == recv && PointOf(w) == x ==> SpendsOutput(e, signed, 0,
                LockPubScript(e, recv, x, refund, time)))
            && (OnlyOwnKey(e) && SpendsOutput(e, signed, 0, LockPubScript(e, recv, x, refund, time)) ==>
                  PointOf(sk) == recv && PointOf(w) == x)
  {
    hide Mod, SpendsOutput, LockProgram, LockPubScript, RedeemData, WithScript;
    RedeemChecks(e, tx, recv, x, refund, time, sk, w);
  }

  /** The refund built by the program meets its branch for every positive 32-bit refund time, and for zero it
      never does: a transaction without lock time leaves the input final. */
  lemma RefundSpendsExact(e: BtcEnv, tx: BtcTx, recv: Point, x: Point, refund: Point, time: nat, sk: int)
    requires GoodBtcEnv(e) && |tx.inputs| > 0 && time < U32
    requires tx.lockTime == time && tx.inputs[0].sequence == (if time == 0 then SEQUENCE_FINAL else 0)
    requires PointOf(sk) == refund
    ensures SpendsOutput(e, WithScript(tx, 0, RefundData(e, tx, 0, LockProgram(e, recv, x, refund, time), sk)), 0,
                         LockPubScript(e, recv, x, refund, time))
       <==> time > 0
  {
    hide Mod, Accepts, LockScript;
    var p := LockProgram(e, recv, x, refund, time);
    var data := RefundData(e, tx, 0, p, sk);
    var signed := WithScript(tx, 0, data);
    SigningKeepsPreimage(tx, 0, data, 0, Redeem(p));
    var pushed := signed.inputs[0].scriptSig;
    var s := pushed[..|pushed| - 1];
    assert s == [data[0], [1]];
    LockScriptExact(e.keyBytes(recv), e.keyBytes(x), e.keyBytes(refund), time, s, SpendOf(e, signed, 0, Redeem(p)));
    assert CastToBool(s[1]) by { assert s[1][0] == 1; }
  }

  /** Bitcoin is conserved across the lock and either way of spending it: what went in comes out as change,
      the redeemed or refunded value, and two fees. */
  lemma BitcoinConserved(e: BtcEnv, recv: Point, x: Point, refund: Point, change: Point, ins: seq<BtcInput>,
                         amount: nat, time: int,
                         txid: Txid, to: Point, lockTime: nat, secret: int, key: Point)
    requires LockTx(e, recv, x, refund, change, ins, amount, BTC_FEE, time).Ok?
    ensures var lock := LockTx(e, recv, x, refund, change, ins, amount, BTC_FEE, time).value;
            var coin := BtcInput(txid, 0, lock.outputs[0].value, secret, key, lock.outputs[0].script);
            var spend := SpendLockTx(e, to, coin, amount, BTC_FEE, lockTime);
            && (spend.Ok? <==> amount >= BTC_FEE)
            && (spend.Ok? ==>
                  (&& |spend.value.outputs| == 1
                   && Amounts(ins) == lock.outputs[1].value + spend.value.outputs[0].value + 2 * BTC_FEE
                   && spend.value.inputs[0].prev == OutPoint(txid, 0)))
  {
  }
}
