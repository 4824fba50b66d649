/** Heights travel between the parties as decimal text. */
module Decimal {
  import opened Wrappers

  const I64: nat := 0x8000_0000_0000_0000

  function Digit(d: nat): char
    requires d < 10
  {
    ('0' as int + d) as char
  }

  predicate IsDigit(c: char) { '0' <= c <= '9' }

  function Print(n: nat): string {
    if n < 10 then [Digit(n)] else Print(n / 10) + [Digit(n % 10)]
  }

  /** The value of a string of digits; no digits at all is no number. */
  function Digits(s: string): Option<nat> {
    if |s| == 0 || !IsDigit(s[|s| - 1]) then None
    else
      var d := s[|s| - 1] as int - '0' as int;
      if |s| == 1 then Some(d)
      else
        var rest := Digits(s[..|s| - 1]);
        if rest.None? then None else Some(10 * rest.value + d)
  }

  /** Reading a signed 64-bit number: an optional sign, digits, and a value in range. */
  function ParseI64(s: string): Option<int> {
    var negative := |s| > 0 && s[0] == '-';
    var body := if |s| > 0 && (s[0] == '-' || s[0] == '+') then s[1..] else s;
    var v := Digits(body);
    if v.None? then None
    else if negative then (if v.value <= I64 then Some(0 - v.value) else None)
    else if v.value < I64 then Some(v.value) else None
  }

  lemma {:induction false} DigitsOfPrint(n: nat)
    ensures Digits(Print(n)) == Some(n)
    ensures |Print(n)| > 0 && IsDigit(Print(n)[0])
  {
    if n < 10 {
      assert Print(n) == [Digit(n)];
    } else {
      DigitsOfPrint(n / 10);
      var s := Print(n);
      assert s[..|s| - 1] == Print(n / 10) && s[|s| - 1] == Digit(n % 10);
    }
  }

  // ---------------------------------------------------------------- what is read at all

  function Padding(k: nat): string { if k == 0 then "" else ['0'] + Padding(k - 1) }

  lemma {:induction false} PaddingAppend(k: nat)
    ensures Padding(k) + ['0'] == Padding(k + 1)
  {
    if k > 0 {
      PaddingAppend(k - 1);
      assert Padding(k) + ['0'] == ['0'] + (Padding(k - 1) + ['0']);
    }
  }

  lemma {:induction false} DigitsPadded(k: nat, t: string)
    requires Digits(t).Some?
    ensures Digits(Padding(k) + t) == Digits(t)
    decreases |t|
  {
    var s := Padding(k) + t;
    assert s[|s| - 1] == t[|t| - 1];
    if |t| == 1 {
      if k > 0 {
        PaddingRead(k);
        assert s[..|s| - 1] == Padding(k);
      } else {
        assert s == t;
      }
    } else {
      DigitsPadded(k, t[..|t| - 1]);
      assert s[..|s| - 1] == Padding(k) + t[..|t| - 1];
    }
  }

  lemma {:induction false} PaddingRead(k: nat)
    requires k > 0
    ensures Digits(Padding(k)) == Some(0)
  {
    if k == 1 {
      assert Padding(1) == "0";
    } else {
      PaddingRead(k - 1);
      PaddingAppend(k - 1);
      var s := Padding(k);
      assert s == Padding(k - 1) + ['0'];
      assert s[..|s| - 1] == Padding(k - 1);
    }
  }

  /** Digits are read as a number exactly when they are its usual form after some zeros. */
  lemma {:induction false} DigitsExact(s: string, n: nat)
    ensures Digits(s) == Some(n) <==> exists k :: s == Padding(k) + Print(n)
  {
    if Digits(s) == Some(n) {
      var k := DigitsUsual(s);
    }
    if k :| s == Padding(k) + Print(n) {
      DigitsOfPrint(n);
      DigitsPadded(k, Print(n));
    }
  }

  lemma {:induction false} DigitsUsual(s: string) returns (k: nat)
    requires Digits(s).Some?
    ensures s == Padding(k) + Print(Digits(s).value)
  {
    var n := Digits(s).value;
    var c := s[|s| - 1];
    assert c == Digit(n % 10);
    if |s| == 1 {
      k := 0;
    } else {
      var m := Digits(s[..|s| - 1]).value;
      k := DigitsUsual(s[..|s| - 1]);
      assert s == s[..|s| - 1] + [c];
      if m == 0 {
        assert Print(m) == "0" && Print(n) == [c];
        PaddingAppend(k);
        k := k + 1;
      } else {
        assert Print(n) == Print(m) + [c];
      }
    }
  }

  /** What is read as a signed 64-bit number: a number in range, perhaps after zeros and a sign that suits it. */
  lemma ParseExact(s: string, n: int)
    ensures ParseI64(s) == Some(n) <==>
              && -0x8000_0000_0000_0000 <= n < 0x8000_0000_0000_0000
              && exists k ::
                   || (n >= 0 && (s == Padding(k) + Print(n) || s == "+" + (Padding(k) + Print(n))))
                   || (n <= 0 && s == "-" + (Padding(k) + Print(-n)))
  {
    hide Digits, Print;
    if ParseI64(s) == Some(n) {
      var signed := |s| > 0 && (s[0] == '-' || s[0] == '+');
      var k := DigitsUsual(if signed then s[1..] else s);
      if signed {
        assert s == [s[0]] + s[1..];
      }
    }
    if k :| || (n >= 0 && (s == Padding(k) + Print(n) || s == "+" + (Padding(k) + Print(n))))
            || (n <= 0 && s == "-" + (Padding(k) + Print(-n)))
    {
      var m := if n >= 0 then n else -n;
      DigitsOfPrint(m);
      DigitsPadded(k, Print(m));
      FirstIsDigit(k, m);
      if s != Padding(k) + Print(m) {
        assert s[1..] == Padding(k) + Print(m);
      }
    }
  }

  lemma FirstIsDigit(k: nat, n: nat)
    ensures |Padding(k) + Print(n)| > 0 && IsDigit((Padding(k) + Print(n))[0])
  {
    DigitsOfPrint(n);
    if k > 0 {
      assert (Padding(k) + Print(n))[0] == '0';
    } else {
      assert Padding(k) + Print(n) == Print(n);
    }
  }

  /** A printed height reads back as itself exactly when it fits a signed 64-bit number. */
  lemma ParsePrint(n: nat)
    ensures ParseI64(Print(n)) == if n < I64 then Some(n) else None
  {
    DigitsOfPrint(n);
  }
}
