/** Decimal text of 64-bit integers, as written and as read by the Go and the
    TypeScript codec. Text is a sequence of UTF-16 code units. */
module Decimals {
  import opened Options
  import opened Numbers

  type Unit = x: int | 0 <= x < 0x1_0000

  const PLUS: Unit := 43
  const MINUS: Unit := 45
  const ZERO: Unit := 48

  predicate Digit(c: Unit) {
    48 <= c <= 57
  }

  predicate AllDigits(s: seq<Unit>) {
    forall i :: 0 <= i < |s| ==> Digit(s[i])
  }

  /** The number a digit string denotes. */
  function Magnitude(s: seq<Unit>): (n: nat)
    requires AllDigits(s)
  {
    if s == [] then 0 else 10 * Magnitude(s[..|s| - 1]) + (s[|s| - 1] - ZERO)
  }

  function Digits(n: nat): (s: seq<Unit>)
    ensures s != []
  {
    if n < 10 then [ZERO + n] else Digits(n / 10) + [ZERO + n % 10]
  }

  function FormatInt(i: int): (s: seq<Unit>) {
    if i < 0 then [MINUS] + Digits(-i) else Digits(i)
  }

  predicate InInt64(i: int) {
    Admitted(Int(i))
  }

  function Signed(negative: bool, n: int): (i: int) {
    if negative then -n else n
  }

  /** `strconv.ParseInt(s, 10, 64)`: an optional sign, at least one digit, in range. */
  function ParseInt(s: seq<Unit>): (r: Option<int>) {
    var signed := s != [] && (s[0] == PLUS || s[0] == MINUS);
    var digits := if signed then s[1..] else s;
    if digits == [] || !AllDigits(digits) then None
    else
      var i := Signed(signed && s[0] == MINUS, Magnitude(digits));
      if InInt64(i) then Some(i) else None
  }

  /** The Go decoder: parse, then insist on the canonical spelling. */
  function GoInt64(s: seq<Unit>): (r: Option<int>) {
    match ParseInt(s)
    case None => None
    case Some(i) => if FormatInt(i) == s then Some(i) else None
  }

  /** The pattern of the TypeScript decoder: 0, or an optional minus and digits
      that do not start with 0. */
  predicate Pattern(s: seq<Unit>) {
    s == [ZERO] ||
    (var digits := if s != [] && s[0] == MINUS then s[1..] else s;
     digits != [] && AllDigits(digits) && digits[0] != ZERO)
  }

  function TsInt64(s: seq<Unit>): (r: Option<int>) {
    if !Pattern(s) then None
    else
      var negative := s[0] == MINUS;
      var i := Signed(negative, Magnitude(if negative then s[1..] else s));
      if InInt64(i) then Some(i) else None
  }

  // ---------- canonical spellings ----------

  lemma {:induction false} DigitsSpell(n: nat)
    ensures AllDigits(Digits(n)) && Magnitude(Digits(n)) == n
    ensures Digits(n)[0] == ZERO <==> n == 0
  {
    if n >= 10 {
      DigitsSpell(n / 10);
      var s := Digits(n);
      assert s[..|s| - 1] == Digits(n / 10);
    } else {
      assert Digits(n)[..0] == [];
      assert Magnitude([]) == 0;
    }
  }

  lemma {:induction false} DigitsOfMagnitude(s: seq<Unit>)
    requires s != [] && AllDigits(s) && s[0] != ZERO
    ensures Magnitude(s) > 0 && Digits(Magnitude(s)) == s
    decreases |s|
  {
    var n := |s| - 1;
    if n == 0 {
      assert Magnitude(s[..0]) == 0;
    } else {
      DigitsOfMagnitude(s[..n]);
      assert s == s[..n] + [s[n]];
    }
  }

  lemma FormatRead(i: int)
    requires InInt64(i)
    ensures ParseInt(FormatInt(i)) == Some(i) && TsInt64(FormatInt(i)) == Some(i)
  {
    if i < 0 {
      DigitsSpell(-i);
      assert FormatInt(i)[1..] == Digits(-i);
    } else {
      DigitsSpell(i);
      assert i == 0 ==> FormatInt(0) == [ZERO];
    }
  }

  lemma PatternCanonical(s: seq<Unit>)
    requires TsInt64(s).Some?
    ensures s == FormatInt(TsInt64(s).value)
  {
    if s == [ZERO] {
      assert Magnitude(s[..0]) == 0;
      assert Magnitude(s) == 0;
    } else if s[0] == MINUS {
      DigitsOfMagnitude(s[1..]);
      assert s == [MINUS] + s[1..];
    } else {
      DigitsOfMagnitude(s);
    }
  }

  /** Both decoders accept exactly the canonical spellings of the int64 range, and
      read the same integer. */
  lemma Int64Decoders(s: seq<Unit>, i: int)
    ensures GoInt64(s) == TsInt64(s)
    ensures GoInt64(s) == Some(i) <==> InInt64(i) && s == FormatInt(i)
  {
    if InInt64(i) {
      FormatRead(i);
    }
    if TsInt64(s).Some? {
      PatternCanonical(s);
      FormatRead(TsInt64(s).value);
    }
    if GoInt64(s).Some? {
      FormatRead(GoInt64(s).value);
    }
  }
}
