/** The twelve-byte key that makes int64 and finite binary64 values comparable
    by plain byte order. The binary64 layout is that of IEEE 754-2019 section 3.4. */
module Numbers {
  import opened Bytes

  const TWO52: nat := 0x10_0000_0000_0000
  const TWO63: nat := 0x8000_0000_0000_0000
  const TWO64: nat := 0x1_0000_0000_0000_0000

  /** An admitted number: an int64, or the fields of a finite binary64. */
  datatype Number =
    | Int(value: int)
    | Float(negative: bool, exponent: nat, fraction: nat)

  predicate Admitted(n: Number) {
    match n
    case Int(v) => -(TWO63 as int) <= v < TWO63
    case Float(_, e, f) => e < 2047 && f < TWO52
  }

  function Pow2(n: nat): (r: nat)
    ensures r > 0
  {
    if n == 0 then 1 else 2 * Pow2(n - 1)
  }

  // ---------- exact meaning ----------

  /** Magnitude in units of 2^-1074, the smallest positive binary64. */
  function Magnitude(n: Number): (m: int)
    ensures m >= 0
  {
    match n
    case Int(v) => (if v < 0 then -v else v) * Pow2(1074)
    case Float(_, e, f) => if e == 0 then f else (TWO52 + f) * Pow2(e - 1)
  }

  /** The exact value, scaled by 2^1074 to an integer. */
  function Exact(n: Number): (x: int) {
    match n
    case Int(v) => if v < 0 then -Magnitude(n) else Magnitude(n)
    case Float(negative, _, _) => if negative then -Magnitude(n) else Magnitude(n)
  }

  // ---------- the key ----------

  /** Number of significant bits, as `bits.Len64`. */
  function BitLen(m: nat): (r: nat) {
    if m == 0 then 0 else 1 + BitLen(m / 2)
  }

  datatype Normal = Normal(negative: bool, exponent: int, significand: nat)

  /** Shifts a nonzero magnitude until its top bit is bit 63. */
  function Shifted(m: nat): (r: nat) {
    m * Pow2(if BitLen(m) <= 64 then 64 - BitLen(m) else 0)
  }

  function NormalForm(n: Number): (r: Normal) {
    match n
    case Int(v) =>
      var m := if v < 0 then -v else v;
      if m == 0 then Normal(false, 0, 0) else Normal(v < 0, BitLen(m) - 1, Shifted(m))
    case Float(negative, e, f) =>
      if e != 0 then Normal(negative, e - 1023, (TWO52 + f) * 2048)
      else if f == 0 then Normal(false, 0, 0)
      else Normal(negative, -1074 + BitLen(f) - 1, Shifted(f))
  }

  const ZEROS: seq<Byte> := [0, 0, 0, 0, 0, 0, 0, 0, 0, 0]

  /** What follows the type tag and the sign byte of a nonzero number. */
  function Digits(r: Normal): (key: seq<Byte>)
    requires r.exponent + 1074 >= 0
    ensures |key| == 10
  {
    BigEndian(2, r.exponent + 1074) + BigEndian(8, r.significand)
  }

  function KeyOfNormal(r: Normal): (key: seq<Byte>)
    requires r.exponent + 1074 >= 0
    ensures |key| == 12 && key[0] == 0x40
  {
    if r.significand == 0 then [0x40, 1] + ZEROS
    else if r.negative then [0x40, 0] + Complement(Digits(r))
    else [0x40, 2] + Digits(r)
  }

  function NumberKey(n: Number): (key: seq<Byte>)
    requires Admitted(n)
    ensures |key| == 12 && key[0] == 0x40
  {
    KeyOfNormal(NormalForm(n))
  }

  // ---------- powers and bit lengths ----------

  /** A product as one atom, so that powers inside it are left alone. */
  predicate IsProduct(x: int, y: int, z: int) {
    x * y == z
  }

  lemma {:induction false} Pow2Add(a: nat, b: nat)
    ensures IsProduct(Pow2(a), Pow2(b), Pow2(a + b))
  {
    if a > 0 {
      Pow2Add(a - 1, b);
      DoubleProduct(Pow2(a - 1), Pow2(b), Pow2(a - 1 + b));
      assert Pow2(a) == 2 * Pow2(a - 1) && Pow2(a + b) == 2 * Pow2(a - 1 + b);
    }
  }

  lemma DoubleProduct(x: int, y: int, z: int)
    requires IsProduct(x, y, z)
    ensures IsProduct(2 * x, y, 2 * z)
  {
  }

  lemma {:induction false} Pow2Monotone(a: nat, b: nat)
    requires a <= b
    ensures Pow2(a) <= Pow2(b)
  {
    if a < b {
      Pow2Monotone(a, b - 1);
    }
  }

  lemma Pow2Constants()
    ensures Pow2(11) == 2048 && Pow2(52) == TWO52 && Pow2(63) == TWO63 && Pow2(64) == TWO64
  {
    assert Pow2(11) == 2048;
    Pow2Add(11, 11);
    Pow2Add(22, 22);
    assert Pow2(8) == 256;
    Pow2Add(44, 8);
    Pow2Add(52, 11);
  }

  lemma {:induction false} BitLenBounds(m: nat)
    requires m > 0
    ensures BitLen(m) > 0 && Pow2(BitLen(m) - 1) <= m < Pow2(BitLen(m))
  {
    if m > 1 {
      BitLenBounds(m / 2);
    }
  }

  lemma BitLenAtMost(m: nat, k: nat)
    requires m > 0 && m < Pow2(k)
    ensures BitLen(m) <= k
  {
    BitLenBounds(m);
    if BitLen(m) > k {
      Pow2Monotone(k, BitLen(m) - 1);
    }
  }

  /** `magnitude << (64 - length)` loses no bit and sets bit 63. */
  lemma ShiftedBounds(m: nat)
    requires 0 < m <= TWO63
    ensures BitLen(m) <= 64 && TWO63 <= Shifted(m) < TWO64
  {
    Pow2Constants();
    BitLenAtMost(m, 64);
    BitLenBounds(m);
    var k := 64 - BitLen(m);
    Pow2Add(BitLen(m) - 1, k);
    Pow2Add(BitLen(m), k);
    MulMonotone(Pow2(BitLen(m) - 1), m, Pow2(k));
    MulStrict(m, Pow2(BitLen(m)), Pow2(k));
  }

  lemma MulMonotone(a: int, b: int, c: nat)
    requires a <= b
    ensures a * c <= b * c
  {
  }

  lemma MulStrict(a: int, b: int, c: nat)
    requires a < b && c > 0
    ensures a * c < b * c
  {
  }

  // ---------- the normal form is exact ----------

  /** `m` is exactly `significand * 2^(e - 63)`, with the top bit of the
      significand set; `e` is the biased exponent of the key. */
  predicate Represents(m: nat, e: nat, significand: nat) {
    m > 0 && TWO63 <= significand < TWO64 && m * TWO63 == significand * Pow2(e)
  }

  lemma ShiftedRepresents(m: nat, shift: nat)
    requires 0 < m <= TWO63
    ensures BitLen(m) > 0 && Represents(m * Pow2(shift), BitLen(m) - 1 + shift, Shifted(m))
  {
    ShiftedBounds(m);
    BitLenBounds(m);
    MulStrict(0, m, Pow2(shift));
    ShiftedProduct(m, shift);
  }

  lemma ShiftedProduct(m: nat, shift: nat)
    requires 0 < m && 0 < BitLen(m) <= 64
    ensures m * Pow2(shift) * TWO63 == Shifted(m) * Pow2(BitLen(m) - 1 + shift)
  {
    var k, e := 64 - BitLen(m), BitLen(m) - 1 + shift;
    Pow2Add(k, e);
    Pow2Add(shift, 63);
    Pow63();
    assert k + e == shift + 63;
    MulCross(m, Pow2(shift), TWO63, Pow2(k), Pow2(e), Pow2(k + e));
  }

  lemma Pow63()
    ensures Pow2(63) == TWO63
  {
    Pow2Constants();
  }

  lemma MulCross(m: int, a: int, b: int, c: int, d: int, n: int)
    requires IsProduct(a, b, n) && IsProduct(c, d, n)
    ensures m * a * b == m * c * d
  {
    MulAssociate(m, a, b);
    MulAssociate(m, c, d);
  }

  lemma MulAssociate(a: int, b: int, c: int)
    ensures a * b * c == a * (b * c)
  {
  }

  lemma NormalFloatRepresents(e: nat, f: nat)
    requires 0 < e < 2047 && f < TWO52
    ensures Represents((TWO52 + f) * Pow2(e - 1), e + 51, (TWO52 + f) * 2048)
  {
    Pow2Constants();
    var m := TWO52 + f;
    Pow2Add(e - 1, 63);
    Pow2Add(11, e + 51);
    MulAssociate(m, Pow2(e - 1), TWO63);
    MulAssociate(m, 2048, Pow2(e + 51));
    MulStrict(0, m, Pow2(e - 1));
  }

  lemma NormalFormRepresents(n: Number)
    requires Admitted(n)
    ensures var r := NormalForm(n);
            0 <= r.exponent + 1074 < 65536
    ensures var r := NormalForm(n);
            if r.significand == 0 then Exact(n) == 0
            else Represents(Magnitude(n), r.exponent + 1074, r.significand) && (r.negative <==> Exact(n) < 0)
  {
    match n
    case Int(v) =>
      var m := if v < 0 then -v else v;
      if m > 0 {
        ShiftedRepresents(m, 1074);
        ShiftedBounds(m);
      }
    case Float(_, e, f) =>
      if e > 0 {
        NormalFloatRepresents(e, f);
      } else if f > 0 {
        ShiftedRepresents(f, 0);
        ShiftedBounds(f);
      }
  }

  // ---------- order ----------

  /** Exponent first, then significand: the order of the represented magnitudes. */
  lemma RepresentsOrder(m1: nat, e1: nat, s1: nat, m2: nat, e2: nat, s2: nat)
    requires Represents(m1, e1, s1) && Represents(m2, e2, s2)
    ensures e1 < e2 ==> m1 < m2
    ensures e1 == e2 ==> Sign(m1 - m2) == Sign(s1 - s2)
  {
    if e1 < e2 {
      Pow2Monotone(e1 + 1, e2);
      MulStrict(s1, TWO64, Pow2(e1));
      MulMonotone(Pow2(e1 + 1), Pow2(e2), TWO63);
      MulMonotone(TWO63, s2, Pow2(e2));
    } else if e1 == e2 {
      if s1 < s2 {
        MulStrict(s1, s2, Pow2(e1));
      } else if s2 < s1 {
        MulStrict(s2, s1, Pow2(e1));
      }
    }
  }

  lemma DigitsOrder(a: Normal, b: Normal, m1: nat, m2: nat)
    requires 0 <= a.exponent + 1074 < 65536 && 0 <= b.exponent + 1074 < 65536
    requires Represents(m1, a.exponent + 1074, a.significand) && Represents(m2, b.exponent + 1074, b.significand)
    ensures Compare(Digits(a), Digits(b)) == Sign(m1 - m2)
  {
    var e1, e2 := a.exponent + 1074, b.exponent + 1074;
    assert Pow256(2) == 65536;
    assert Pow256(4) == 0x1_0000_0000 && Pow256(6) == 0x1_0000_0000_0000 && Pow256(8) == TWO64;
    BigEndianOrder(2, e1, e2);
    BigEndianOrder(8, a.significand, b.significand);
    CompareConcat(BigEndian(2, e1), BigEndian(2, e2), BigEndian(8, a.significand), BigEndian(8, b.significand));
    RepresentsOrder(m1, e1, a.significand, m2, e2, b.significand);
    RepresentsOrder(m2, e2, b.significand, m1, e1, a.significand);
  }

  function SignByte(r: Normal): (b: Byte) {
    if r.significand == 0 then 1 else if r.negative then 0 else 2
  }

  lemma KeyHead(r: Normal, q: Normal)
    requires r.exponent + 1074 >= 0 && q.exponent + 1074 >= 0
    ensures Compare(KeyOfNormal(r), KeyOfNormal(q)) ==
            if SignByte(r) != SignByte(q) then Sign(SignByte(r) - SignByte(q))
            else Compare(KeyOfNormal(r)[2..], KeyOfNormal(q)[2..])
  {
    var a, b := KeyOfNormal(r), KeyOfNormal(q);
    assert a == [0x40, SignByte(r)] + a[2..] && b == [0x40, SignByte(q)] + b[2..];
    CompareConcat([0x40, SignByte(r)], [0x40, SignByte(q)], a[2..], b[2..]);
    assert [0x40, SignByte(r)][1..] == [SignByte(r)] && [0x40, SignByte(q)][1..] == [SignByte(q)];
    assert [SignByte(r)][1..] == [] && [SignByte(q)][1..] == [];
  }

  /** Nonzero numbers of one sign: the digits decide, reversed when negative. */
  lemma SameSignOrder(x: Number, y: Number)
    requires Admitted(x) && Admitted(y)
    requires Exact(x) != 0 && (Exact(x) < 0 <==> Exact(y) < 0) && Exact(y) != 0
    ensures Compare(NumberKey(x)[2..], NumberKey(y)[2..]) == Sign(Exact(x) - Exact(y))
  {
    var a, b := NormalForm(x), NormalForm(y);
    NormalFormRepresents(x);
    NormalFormRepresents(y);
    DigitsOrder(a, b, Magnitude(x), Magnitude(y));
    KeyTail(a);
    KeyTail(b);
    if a.negative {
      CompareComplement(Digits(a), Digits(b));
      CompareAntisymmetric(Digits(a), Digits(b));
    }
  }

  lemma KeyTail(r: Normal)
    requires r.exponent + 1074 >= 0 && r.significand != 0
    ensures KeyOfNormal(r)[2..] == if r.negative then Complement(Digits(r)) else Digits(r)
  {
  }

  lemma SignByteOf(x: Number)
    requires Admitted(x)
    ensures NormalForm(x).exponent + 1074 >= 0
    ensures SignByte(NormalForm(x)) == if Exact(x) == 0 then 1 else if Exact(x) < 0 then 0 else 2
    ensures Exact(x) == 0 ==> NumberKey(x) == [0x40, 1] + ZEROS
  {
    NormalFormRepresents(x);
  }

  /** Byte order of two keys is exact numeric order, across integers, normal and
      subnormal floats and both zeros; keys coincide exactly on equal numbers. */
  lemma NumberKeyOrder(x: Number, y: Number)
    requires Admitted(x) && Admitted(y)
    ensures Compare(NumberKey(x), NumberKey(y)) == Sign(Exact(x) - Exact(y))
    ensures NumberKey(x) == NumberKey(y) <==> Exact(x) == Exact(y)
  {
    SignByteOf(x);
    SignByteOf(y);
    CompareEqual(NumberKey(x), NumberKey(y));
    if Exact(x) != 0 || Exact(y) != 0 {
      KeyHead(NormalForm(x), NormalForm(y));
      if SignByte(NormalForm(x)) == SignByte(NormalForm(y)) {
        SameSignOrder(x, y);
      }
    }
  }

  // ---------- the key, filled in place ----------

  method PutBigEndian(key: array<Byte>, from: nat, width: nat, v: nat)
    requires from + width <= key.Length
    modifies key
    ensures key[..] == old(key[..from]) + BigEndian(width, v) + old(key[from + width..])
  {
    var k, rest := width, v;
    while k > 0
      invariant 0 <= k <= width && rest >= 0
      invariant key[..from] == old(key[..from]) && key[from + width..] == old(key[from + width..])
      invariant BigEndian(width, v) == BigEndian(k, rest) + key[from + k..from + width]
    {
      ghost var tail := key[from + k..from + width];
      key[from + k - 1] := rest % 256;
      assert key[from + k - 1..from + width] == [rest % 256] + tail;
      k, rest := k - 1, rest / 256;
    }
    assert key[..] == key[..from] + key[from..from + width] + key[from + width..];
  }

  /** Bitwise complement of every byte from `from` on. */
  method ComplementFrom(key: array<Byte>, from: nat)
    requires from <= key.Length
    modifies key
    ensures key[..] == old(key[..from]) + Complement(old(key[from..]))
  {
    var i := from;
    while i < key.Length
      invariant from <= i <= key.Length
      invariant forall j :: 0 <= j < from || i <= j < key.Length ==> key[j] == old(key[j])
      invariant forall j :: from <= j < i ==> key[j] == 255 - old(key[j])
    {
      key[i] := 255 - key[i];
      i := i + 1;
    }
  }

  /** A 64-bit word keeps the low 64 bits. */
  function Word64(x: int): (w: nat)
    ensures 0 <= x < TWO64 ==> w == x
  {
    x % TWO64
  }

  method NormalizeInt(v: int) returns (r: Normal)
    requires Admitted(Int(v))
    ensures r == NormalForm(Int(v))
  {
    var magnitude := if v < 0 then Word64(Word64(-(v + 1)) + 1) else Word64(v);
    if magnitude == 0 {
      return Normal(false, 0, 0);
    }
    var length := BitLen(magnitude);
    ShiftedBounds(magnitude);
    r := Normal(v < 0, length - 1, Word64(magnitude * Pow2(64 - length)));
  }

  method NormalizeFloat(negative: bool, e: nat, f: nat) returns (r: Normal)
    requires Admitted(Float(negative, e, f))
    ensures r == NormalForm(Float(negative, e, f))
  {
    if e != 0 {
      return Normal(negative, e - 1023, Word64((TWO52 + f) * 2048));
    }
    if f == 0 {
      return Normal(false, 0, 0);
    }
    var length: int := BitLen(f);
    ShiftedBounds(f);
    r := Normal(negative, -1074 + length - 1, Word64(f * Pow2(64 - length)));
  }

  /** Sign byte, exponent and significand into a zeroed buffer; a negative
      number complements what follows its sign byte. */
  method FillKey(key: array<Byte>, r: Normal)
    requires key.Length == 12 && key[..] == [0x40, 0] + ZEROS
    requires 0 <= r.exponent + 1074 < 65536 && r.significand != 0
    modifies key
    ensures key[..] == KeyOfNormal(r)
  {
    key[1] := 2;
    PutBigEndian(key, 2, 2, (r.exponent + 1074) % 65536);
    PutBigEndian(key, 4, 8, r.significand);
    assert key[..] == [0x40, 2] + Digits(r);
    if r.negative {
      key[1] := 0;
      assert key[..2] == [0x40, 0] && key[2..] == Digits(r);
      ComplementFrom(key, 2);
    }
  }

  method BuildNumberKey(n: Number) returns (key: array<Byte>)
    requires Admitted(n)
    ensures fresh(key) && key[..] == NumberKey(n)
  {
    key := new Byte[12](_ => 0);
    key[0] := 0x40;
    var r;
    match n {
      case Int(v) => r := NormalizeInt(v);
      case Float(negative, e, f) => r := NormalizeFloat(negative, e, f);
    }
    NormalFormRepresents(n);
    if r.significand == 0 {
      key[1] := 1;
    } else {
      FillKey(key, r);
    }
  }
}
