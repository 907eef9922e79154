/** Byte strings under the lexicographic order of `bytes.Compare`. */
module Bytes {

  type Byte = x: int | 0 <= x < 256

  function Sign(x: int): (r: int) {
    if x < 0 then -1 else if x > 0 then 1 else 0
  }

  /** -1, 0 or 1; a proper prefix sorts first. */
  function Compare(a: seq<Byte>, b: seq<Byte>): (r: int)
    ensures -1 <= r <= 1
    decreases |a|
  {
    if a == [] then (if b == [] then 0 else -1)
    else if b == [] then 1
    else if a[0] != b[0] then (if a[0] < b[0] then -1 else 1)
    else Compare(a[1..], b[1..])
  }

  lemma {:induction false} CompareEqual(a: seq<Byte>, b: seq<Byte>)
    ensures Compare(a, b) == 0 <==> a == b
    decreases |a|
  {
    if a != [] && b != [] && a[0] == b[0] {
      CompareEqual(a[1..], b[1..]);
      assert a == [a[0]] + a[1..] && b == [b[0]] + b[1..];
    }
  }

  lemma {:induction false} CompareAntisymmetric(a: seq<Byte>, b: seq<Byte>)
    ensures Compare(a, b) == -Compare(b, a)
    decreases |a|
  {
    if a != [] && b != [] && a[0] == b[0] {
      CompareAntisymmetric(a[1..], b[1..]);
    }
  }

  lemma {:induction false} CompareTransitive(a: seq<Byte>, b: seq<Byte>, c: seq<Byte>)
    requires Compare(a, b) <= 0 && Compare(b, c) <= 0
    ensures Compare(a, c) <= 0
    ensures Compare(a, c) == 0 ==> Compare(a, b) == 0 && Compare(b, c) == 0
    decreases |a|
  {
    if a != [] && b != [] && c != [] && a[0] == b[0] == c[0] {
      CompareTransitive(a[1..], b[1..], c[1..]);
    }
  }

  /** A first difference within equally long heads decides; otherwise the tails do. */
  lemma {:induction false} CompareConcat(a: seq<Byte>, b: seq<Byte>, u: seq<Byte>, v: seq<Byte>)
    requires |a| == |b|
    ensures Compare(a + u, b + v) == if Compare(a, b) != 0 then Compare(a, b) else Compare(u, v)
    decreases |a|
  {
    if a == [] {
      assert a + u == u && b + v == v;
    } else {
      assert (a + u)[1..] == a[1..] + u && (b + v)[1..] == b[1..] + v;
      if a[0] == b[0] {
        CompareConcat(a[1..], b[1..], u, v);
      }
    }
  }

  function Complement(a: seq<Byte>): (r: seq<Byte>)
    ensures |r| == |a|
    ensures forall i :: 0 <= i < |a| ==> r[i] == 255 - a[i]
  {
    seq(|a|, i requires 0 <= i < |a| => 255 - a[i])
  }

  lemma {:induction false} CompareComplement(a: seq<Byte>, b: seq<Byte>)
    requires |a| == |b|
    ensures Compare(Complement(a), Complement(b)) == Compare(b, a)
    decreases |a|
  {
    if a != [] {
      assert Complement(a)[1..] == Complement(a[1..]);
      assert Complement(b)[1..] == Complement(b[1..]);
      CompareComplement(a[1..], b[1..]);
    }
  }

  /** `n` bytes, most significant first. */
  function BigEndian(n: nat, v: nat): (r: seq<Byte>)
    ensures |r| == n
  {
    if n == 0 then [] else BigEndian(n - 1, v / 256) + [v % 256]
  }

  function Pow256(n: nat): (r: nat)
    ensures r > 0
  {
    if n == 0 then 1 else 256 * Pow256(n - 1)
  }

  /** Fixed-width big-endian byte order is numeric order. */
  lemma {:induction false} BigEndianOrder(n: nat, v: nat, w: nat)
    requires v < Pow256(n) && w < Pow256(n)
    ensures Compare(BigEndian(n, v), BigEndian(n, w)) == Sign(v - w)
  {
    if n > 0 {
      BigEndianOrder(n - 1, v / 256, w / 256);
      CompareConcat(BigEndian(n - 1, v / 256), BigEndian(n - 1, w / 256), [v % 256], [w % 256]);
      assert Compare([v % 256], [w % 256]) == Sign((v % 256) - (w % 256)) by {
        assert [v % 256][1..] == [] && [w % 256][1..] == [];
      }
      DigitsOrder(v, w);
    }
  }

  lemma DigitsOrder(v: nat, w: nat)
    ensures v / 256 < w / 256 ==> v < w
    ensures v / 256 == w / 256 ==> Sign(v - w) == Sign(v % 256 - w % 256)
  {
  }
}
