/** Dynamic values, their normalization and their total scalar order. */
module Values {
  import opened Options
  import opened Bytes
  import opened Numbers

  datatype FloatBits = Finite(negative: bool, exponent: nat, fraction: nat) | Infinite(negative: bool) | NaN

  type Float64 = f: FloatBits | f.Finite? ==> f.exponent < 2047 && f.fraction < TWO52 witness NaN

  /** A dynamic value as a caller may present it. `Integer` stands for every sized
      signed integer and for integer JSON tokens of any magnitude; `Unsupported`
      stands for every other Go type. */
  datatype Value =
    | Null
    | Bool(flag: bool)
    | Text(bytes: seq<Byte>)
    | Integer(integer: int)
    | Floating(floating: Float64)
    | Items(items: seq<Value>)
    | Fields(fields: map<seq<Byte>, Value>)
    | Unsupported

  // ---------- UTF-8 ----------

  predicate Continuation(b: Byte) {
    0x80 <= b <= 0xBF
  }

  /** Bytes of the first encoded code point of `s`, or 0 when malformed
      (section 4 of RFC 3629). */
  function LeadLength(s: seq<Byte>): (n: nat)
    requires s != []
    ensures n <= |s| && n <= 4
  {
    var b := s[0];
    if b < 0x80 then 1
    else if 0xC2 <= b <= 0xDF then
      if |s| >= 2 && Continuation(s[1]) then 2 else 0
    else if 0xE0 <= b <= 0xEF then
      if |s| >= 3 && Continuation(s[1]) && Continuation(s[2]) &&
         (b == 0xE0 ==> s[1] >= 0xA0) && (b == 0xED ==> s[1] <= 0x9F) then 3 else 0
    else if 0xF0 <= b <= 0xF4 then
      if |s| >= 4 && Continuation(s[1]) && Continuation(s[2]) && Continuation(s[3]) &&
         (b == 0xF0 ==> s[1] >= 0x90) && (b == 0xF4 ==> s[1] <= 0x8F) then 4 else 0
    else 0
  }

  predicate ValidUtf8(s: seq<Byte>)
    decreases |s|
  {
    s == [] || (LeadLength(s) > 0 && ValidUtf8(s[LeadLength(s)..]))
  }

  // ---------- normalization ----------

  function CanonicalFloat(f: Float64): (r: Option<Value>) {
    if !f.Finite? then None
    else if f.exponent == 0 && f.fraction == 0 then Some(Floating(Finite(false, 0, 0)))
    else Some(Floating(f))
  }

  function Normalize(v: Value): (r: Option<Value>)
    decreases v
  {
    match v
    case Null => Some(v)
    case Bool(_) => Some(v)
    case Text(s) => if ValidUtf8(s) then Some(v) else None
    case Integer(i) => if Admitted(Int(i)) then Some(v) else None
    case Floating(f) => CanonicalFloat(f)
    case Items(xs) =>
      if forall i :: 0 <= i < |xs| ==> Normalize(xs[i]).Some?
      then Some(Items(seq(|xs|, i requires 0 <= i < |xs| && Normalize(xs[i]).Some? => Normalize(xs[i]).value)))
      else None
    case Fields(m) =>
      if forall k :: k in m ==> ValidUtf8(k) && Normalize(m[k]).Some?
      then Some(Fields(map k | k in m && Normalize(m[k]).Some? :: Normalize(m[k]).value))
      else None
    case Unsupported => None
  }

  /** Already in the canonical domain: valid text, int64, finite floats without
      a negative zero, at every depth. */
  predicate Canonical(v: Value)
    decreases v
  {
    match v
    case Null => true
    case Bool(_) => true
    case Text(s) => ValidUtf8(s)
    case Integer(i) => Admitted(Int(i))
    case Floating(f) => f.Finite? && (f.exponent == 0 && f.fraction == 0 ==> !f.negative)
    case Items(xs) => forall i :: 0 <= i < |xs| ==> Canonical(xs[i])
    case Fields(m) => forall k :: k in m ==> ValidUtf8(k) && Canonical(m[k])
    case Unsupported => false
  }

  /** A value differs from its normal form only in the sign of zeros. */
  predicate SameUpToZeroSign(v: Value, w: Value)
    decreases v
  {
    match v
    case Floating(f) =>
      w == v || (f.Finite? && f.exponent == 0 && f.fraction == 0 && w == Floating(Finite(false, 0, 0)))
    case Items(xs) =>
      w.Items? && |w.items| == |xs| && forall i :: 0 <= i < |xs| ==> SameUpToZeroSign(xs[i], w.items[i])
    case Fields(m) =>
      w.Fields? && w.fields.Keys == m.Keys &&
      forall k :: k in m ==> k in w.fields && SameUpToZeroSign(m[k], w.fields[k])
    case _ => w == v
  }

  lemma {:induction false} NormalizeCanonical(v: Value)
    ensures Normalize(v).Some? ==> Canonical(Normalize(v).value) && SameUpToZeroSign(v, Normalize(v).value)
    decreases v
  {
    match v
    case Items(xs) =>
      forall i | 0 <= i < |xs|
        ensures Normalize(xs[i]).Some? ==>
                  Canonical(Normalize(xs[i]).value) && SameUpToZeroSign(xs[i], Normalize(xs[i]).value)
      {
        NormalizeCanonical(xs[i]);
      }
    case Fields(m) =>
      forall k | k in m
        ensures Normalize(m[k]).Some? ==>
                  Canonical(Normalize(m[k]).value) && SameUpToZeroSign(m[k], Normalize(m[k]).value)
      {
        NormalizeCanonical(m[k]);
      }
    case _ =>
  }

  /** Canonical values are the fixed points, so normalization is idempotent. */
  lemma {:induction false} NormalizeFixed(v: Value)
    requires Canonical(v)
    ensures Normalize(v) == Some(v)
    decreases v
  {
    match v
    case Items(xs) =>
      forall i | 0 <= i < |xs| ensures Normalize(xs[i]) == Some(xs[i]) {
        NormalizeFixed(xs[i]);
      }
      assert Normalize(v).value.items == xs;
    case Fields(m) =>
      forall k | k in m ensures Normalize(m[k]) == Some(m[k]) {
        NormalizeFixed(m[k]);
      }
      assert Normalize(v).value.fields == m;
    case _ =>
  }

  // ---------- scalar keys ----------

  predicate Numeric(v: Value) {
    (v.Integer? && Admitted(Int(v.integer))) || (v.Floating? && v.floating.Finite?)
  }

  function NumberOf(v: Value): (n: Number)
    requires Numeric(v)
    ensures Admitted(n)
  {
    match v
    case Integer(i) => Int(i)
    case Floating(f) => Float(f.negative, f.exponent, f.fraction)
  }

  function ScalarKey(v: Value): (r: Option<seq<Byte>>)
    ensures r.Some? ==> r.value != [] && r.value[0] in {0x10, 0x20, 0x30, 0x40, 0x50}
  {
    match Normalize(v)
    case None => None
    case Some(w) =>
      match w
      case Null => Some([0x10])
      case Bool(flag) => Some([if flag then 0x30 else 0x20])
      case Text(s) => Some([0x50] + s)
      case Integer(_) => Some(NumberKey(NumberOf(w)))
      case Floating(f) => if f.Finite? then Some(NumberKey(NumberOf(w))) else None
      case _ => None
  }

  function CompareValues(a: Value, b: Value): (r: Option<int>) {
    var left, right := ScalarKey(a), ScalarKey(b);
    if left.None? || right.None? then None else Some(Compare(left.value, right.value))
  }

  predicate EqualValues(a: Value, b: Value) {
    CompareValues(a, b) == Some(0)
  }

  // ---------- what the keys mean ----------

  /** The values a scalar key exists for. */
  predicate Scalar(v: Value) {
    v.Null? || v.Bool? || (v.Text? && ValidUtf8(v.bytes)) || Numeric(v)
  }

  function Rank(v: Value): (r: nat) {
    match v
    case Null => 0
    case Bool(flag) => if flag then 2 else 1
    case Text(_) => 4
    case _ => 3
  }

  /** null < false < true < numbers by exact value < strings by byte order. */
  function Order(a: Value, b: Value): (r: int)
    requires Scalar(a) && Scalar(b)
  {
    if Rank(a) < Rank(b) then -1
    else if Rank(a) > Rank(b) then 1
    else if Numeric(a) then Sign(Exact(NumberOf(a)) - Exact(NumberOf(b)))
    else if a.Text? then Compare(a.bytes, b.bytes)
    else 0
  }

  function Tag(v: Value): (b: Byte) {
    0x10 * (Rank(v) + 1)
  }

  lemma ScalarKeyHead(v: Value)
    ensures ScalarKey(v).Some? <==> Scalar(v)
    ensures Scalar(v) ==> ScalarKey(v).value[0] == Tag(v)
    ensures Scalar(v) && v.Text? ==> ScalarKey(v).value[1..] == v.bytes
    ensures Scalar(v) && !v.Text? && !Numeric(v) ==> ScalarKey(v).value[1..] == []
  {
  }

  lemma ScalarKeyNumber(v: Value)
    requires Numeric(v)
    ensures ScalarKey(v).Some? && ScalarKey(v).value == NumberKey(NumberOf(v))
  {
    if v.Floating? && v.floating.exponent == 0 && v.floating.fraction == 0 {
      NumberKeyOrder(NumberOf(v), Float(false, 0, 0));
    }
  }

  lemma KeyOrder(a: Value, b: Value)
    requires Scalar(a) && Scalar(b) && ScalarKey(a).Some? && ScalarKey(b).Some?
    ensures Compare(ScalarKey(a).value, ScalarKey(b).value) == Order(a, b)
  {
    ScalarKeyHead(a);
    ScalarKeyHead(b);
    if Numeric(a) && Numeric(b) {
      ScalarKeyNumber(a);
      ScalarKeyNumber(b);
      NumberKeyOrder(NumberOf(a), NumberOf(b));
    }
  }

  /** `CompareValues` is `Order` on scalars and an error on everything else. */
  lemma CompareValuesMeaning(a: Value, b: Value)
    ensures CompareValues(a, b) == if Scalar(a) && Scalar(b) then Some(Order(a, b)) else None
    ensures EqualValues(a, b) <==> Scalar(a) && Scalar(b) && Order(a, b) == 0
  {
    ScalarKeyHead(a);
    ScalarKeyHead(b);
    if Scalar(a) && Scalar(b) {
      KeyOrder(a, b);
    }
  }

  lemma OrderTotal(a: Value, b: Value, c: Value)
    requires Scalar(a) && Scalar(b) && Scalar(c)
    ensures Order(a, a) == 0
    ensures Order(a, b) == -Order(b, a)
    ensures Order(a, b) <= 0 && Order(b, c) <= 0 ==> Order(a, c) <= 0
    ensures Order(a, b) == 0 && Order(b, c) == 0 ==> Order(a, c) == 0
  {
    ScalarKeyHead(a);
    ScalarKeyHead(b);
    ScalarKeyHead(c);
    var x, y, z := ScalarKey(a).value, ScalarKey(b).value, ScalarKey(c).value;
    KeyOrder(a, a);
    KeyOrder(a, b);
    KeyOrder(b, a);
    KeyOrder(b, c);
    KeyOrder(a, c);
    CompareEqual(x, x);
    CompareAntisymmetric(x, y);
    CompareEqual(x, y);
    CompareEqual(y, z);
    CompareEqual(x, z);
    if Order(a, b) <= 0 && Order(b, c) <= 0 {
      CompareTransitive(x, y, z);
    }
  }

  /** Two scalars share a key exactly when neither precedes the other. */
  lemma KeyIdentity(a: Value, b: Value)
    requires Scalar(a) && Scalar(b)
    ensures ScalarKey(a) == ScalarKey(b) <==> Order(a, b) == 0
  {
    ScalarKeyHead(a);
    ScalarKeyHead(b);
    KeyOrder(a, b);
    CompareEqual(ScalarKey(a).value, ScalarKey(b).value);
  }
}
