/** Index keys: a version byte, then each field's scalar key escaped and
    terminated, complemented when descending, then the document ID. */
module OrderKeys {
  import opened Options
  import opened Bytes
  import opened Values

  const VERSION: Byte := 0x02
  const TYPE_MISSING: Byte := 0x01
  const TYPE_STRING: Byte := 0x50
  const MAX_STRING_BYTES: nat := 65535

  datatype Direction = Asc | Desc | OtherDirection(code: int)

  datatype Field = Field(value: Value, direction: Direction, missing: bool)

  // ---------- encoding ----------

  function RawKey(f: Field): (r: Option<seq<Byte>>)
    ensures r.Some? <==> f.missing || (Scalar(f.value) && (f.value.Text? ==> |f.value.bytes| <= MAX_STRING_BYTES))
    ensures r.Some? ==> r.value != [] && 0 < r.value[0] <= 0x50
  {
    if f.missing then Some([TYPE_MISSING])
    else if f.value.Text? && |f.value.bytes| > MAX_STRING_BYTES then None
    else ScalarKey(f.value)
  }

  /** A zero byte becomes 00 01, so that 00 00 can only be the terminator. */
  function Escape(raw: seq<Byte>): (r: seq<Byte>) {
    if raw == [] then []
    else (if raw[0] == 0 then [0, 1] else [raw[0]]) + Escape(raw[1..])
  }

  function Flip(s: seq<Byte>, descending: bool): (r: seq<Byte>)
    ensures |r| == |s|
  {
    if descending then Complement(s) else s
  }

  function FieldBytes(raw: seq<Byte>, descending: bool): (r: seq<Byte>) {
    Flip(Escape(raw) + [0, 0], descending)
  }

  function EncodeField(f: Field): (r: Option<seq<Byte>>) {
    if f.direction.OtherDirection? || RawKey(f).None? then None
    else Some(FieldBytes(RawKey(f).value, f.direction.Desc?))
  }

  function EncodeFields(fields: seq<Field>): (r: Option<seq<Byte>>) {
    if fields == [] then Some([])
    else
      var head, tail := EncodeField(fields[0]), EncodeFields(fields[1..]);
      if head.None? || tail.None? then None else Some(head.value + tail.value)
  }

  function EncodePrefix(fields: seq<Field>): (r: Option<seq<Byte>>) {
    var body := EncodeFields(fields);
    if body.None? then None else Some([VERSION] + body.value)
  }

  function IdField(id: seq<Byte>): (f: Field) {
    Field(Text(id), Asc, false)
  }

  function Encode(fields: seq<Field>, id: seq<Byte>): (r: Option<seq<Byte>>) {
    if |id| > MAX_STRING_BYTES || !ValidUtf8(id) then None
    else
      var prefix, last := EncodePrefix(fields), EncodeField(IdField(id));
      if prefix.None? || last.None? then None else Some(prefix.value + last.value)
  }

  // ---------- encoding, as the loops build it ----------

  method EscapeAndTerminate(raw: seq<Byte>, descending: bool) returns (buf: seq<Byte>)
    ensures buf == FieldBytes(raw, descending)
  {
    buf := [];
    var i := 0;
    while i < |raw|
      invariant 0 <= i <= |raw|
      invariant buf + Escape(raw[i..]) == Escape(raw)
    {
      assert raw[i..][1..] == raw[i + 1..];
      buf := buf + [raw[i]];
      if raw[i] == 0 {
        buf := buf + [1];
      }
      i := i + 1;
    }
    buf := buf + [0, 0];
    if descending {
      ghost var plain := buf;
      var j := 0;
      while j < |buf|
        invariant 0 <= j <= |buf| == |plain|
        invariant forall k :: 0 <= k < j ==> buf[k] == 255 - plain[k]
        invariant forall k :: j <= k < |buf| ==> buf[k] == plain[k]
      {
        buf := buf[j := 255 - buf[j]];
        j := j + 1;
      }
    }
  }

  method BuildPrefix(fields: seq<Field>) returns (r: Option<seq<Byte>>)
    ensures r == EncodePrefix(fields)
  {
    var buf: seq<Byte> := [VERSION];
    var i := 0;
    while i < |fields|
      invariant 0 <= i <= |fields|
      invariant EncodePrefix(fields) ==
                if EncodeFields(fields[i..]).None? then None else Some(buf + EncodeFields(fields[i..]).value)
    {
      assert fields[i..][1..] == fields[i + 1..];
      var f := fields[i];
      if f.direction.OtherDirection? || RawKey(f).None? {
        return None;
      }
      var encoded := EscapeAndTerminate(RawKey(f).value, f.direction.Desc?);
      if EncodeFields(fields[i + 1..]).Some? {
        Associate(buf, encoded, EncodeFields(fields[i + 1..]).value);
      }
      buf := buf + encoded;
      i := i + 1;
    }
    assert buf + [] == buf;
    return Some(buf);
  }

  // ---------- order ----------

  predicate Encodable(f: Field) {
    !f.direction.OtherDirection? && RawKey(f).Some?
  }

  /** Exactly the fields that have a direction and a scalar (or no) value of
      bounded length can be encoded. */
  lemma {:induction false} EncodeFieldsDefined(fields: seq<Field>)
    ensures EncodeFields(fields).Some? <==> forall i :: 0 <= i < |fields| ==> Encodable(fields[i])
  {
    if fields != [] {
      EncodeFieldsDefined(fields[1..]);
      assert forall i :: 0 < i < |fields| ==> fields[i] == fields[1..][i - 1];
      if EncodeFields(fields).Some? {
        forall i | 0 <= i < |fields| ensures Encodable(fields[i]) {
          if i > 0 {
            assert Encodable(fields[1..][i - 1]);
          }
        }
      }
    }
  }

  /** Field order as a query sees it: missing first, then scalar order, reversed
      for a descending field. */
  function FieldOrder(f: Field, g: Field): (r: int)
    requires Encodable(f) && Encodable(g)
  {
    var c :=
      if f.missing && g.missing then 0
      else if f.missing then -1
      else if g.missing then 1
      else Order(f.value, g.value);
    if f.direction.Desc? then -c else c
  }

  predicate SameShape(fs: seq<Field>, gs: seq<Field>) {
    && |fs| == |gs|
    && forall i :: 0 <= i < |fs| ==> Encodable(fs[i]) && Encodable(gs[i]) && fs[i].direction == gs[i].direction
  }

  /** Lexicographic order of two tuples. */
  function TupleOrder(fs: seq<Field>, gs: seq<Field>): (r: int)
    requires SameShape(fs, gs)
    decreases |fs|
  {
    if fs == [] then 0
    else if FieldOrder(fs[0], gs[0]) != 0 then FieldOrder(fs[0], gs[0])
    else TupleOrder(fs[1..], gs[1..])
  }

  /** Where two byte strings first differ. */
  predicate DifferAt(x: seq<Byte>, y: seq<Byte>, k: nat) {
    k < |x| && k < |y| && x[..k] == y[..k] && x[k] != y[k]
  }

  lemma {:induction false} FirstDifference(x: seq<Byte>, y: seq<Byte>, k: nat)
    requires DifferAt(x, y, k)
    ensures Compare(x, y) == (if x[k] < y[k] then -1 else 1)
    decreases k
  {
    if k > 0 {
      assert x[0] == x[..k][0] == y[..k][0] == y[0];
      assert x[1..][..k - 1] == x[..k][1..] == y[..k][1..] == y[1..][..k - 1];
      FirstDifference(x[1..], y[1..], k - 1);
    }
  }

  /** Escaped and terminated keys differ inside both, in the order of the keys. */
  lemma {:induction false} TerminatedDiffer(a: seq<Byte>, b: seq<Byte>) returns (k: nat)
    requires a != b
    ensures var x, y := Escape(a) + [0, 0], Escape(b) + [0, 0];
            DifferAt(x, y, k) && Compare(a, b) == (if x[k] < y[k] then -1 else 1)
    decreases |a|
  {
    if a == [] {
      k := if b[0] == 0 then 1 else 0;
    } else if b == [] {
      k := if a[0] == 0 then 1 else 0;
    } else if a[0] != b[0] {
      k := 0;
    } else {
      assert a == [a[0]] + a[1..] && b == [b[0]] + b[1..];
      var j := TerminatedDiffer(a[1..], b[1..]);
      k := j + if a[0] == 0 then 2 else 1;
      var head: seq<Byte> := if a[0] == 0 then [0, 1] else [a[0]];
      var u, v := Escape(a[1..]) + [0, 0], Escape(b[1..]) + [0, 0];
      Associate(head, Escape(a[1..]), [0, 0]);
      Associate(head, Escape(b[1..]), [0, 0]);
      PrependDiffer(head, u, v, j);
    }
  }

  lemma PrependDiffer(head: seq<Byte>, u: seq<Byte>, v: seq<Byte>, j: nat)
    requires DifferAt(u, v, j)
    ensures DifferAt(head + u, head + v, |head| + j)
    ensures (head + u)[|head| + j] == u[j] && (head + v)[|head| + j] == v[j]
  {
    assert (head + u)[..|head| + j] == head + u[..j];
    assert (head + v)[..|head| + j] == head + v[..j];
  }

  lemma FlipDiffer(x: seq<Byte>, y: seq<Byte>, k: nat, descending: bool)
    requires DifferAt(x, y, k)
    ensures var p, q := Flip(x, descending), Flip(y, descending);
            DifferAt(p, q, k) && (p[k] < q[k] <==> (if descending then x[k] > y[k] else x[k] < y[k]))
  {
    if descending {
      assert forall i :: 0 <= i < k ==> x[i] == x[..k][i] == y[..k][i] == y[i];
      assert Complement(x)[..k] == Complement(y)[..k];
    }
  }

  lemma ExtendDiffer(x: seq<Byte>, y: seq<Byte>, u: seq<Byte>, v: seq<Byte>, k: nat)
    requires DifferAt(x, y, k)
    ensures DifferAt(x + u, y + v, k)
  {
    assert (x + u)[..k] == x[..k] && (y + v)[..k] == y[..k];
  }

  /** Field bytes are prefix-free: unequal keys differ within both encodings, so
      whatever follows cannot matter. */
  lemma FieldBytesOrder(a: seq<Byte>, b: seq<Byte>, descending: bool, u: seq<Byte>, v: seq<Byte>)
    requires a != b
    ensures var x, y := FieldBytes(a, descending), FieldBytes(b, descending);
            Compare(x + u, y + v) == (if descending then -Compare(a, b) else Compare(a, b)) && !(x <= y + v)
  {
    var k := TerminatedDiffer(a, b);
    FlipDiffer(Escape(a) + [0, 0], Escape(b) + [0, 0], k, descending);
    var x, y := FieldBytes(a, descending), FieldBytes(b, descending);
    ExtendDiffer(x, y, u, v, k);
    FirstDifference(x + u, y + v, k);
  }

  lemma RawOrder(f: Field, g: Field)
    requires Encodable(f) && Encodable(g) && f.direction == g.direction
    ensures var c := Compare(RawKey(f).value, RawKey(g).value);
            FieldOrder(f, g) == if f.direction.Desc? then -c else c
  {
    if !f.missing {
      ScalarKeyHead(f.value);
    }
    if !g.missing {
      ScalarKeyHead(g.value);
    }
    if !f.missing && !g.missing {
      KeyOrder(f.value, g.value);
    }
  }

  lemma FieldStep(f: Field, g: Field, u: seq<Byte>, v: seq<Byte>)
    requires Encodable(f) && Encodable(g) && f.direction == g.direction
    ensures var x, y := EncodeField(f).value, EncodeField(g).value;
            if FieldOrder(f, g) == 0 then x == y && Compare(x + u, y + v) == Compare(u, v)
            else Compare(x + u, y + v) == FieldOrder(f, g) && !(x <= y + v)
  {
    var a, b := RawKey(f).value, RawKey(g).value;
    RawOrder(f, g);
    CompareEqual(a, b);
    var x, y := EncodeField(f).value, EncodeField(g).value;
    if a == b {
      CompareConcat(x, y, u, v);
      CompareEqual(x, y);
    } else {
      FieldBytesOrder(a, b, f.direction.Desc?, u, v);
    }
  }

  lemma ShapeTail(fs: seq<Field>, gs: seq<Field>)
    requires SameShape(fs, gs) && fs != []
    ensures SameShape(fs[1..], gs[1..])
    ensures Encodable(fs[0]) && Encodable(gs[0]) && fs[0].direction == gs[0].direction
    ensures EncodeFields(fs).Some? && EncodeFields(fs[1..]).Some? && EncodeFields(gs).Some? &&
            EncodeFields(gs[1..]).Some?
  {
    EncodeFieldsDefined(fs);
    EncodeFieldsDefined(gs);
    EncodeFieldsDefined(fs[1..]);
    EncodeFieldsDefined(gs[1..]);
  }

  lemma Associate(a: seq<Byte>, b: seq<Byte>, c: seq<Byte>)
    ensures (a + b) + c == a + (b + c)
  {
  }

  lemma {:induction false} FieldsOrder(fs: seq<Field>, gs: seq<Field>, u: seq<Byte>, v: seq<Byte>)
    requires SameShape(fs, gs) && EncodeFields(fs).Some? && EncodeFields(gs).Some?
    ensures Compare(EncodeFields(fs).value + u, EncodeFields(gs).value + v) ==
            if TupleOrder(fs, gs) != 0 then TupleOrder(fs, gs) else Compare(u, v)
    decreases |fs|
  {
    if fs == [] {
      assert [] + u == u && [] + v == v;
    } else {
      ShapeTail(fs, gs);
      var x, y := EncodeField(fs[0]).value, EncodeField(gs[0]).value;
      var xs, ys := EncodeFields(fs[1..]).value, EncodeFields(gs[1..]).value;
      Associate(x, xs, u);
      Associate(y, ys, v);
      FieldStep(fs[0], gs[0], xs + u, ys + v);
      FieldsOrder(fs[1..], gs[1..], u, v);
    }
  }

  lemma {:induction false} FieldsPrefix(fs: seq<Field>, gs: seq<Field>, v: seq<Byte>)
    requires SameShape(fs, gs) && EncodeFields(fs).Some? && EncodeFields(gs).Some?
    ensures EncodeFields(fs).value <= EncodeFields(gs).value + v <==> TupleOrder(fs, gs) == 0
    decreases |fs|
  {
    if fs != [] {
      ShapeTail(fs, gs);
      var x, y := EncodeField(fs[0]).value, EncodeField(gs[0]).value;
      var xs, ys := EncodeFields(fs[1..]).value, EncodeFields(gs[1..]).value;
      Associate(y, ys, v);
      FieldStep(fs[0], gs[0], xs, ys + v);
      FieldsPrefix(fs[1..], gs[1..], v);
      PrefixStep(x, xs, y, ys + v);
    }
  }

  lemma PrefixStep(x: seq<Byte>, xs: seq<Byte>, y: seq<Byte>, rest: seq<Byte>)
    ensures x == y ==> (x + xs <= y + rest <==> xs <= rest)
    ensures !(x <= y + rest) ==> !(x + xs <= y + rest)
  {
    if x == y {
      if x + xs <= y + rest {
        assert xs == (x + xs)[|x|..] == (y + rest)[|x|..|x| + |xs|] == rest[..|xs|];
      }
      if xs <= rest {
        assert x + xs == (y + rest)[..|x| + |xs|];
      }
    }
    if x + xs <= y + rest {
      assert x == (x + xs)[..|x|] == (y + rest)[..|x|];
    }
  }

  lemma EncodeShape(fields: seq<Field>, id: seq<Byte>)
    ensures Encode(fields, id).Some? <==>
            |id| <= MAX_STRING_BYTES && ValidUtf8(id) && forall i :: 0 <= i < |fields| ==> Encodable(fields[i])
    ensures Encode(fields, id).Some? ==>
            Encodable(IdField(id)) &&
            Encode(fields, id).value == [VERSION] + (EncodeFields(fields).value + EncodeField(IdField(id)).value)
  {
    EncodeFieldsDefined(fields);
    ScalarKeyHead(Text(id));
  }

  /** Byte order of complete keys is tuple order with the document ID as the
      final tie-break, so keys are equal only for equal tuples and IDs. */
  lemma EncodeOrder(fs: seq<Field>, gs: seq<Field>, id: seq<Byte>, jd: seq<Byte>)
    requires SameShape(fs, gs) && Encode(fs, id).Some? && Encode(gs, jd).Some?
    ensures Compare(Encode(fs, id).value, Encode(gs, jd).value) ==
            if TupleOrder(fs, gs) != 0 then TupleOrder(fs, gs) else Compare(id, jd)
    ensures Encode(fs, id) == Encode(gs, jd) <==> TupleOrder(fs, gs) == 0 && id == jd
  {
    EncodeShape(fs, id);
    EncodeShape(gs, jd);
    var u, v := EncodeField(IdField(id)).value, EncodeField(IdField(jd)).value;
    var x, y := EncodeFields(fs).value + u, EncodeFields(gs).value + v;
    CompareConcat([VERSION], [VERSION], x, y);
    CompareEqual([VERSION], [VERSION]);
    FieldsOrder(fs, gs, u, v);
    FieldStep(IdField(id), IdField(jd), [], []);
    assert u + [] == u && v + [] == v;
    CompareEqual(id, jd);
    CompareEqual([], []);
    CompareEqual(Encode(fs, id).value, Encode(gs, jd).value);
  }

  lemma HeadOfConcat(fs: seq<Field>, gs: seq<Field>)
    requires fs != []
    ensures fs + gs != [] && (fs + gs)[0] == fs[0] && (fs + gs)[1..] == fs[1..] + gs
  {
  }

  lemma {:induction false} EncodeFieldsConcat(fs: seq<Field>, gs: seq<Field>)
    requires EncodeFields(fs).Some? && EncodeFields(gs).Some?
    ensures EncodeFields(fs + gs) == Some(EncodeFields(fs).value + EncodeFields(gs).value)
  {
    if fs == [] {
      assert fs + gs == gs;
      assert [] + EncodeFields(gs).value == EncodeFields(gs).value;
    } else {
      EncodeFieldsConcat(fs[1..], gs);
      HeadOfConcat(fs, gs);
      Associate(EncodeField(fs[0]).value, EncodeFields(fs[1..]).value, EncodeFields(gs).value);
    }
  }

  lemma EncodeSplit(head: seq<Field>, tail: seq<Field>, id: seq<Byte>)
    requires Encode(head + tail, id).Some?
    ensures EncodeFields(head).Some? && EncodeFields(tail).Some? && EncodeField(IdField(id)).Some?
    ensures var rest := EncodeFields(tail).value + EncodeField(IdField(id)).value;
            Encode(head + tail, id).value == [VERSION] + (EncodeFields(head).value + rest)
  {
    EncodeShape(head + tail, id);
    assert forall i :: 0 <= i < |head| ==> head[i] == (head + tail)[i];
    assert forall i :: 0 <= i < |tail| ==> tail[i] == (head + tail)[|head| + i];
    EncodeFieldsDefined(head);
    EncodeFieldsDefined(tail);
    EncodeFieldsConcat(head, tail);
    Associate(EncodeFields(head).value, EncodeFields(tail).value, EncodeField(IdField(id)).value);
  }

  /** A prefix of fields selects exactly the keys whose leading fields equal it. */
  lemma PrefixSelects(fs: seq<Field>, gs: seq<Field>, id: seq<Byte>)
    requires |fs| <= |gs| && SameShape(fs, gs[..|fs|]) && Encode(gs, id).Some?
    ensures EncodePrefix(fs).Some?
    ensures EncodePrefix(fs).value <= Encode(gs, id).value <==> TupleOrder(fs, gs[..|fs|]) == 0
  {
    var head, tail := gs[..|fs|], gs[|fs|..];
    assert gs == head + tail;
    EncodeSplit(head, tail, id);
    EncodeFieldsDefined(fs);
    var rest := EncodeFields(tail).value + EncodeField(IdField(id)).value;
    FieldsPrefix(fs, head, rest);
    PrefixStep([VERSION], EncodeFields(fs).value, [VERSION], EncodeFields(head).value + rest);
  }
}
