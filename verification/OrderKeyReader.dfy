/** Recovering the document ID from a complete index key. */
module OrderKeyReader {
  import opened Options
  import opened Bytes
  import opened Values
  import opened OrderKeys

  function FlipByte(b: Byte, descending: bool): (r: Byte) {
    if descending then 255 - b else b
  }

  datatype Component = Component(raw: seq<Byte>, descending: bool)

  /** One terminated component and the bytes after it. */
  datatype Reading = Reading(raw: seq<Byte>, rest: seq<Byte>)

  function ReadComponent(s: seq<Byte>, descending: bool): (r: Option<Reading>)
    ensures r.Some? ==> |r.value.rest| < |s|
    decreases |s|
  {
    if s == [] then None
    else
      var b := FlipByte(s[0], descending);
      if b != 0 then Prepend(b, ReadComponent(s[1..], descending))
      else if |s| == 1 then None
      else
        var next := FlipByte(s[1], descending);
        if next == 0 then Some(Reading([], s[2..]))
        else if next != 1 then None
        else Prepend(0, ReadComponent(s[2..], descending))
  }

  function Prepend(b: Byte, r: Option<Reading>): (q: Option<Reading>)
    ensures q.Some? <==> r.Some?
    ensures q.Some? ==> q.value.rest == r.value.rest
  {
    if r.None? then None else Some(Reading([b] + r.value.raw, r.value.rest))
  }

  /** The last of the components that make up `s`. */
  function LastComponent(s: seq<Byte>): (r: Option<Component>)
    requires s != []
    ensures r.Some? ==> r.value.raw != []
    decreases |s|
  {
    var descending := s[0] > 0x80;
    match ReadComponent(s, descending)
    case None => None
    case Some(Reading(raw, rest)) =>
      if raw == [] then None
      else if rest == [] then Some(Component(raw, descending))
      else LastComponent(rest)
  }

  function IdOf(c: Component): (r: Option<seq<Byte>>)
    requires c.raw != []
  {
    if c.descending || c.raw[0] != TYPE_STRING || !ValidUtf8(c.raw[1..]) then None else Some(c.raw[1..])
  }

  function DocIdOf(key: seq<Byte>): (r: Option<seq<Byte>>) {
    if |key| < 4 || key[0] != VERSION then None
    else
      match LastComponent(key[1..])
      case None => None
      case Some(c) => IdOf(c)
  }

  // ---------- the scanning loops ----------

  function Joined(last: seq<Byte>, r: Option<Reading>): (q: Option<Reading>) {
    if r.None? then None else Some(Reading(last + r.value.raw, r.value.rest))
  }

  /** Scans one component from `from`; `next` is where the following one starts. */
  method ScanComponent(key: seq<Byte>, from: nat) returns (ok: bool, last: seq<Byte>, next: nat)
    requires from < |key|
    ensures var r := ReadComponent(key[from..], key[from] > 0x80);
            if ok then from < next <= |key| && r == Some(Reading(last, key[next..])) else r.None?
  {
    var descending := key[from] > 0x80;
    var pos := from;
    last := [];
    ghost var whole := ReadComponent(key[from..], descending);
    assert whole.Some? ==> [] + whole.value.raw == whole.value.raw;
    while pos < |key|
      invariant from <= pos <= |key|
      invariant whole == Joined(last, ReadComponent(key[pos..], descending))
    {
      var b := FlipByte(key[pos], descending);
      pos := pos + 1;
      if b != 0 {
        JoinedPrepend(last, b, ReadComponent(key[pos..], descending));
        assert key[pos - 1..][1..] == key[pos..];
        last := last + [b];
      } else if pos == |key| {
        return false, last, pos;
      } else {
        var after := FlipByte(key[pos], descending);
        pos := pos + 1;
        assert key[pos - 2..][2..] == key[pos..];
        if after == 0 {
          assert last + [] == last;
          return true, last, pos;
        }
        if after != 1 {
          return false, last, pos;
        }
        JoinedPrepend(last, 0, ReadComponent(key[pos..], descending));
        last := last + [0];
      }
    }
    return false, last, pos;
  }

  lemma JoinedPrepend(last: seq<Byte>, b: Byte, r: Option<Reading>)
    ensures Joined(last, Prepend(b, r)) == Joined(last + [b], r)
  {
    if r.Some? {
      Associate(last, [b], r.value.raw);
    }
  }

  method ExtractDocId(key: seq<Byte>) returns (r: Option<seq<Byte>>)
    ensures r == DocIdOf(key)
  {
    if |key| < 4 || key[0] != VERSION {
      return None;
    }
    var last: seq<Byte> := [];
    var descending := false;
    var pos := 1;
    while pos < |key|
      invariant 1 <= pos <= |key|
      invariant pos < |key| ==> LastComponent(key[1..]) == LastComponent(key[pos..])
      invariant pos == |key| ==> last != [] && LastComponent(key[1..]) == Some(Component(last, descending))
    {
      descending := key[pos] > 0x80;
      var ok, raw, next := ScanComponent(key, pos);
      if !ok || raw == [] {
        return None;
      }
      last, pos := raw, next;
    }
    return IdOf(Component(last, descending));
  }

  // ---------- round trip ----------

  lemma {:induction false} ReadField(raw: seq<Byte>, descending: bool, rest: seq<Byte>)
    ensures ReadComponent(FieldBytes(raw, descending) + rest, descending) == Some(Reading(raw, rest))
    decreases |raw|
  {
    var s := FieldBytes(raw, descending) + rest;
    if raw == [] {
      assert s[2..] == rest;
    } else {
      var n := if raw[0] == 0 then 2 else 1;
      var head: seq<Byte> := if raw[0] == 0 then [0, 1] else [raw[0]];
      Associate(head, Escape(raw[1..]), [0, 0]);
      assert s[n..] == FieldBytes(raw[1..], descending) + rest;
      ReadField(raw[1..], descending, rest);
      assert raw == [raw[0]] + raw[1..];
    }
  }

  lemma FieldHead(f: Field)
    requires Encodable(f)
    ensures var e := EncodeField(f).value;
            |e| >= 3 && (e[0] > 0x80 <==> f.direction.Desc?)
  {
    var raw := RawKey(f).value;
    assert (Escape(raw) + [0, 0])[0] == raw[0];
  }

  lemma {:induction false} LastOfFields(fields: seq<Field>, f: Field)
    requires Encodable(f) && EncodeFields(fields).Some?
    ensures EncodeFields(fields).value + EncodeField(f).value != []
    ensures LastComponent(EncodeFields(fields).value + EncodeField(f).value) ==
            Some(Component(RawKey(f).value, f.direction.Desc?))
    decreases |fields|
  {
    var last := EncodeField(f).value;
    FieldHead(f);
    if fields == [] {
      assert [] + last == last == last + [];
      ReadField(RawKey(f).value, f.direction.Desc?, []);
    } else {
      var g := fields[0];
      FieldHead(g);
      var head, tail := EncodeField(g).value, EncodeFields(fields[1..]).value;
      Associate(head, tail, last);
      ReadField(RawKey(g).value, g.direction.Desc?, tail + last);
      LastOfFields(fields[1..], f);
    }
  }

  /** Whatever the fields and directions, a complete key gives back its ID. */
  lemma ExtractInvertsEncode(fields: seq<Field>, id: seq<Byte>)
    requires Encode(fields, id).Some?
    ensures DocIdOf(Encode(fields, id).value) == Some(id)
  {
    EncodeShape(fields, id);
    var f := IdField(id);
    LastOfFields(fields, f);
    FieldHead(f);
    ScalarKeyHead(Text(id));
    var key := Encode(fields, id).value;
    assert key[1..] == EncodeFields(fields).value + EncodeField(f).value;
  }
}
