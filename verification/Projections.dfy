/** The posting keys of one document under one index template. */
module Projections {
  import opened Options
  import opened Bytes
  import opened Values
  import opened Filters
  import opened Documents
  import opened OrderKeys

  datatype Limits = Limits(maxArrayElements: int, maxPostings: int, maxEncodedBytes: int, maxPositionBytes: int)

  const DEFAULT_LIMITS: Limits := Limits(10000, 1024, 0x10_0000, 4096)

  datatype QueryIndexRef = QueryIndexRef(database: seq<Byte>, collection: seq<Byte>, fingerprint: seq<Byte>,
                                         generation: seq<Byte>)

  datatype Projection = Projection(index: QueryIndexRef, documentId: seq<Byte>, postingKeys: seq<seq<Byte>>)

  datatype LimitKind = MembershipElements | MembershipPostings | PositionBytes | PostingBytes

  datatype Failure = Rejected | OverLimit(kind: LimitKind)

  // ---------- reading the fields ----------

  /** The membership candidates of an array: normalized scalar elements, first
      occurrence of each key. */
  function Gather(items: seq<Value>, maxPostings: int): (r: Result<seq<Value>, Failure>) {
    if items == [] then Ok([])
    else
      var n := |items| - 1;
      match Gather(items[..n], maxPostings)
      case Err(e) => Err(e)
      case Ok(members) => GatherNext(members, items[n], maxPostings)
  }

  function GatherNext(members: seq<Value>, item: Value, maxPostings: int): (r: Result<seq<Value>, Failure>) {
    match Normalize(item)
    case None => Err(Rejected)
    case Some(member) =>
      if member.Items? || member.Fields? || KeyOf(member) in KeySet(members) then Ok(members)
      else if |members| == maxPostings then Err(OverLimit(MembershipPostings))
      else Ok(members + [member])
  }

  /** The members a membership field contributes. */
  function MembersOf(value: Option<Value>, limits: Limits): (r: Result<seq<Value>, Failure>) {
    if value.None? || value.value.Null? then Ok([])
    else if !value.value.Items? then (if Normalize(value.value).None? then Err(Rejected) else Ok([]))
    else if |value.value.items| > limits.maxArrayElements then Err(OverLimit(MembershipElements))
    else Gather(value.value.items, limits.maxPostings)
  }

  function FieldOf(doc: StoredDoc, id: seq<Byte>, f: TemplateField): (r: OrderKeys.Field) {
    var value := DocumentField(doc, id, f.field);
    OrderKeys.Field(if value.Some? then value.value else Null, if f.order.Descending? then Desc else Asc, value.None?)
  }

  function FieldsOf(doc: StoredDoc, id: seq<Byte>, t: Template): (r: seq<OrderKeys.Field>)
    ensures |r| == |t.fields|
    ensures forall i :: 0 <= i < |r| ==> r[i] == FieldOf(doc, id, t.fields[i])
  {
    seq(|t.fields|, i requires 0 <= i < |t.fields| => FieldOf(doc, id, t.fields[i]))
  }

  /** The membership field read last, or -1. */
  function Membership(fields: seq<TemplateField>): (m: int)
    ensures -1 <= m < |fields|
    ensures m >= 0 ==> fields[m].mode.MembershipMode?
    ensures m < 0 ==> forall i :: 0 <= i < |fields| ==> !fields[i].mode.MembershipMode?
  {
    if fields == [] then -1
    else
      var n := |fields| - 1;
      if fields[n].mode.MembershipMode? then n else Membership(fields[..n])
  }

  /** Members collected by reading the fields in order, or the first failure. */
  function ReadFields(doc: StoredDoc, id: seq<Byte>, fields: seq<TemplateField>,
                      limits: Limits): (r: Result<seq<Value>, Failure>)
  {
    if fields == [] then Ok([])
    else
      var n := |fields| - 1;
      match ReadFields(doc, id, fields[..n], limits)
      case Err(e) => Err(e)
      case Ok(members) =>
        var value := DocumentField(doc, id, fields[n].field);
        if fields[n].mode.MembershipMode? then MembersOf(value, limits)
        else if value.Some? && ScalarKey(value.value).None? then Err(Rejected)
        else Ok(members)
  }

  // ---------- encoding the postings ----------

  function MemberField(v: Value): (f: OrderKeys.Field) {
    OrderKeys.Field(v, Asc, false)
  }

  function PostingFields(fields: seq<OrderKeys.Field>, m: int, member: Value): (r: seq<OrderKeys.Field>)
    requires m < |fields|
    ensures |r| == |fields|
  {
    if m < 0 then fields else fields[m := MemberField(member)]
  }

  function TotalBytes(keys: seq<seq<Byte>>): (n: nat) {
    if keys == [] then 0 else TotalBytes(keys[..|keys| - 1]) + |keys[|keys| - 1]|
  }

  /** One key per member, in member order. */
  function Postings(fields: seq<OrderKeys.Field>, m: int, members: seq<Value>, id: seq<Byte>,
                    limits: Limits): (r: Result<seq<seq<Byte>>, Failure>)
    requires m < |fields|
  {
    if members == [] then Ok([])
    else
      var n := |members| - 1;
      match Postings(fields, m, members[..n], id, limits)
      case Err(e) => Err(e)
      case Ok(keys) =>
        match Encode(PostingFields(fields, m, members[n]), id)
        case None => Err(Rejected)
        case Some(key) =>
          if |key| > limits.maxEncodedBytes - TotalBytes(keys) then Err(OverLimit(PostingBytes)) else Ok(keys + [key])
  }

  function WithoutMembership(fields: seq<OrderKeys.Field>, m: int): (r: seq<OrderKeys.Field>)
    requires m < |fields|
  {
    if m < 0 then fields else fields[..m] + fields[m + 1..]
  }

  function Insert(keys: seq<seq<Byte>>, key: seq<Byte>): (r: seq<seq<Byte>>) {
    if keys == [] then [key]
    else if Compare(key, keys[0]) <= 0 then [key] + keys
    else [keys[0]] + Insert(keys[1..], key)
  }

  function SortKeys(keys: seq<seq<Byte>>): (r: seq<seq<Byte>>) {
    if keys == [] then [] else Insert(SortKeys(keys[1..]), keys[0])
  }

  // ---------- the projection ----------

  predicate PositiveLimits(limits: Limits) {
    limits.maxArrayElements > 0 && limits.maxPostings > 0 && limits.maxEncodedBytes > 0 && limits.maxPositionBytes > 0
  }

  function IndexOf(doc: StoredDoc, t: Template, generation: seq<Byte>): (r: QueryIndexRef) {
    QueryIndexRef(doc.database, doc.collection, t.fingerprint, generation)
  }

  /** Posting keys of a document that the template indexes. */
  function KeysOf(doc: StoredDoc, t: Template, id: seq<Byte>, limits: Limits): (r: Result<seq<seq<Byte>>, Failure>) {
    match ReadFields(doc, id, t.fields, limits)
    case Err(e) => Err(e)
    case Ok(members) =>
      var fields, m := FieldsOf(doc, id, t), Membership(t.fields);
      match Encode(WithoutMembership(fields, m), id)
      case None => Err(Rejected)
      case Some(position) =>
        if |position| > limits.maxPositionBytes then Err(OverLimit(PositionBytes))
        else
          match Postings(fields, m, if m < 0 then [Null] else members, id, limits)
          case Err(e) => Err(e)
          case Ok(keys) => Ok(SortKeys(keys))
  }

  function ProjectionOf(doc: StoredDoc, t: Template, generation: seq<Byte>,
                        limits: Limits): (r: Result<Projection, Failure>)
  {
    if !PositiveLimits(limits) || !ValidTemplate(t) || LogicalDocumentId(doc).None? || generation == [] then
      Err(Rejected)
    else
      var id := LogicalDocumentId(doc).value;
      if doc.deleted && !t.includeDeleted then Ok(Projection(IndexOf(doc, t, generation), id, []))
      else
        match KeysOf(doc, t, id, limits)
        case Err(e) => Err(e)
        case Ok(keys) => Ok(Projection(IndexOf(doc, t, generation), id, keys))
  }

  // ---------- the projection, as the loops build it ----------

  method GatherMembers(items: seq<Value>, maxPostings: int) returns (r: Result<seq<Value>, Failure>)
    ensures r == Gather(items, maxPostings)
  {
    var members: seq<Value> := [];
    var seen: set<seq<Byte>> := {};
    var j := 0;
    while j < |items|
      invariant 0 <= j <= |items|
      invariant Gather(items[..j], maxPostings) == Ok(members)
      invariant seen == KeySet(members)
    {
      assert items[..j + 1][..j] == items[..j];
      var member := Normalize(items[j]);
      if member.None? {
        GatherStops(items, j + 1, maxPostings);
        return Err(Rejected);
      }
      if !member.value.Items? && !member.value.Fields? && KeyOf(member.value) !in seen {
        if |members| == maxPostings {
          GatherStops(items, j + 1, maxPostings);
          return Err(OverLimit(MembershipPostings));
        }
        KeySetAppend(members, member.value);
        seen := seen + {KeyOf(member.value)};
        members := members + [member.value];
      }
      j := j + 1;
    }
    assert items[..j] == items;
    return Ok(members);
  }

  lemma {:induction false} GatherStops(items: seq<Value>, j: nat, maxPostings: int)
    requires j <= |items| && Gather(items[..j], maxPostings).Err?
    ensures Gather(items, maxPostings) == Gather(items[..j], maxPostings)
  {
    if j < |items| {
      var n := |items| - 1;
      assert items[..n][..j] == items[..j];
      GatherStops(items[..n], j, maxPostings);
    } else {
      assert items[..j] == items;
    }
  }

  method EncodePostings(fields: seq<OrderKeys.Field>, m: int, members: seq<Value>, id: seq<Byte>, limits: Limits)
    returns (r: Result<seq<seq<Byte>>, Failure>)
    requires m < |fields|
    ensures r == Postings(fields, m, members, id, limits)
  {
    var keys: seq<seq<Byte>> := [];
    var encodedBytes := 0;
    var i := 0;
    while i < |members|
      invariant 0 <= i <= |members|
      invariant Postings(fields, m, members[..i], id, limits) == Ok(keys)
      invariant encodedBytes == TotalBytes(keys)
    {
      assert members[..i + 1][..i] == members[..i];
      var key := Encode(PostingFields(fields, m, members[i]), id);
      if key.None? {
        PostingsStop(fields, m, members, i + 1, id, limits);
        return Err(Rejected);
      }
      if |key.value| > limits.maxEncodedBytes - encodedBytes {
        PostingsStop(fields, m, members, i + 1, id, limits);
        return Err(OverLimit(PostingBytes));
      }
      encodedBytes := encodedBytes + |key.value|;
      assert (keys + [key.value])[..|keys|] == keys;
      keys := keys + [key.value];
      i := i + 1;
    }
    assert members[..i] == members;
    return Ok(keys);
  }

  lemma {:induction false} PostingsStop(fields: seq<OrderKeys.Field>, m: int, members: seq<Value>, j: nat,
                                        id: seq<Byte>, limits: Limits)
    requires m < |fields| && j <= |members| && Postings(fields, m, members[..j], id, limits).Err?
    ensures Postings(fields, m, members, id, limits) == Postings(fields, m, members[..j], id, limits)
  {
    if j < |members| {
      var n := |members| - 1;
      assert members[..n][..j] == members[..j];
      PostingsStop(fields, m, members[..n], j, id, limits);
    } else {
      assert members[..j] == members;
    }
  }

  method ReadDocumentFields(doc: StoredDoc, id: seq<Byte>, fields: seq<TemplateField>, limits: Limits)
    returns (r: Result<seq<Value>, Failure>)
    ensures r == ReadFields(doc, id, fields, limits)
  {
    var members: seq<Value> := [];
    var i := 0;
    while i < |fields|
      invariant 0 <= i <= |fields|
      invariant ReadFields(doc, id, fields[..i], limits) == Ok(members)
    {
      assert fields[..i + 1][..i] == fields[..i];
      var value := DocumentField(doc, id, fields[i].field);
      if fields[i].mode.MembershipMode? {
        if value.None? || value.value.Null? {
          members := [];
        } else if !value.value.Items? {
          if Normalize(value.value).None? {
            ReadStops(doc, id, fields, i + 1, limits);
            return Err(Rejected);
          }
          members := [];
        } else if |value.value.items| > limits.maxArrayElements {
          ReadStops(doc, id, fields, i + 1, limits);
          return Err(OverLimit(MembershipElements));
        } else {
          var gathered := GatherMembers(value.value.items, limits.maxPostings);
          if gathered.Err? {
            ReadStops(doc, id, fields, i + 1, limits);
            return gathered;
          }
          members := gathered.value;
        }
      } else if value.Some? && ScalarKey(value.value).None? {
        ReadStops(doc, id, fields, i + 1, limits);
        return Err(Rejected);
      }
      i := i + 1;
    }
    assert fields[..i] == fields;
    return Ok(members);
  }

  lemma {:induction false} ReadStops(doc: StoredDoc, id: seq<Byte>, fields: seq<TemplateField>, j: nat, limits: Limits)
    requires j <= |fields| && ReadFields(doc, id, fields[..j], limits).Err?
    ensures ReadFields(doc, id, fields, limits) == ReadFields(doc, id, fields[..j], limits)
  {
    if j < |fields| {
      var n := |fields| - 1;
      assert fields[..n][..j] == fields[..j];
      ReadStops(doc, id, fields[..n], j, limits);
    } else {
      assert fields[..j] == fields;
    }
  }

  method BuildDocumentProjection(doc: StoredDoc, t: Template, generation: seq<Byte>, limits: Limits)
    returns (r: Result<Projection, Failure>)
    ensures r == ProjectionOf(doc, t, generation, limits)
  {
    if !PositiveLimits(limits) || !ValidTemplate(t) || LogicalDocumentId(doc).None? || generation == [] {
      return Err(Rejected);
    }
    var id := LogicalDocumentId(doc).value;
    var index := IndexOf(doc, t, generation);
    if doc.deleted && !t.includeDeleted {
      return Ok(Projection(index, id, []));
    }
    var read := ReadDocumentFields(doc, id, t.fields, limits);
    if read.Err? {
      return Err(read.error);
    }
    var fields, m := FieldsOf(doc, id, t), Membership(t.fields);
    var position := Encode(WithoutMembership(fields, m), id);
    if position.None? {
      return Err(Rejected);
    }
    if |position.value| > limits.maxPositionBytes {
      return Err(OverLimit(PositionBytes));
    }
    var keys := EncodePostings(fields, m, if m < 0 then [Null] else read.value, id, limits);
    if keys.Err? {
      return Err(keys.error);
    }
    return Ok(Projection(index, id, SortKeys(keys.value)));
  }
}
