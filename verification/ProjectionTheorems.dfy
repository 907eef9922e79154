/** The index agrees with the filter evaluator. */
module ProjectionTheorems {
  import opened Options
  import opened Bytes
  import opened Values
  import opened Filters
  import opened Documents
  import opened OrderKeys
  import opened Projections
  import opened OrderKeyReader

  // ---------- members ----------

  lemma {:induction false} GatherMeaning(items: seq<Value>, maxPostings: int)
    requires Gather(items, maxPostings).Ok? && maxPostings >= 0
    ensures var members := Gather(items, maxPostings).value;
            KeysDiffer(members) && AllScalar(members) && |members| <= maxPostings &&
            KeySet(members) == KeySet(items) - {[]}
    ensures Normalize(Items(items)).Some?
  {
    if items != [] {
      var n := |items| - 1;
      var rest, last := items[..n], items[n];
      GatherMeaning(rest, maxPostings);
      DistinctStep(items, n);
      assert items[..n + 1] == items;
      GatherStep(Gather(rest, maxPostings).value, last, maxPostings);
      NormalizeLast(items);
    }
  }

  lemma NormalizeLast(items: seq<Value>)
    requires items != [] && Normalize(Items(items[..|items| - 1])).Some? && Normalize(items[|items| - 1]).Some?
    ensures Normalize(Items(items)).Some?
  {
    var rest := items[..|items| - 1];
    forall i | 0 <= i < |items| ensures Normalize(items[i]).Some? {
      assert i < |rest| ==> Normalize(rest[i]).Some?;
    }
  }

  lemma GatherStep(members: seq<Value>, item: Value, maxPostings: int)
    requires GatherNext(members, item, maxPostings).Ok? && |members| <= maxPostings
    requires KeysDiffer(members) && AllScalar(members)
    ensures var more := GatherNext(members, item, maxPostings).value;
            KeysDiffer(more) && AllScalar(more) && |more| <= maxPostings &&
            KeySet(more) == KeySet(members) + ({KeyOf(item)} - {[]})
    ensures Normalize(item).Some?
  {
    var member := Normalize(item).value;
    NormalizeScalar(item);
    StructuredKey(item);
    KeySetScalar(members);
    if KeyOf(member) != [] && KeyOf(member) !in KeySet(members) {
      AppendMember(members, member);
    }
  }

  lemma AppendMember(members: seq<Value>, member: Value)
    requires KeysDiffer(members) && AllScalar(members)
    requires KeyOf(member) != [] && KeyOf(member) !in KeySet(members)
    ensures var more := members + [member];
            KeysDiffer(more) && AllScalar(more) && KeySet(more) == KeySet(members) + {KeyOf(member)}
  {
    KeySetAppend(members, member);
    var more := members + [member];
    forall i, j | 0 <= i < j < |more| ensures KeyOf(more[i]) != KeyOf(more[j]) {
      assert more[i] == members[i];
      if j == |members| {
        KeySetMember(members, KeyOf(member));
      } else {
        assert more[j] == members[j];
      }
    }
  }

  lemma StructuredKey(v: Value)
    requires Normalize(v).Some?
    ensures KeyOf(v) == [] <==> Normalize(v).value.Items? || Normalize(v).value.Fields?
  {
    NormalizeCanonical(v);
  }

  lemma KeySetScalar(items: seq<Value>)
    requires AllScalar(items)
    ensures [] !in KeySet(items)
  {
    KeySetMember(items, []);
  }

  /** The members read for a template are those of its one membership field. */
  lemma {:induction false} ReadMembers(doc: StoredDoc, id: seq<Byte>, fields: seq<TemplateField>, limits: Limits,
                                       m: nat)
    requires m < |fields| && fields[m].mode.MembershipMode?
    requires forall i :: 0 <= i < |fields| && i != m ==> !fields[i].mode.MembershipMode?
    requires ReadFields(doc, id, fields, limits).Ok?
    ensures ReadFields(doc, id, fields, limits) == MembersOf(DocumentField(doc, id, fields[m].field), limits)
    decreases |fields|
  {
    var n := |fields| - 1;
    if m < n {
      ReadMembers(doc, id, fields[..n], limits, m);
    }
  }

  lemma MembershipUnique(t: Template)
    requires ValidTemplate(t) && Membership(t.fields) >= 0
    ensures forall i :: 0 <= i < |t.fields| && i != Membership(t.fields) ==> !t.fields[i].mode.MembershipMode?
  {
  }

  /** The members of a document: one normalized scalar per distinct key that the
      stored array holds. */
  lemma MembersMeaning(value: Option<Value>, limits: Limits)
    requires PositiveLimits(limits) && MembersOf(value, limits).Ok?
    ensures var members := MembersOf(value, limits).value;
            KeysDiffer(members) && AllScalar(members) && |members| <= limits.maxPostings &&
            KeySet(members) == if value.Some? && value.value.Items? then KeySet(value.value.items) - {[]} else {}
    ensures value.Some? ==> Normalize(value.value).Some?
  {
    if value.Some? && value.value.Items? {
      GatherMeaning(value.value.items, limits.maxPostings);
    }
  }

  lemma ContainsByKey(v: Value, items: seq<Value>)
    requires Scalar(v)
    ensures KeyOf(v) in KeySet(items) - {[]} <==> exists i :: 0 <= i < |items| && Same(items[i], v)
  {
    ScalarKeyHead(v);
    KeySetMember(items, KeyOf(v));
    forall i | 0 <= i < |items| ensures Same(items[i], v) <==> KeyOf(items[i]) == KeyOf(v) {
      SameByKey(items[i], v);
    }
  }

  // ---------- postings ----------

  lemma {:induction false} PostingsMeaning(fields: seq<OrderKeys.Field>, m: int, members: seq<Value>, id: seq<Byte>,
                                           limits: Limits)
    requires m < |fields| && Postings(fields, m, members, id, limits).Ok? && limits.maxEncodedBytes >= 0
    ensures var keys := Postings(fields, m, members, id, limits).value;
            |keys| == |members| && TotalBytes(keys) <= limits.maxEncodedBytes &&
            forall i :: 0 <= i < |members| ==> Encode(PostingFields(fields, m, members[i]), id) == Some(keys[i])
    decreases |members|
  {
    if members != [] {
      var n := |members| - 1;
      PostingsMeaning(fields, m, members[..n], id, limits);
      var before := Postings(fields, m, members[..n], id, limits).value;
      PostingsExtended(fields, m, members, id, before, Encode(PostingFields(fields, m, members[n]), id).value);
    }
  }

  lemma PostingsExtended(
      fields: seq<OrderKeys.Field>, m: int, members: seq<Value>, id: seq<Byte>, before: seq<seq<Byte>>,
      key: seq<Byte>)
    requires m < |fields| && |members| == |before| + 1
    requires forall i :: 0 <= i < |before| ==>
               Encode(PostingFields(fields, m, members[..|before|][i]), id) == Some(before[i])
    requires Encode(PostingFields(fields, m, members[|before|]), id) == Some(key)
    ensures var keys := before + [key];
            keys[..|before|] == before &&
            forall i :: 0 <= i < |members| ==> Encode(PostingFields(fields, m, members[i]), id) == Some(keys[i])
  {
    var keys := before + [key];
    forall i | 0 <= i < |members| ensures Encode(PostingFields(fields, m, members[i]), id) == Some(keys[i]) {
      if i < |before| {
        assert members[..|before|][i] == members[i];
      }
    }
  }

  lemma {:induction false} TupleOrderAt(fs: seq<OrderKeys.Field>, gs: seq<OrderKeys.Field>, i: nat)
    requires SameShape(fs, gs) && i < |fs| && TupleOrder(fs, gs) == 0
    ensures FieldOrder(fs[i], gs[i]) == 0
    decreases |fs|
  {
    if i > 0 {
      ShapeTail(fs, gs);
      TupleOrderAt(fs[1..], gs[1..], i - 1);
    }
  }

  lemma {:induction false} TupleOrderZero(fs: seq<OrderKeys.Field>, gs: seq<OrderKeys.Field>)
    requires SameShape(fs, gs) && forall i :: 0 <= i < |fs| ==> FieldOrder(fs[i], gs[i]) == 0
    ensures TupleOrder(fs, gs) == 0
    decreases |fs|
  {
    if fs != [] {
      ShapeTail(fs, gs);
      assert forall i :: 0 <= i < |fs| - 1 ==> fs[1..][i] == fs[i + 1] && gs[1..][i] == gs[i + 1];
      TupleOrderZero(fs[1..], gs[1..]);
    }
  }

  /** Postings of one document coincide exactly when the members do. */
  lemma PostingIdentity(fields: seq<OrderKeys.Field>, m: nat, v: Value, w: Value, id: seq<Byte>)
    requires m < |fields|
    requires Encode(PostingFields(fields, m, v), id).Some? && Encode(PostingFields(fields, m, w), id).Some?
    ensures Encode(PostingFields(fields, m, v), id) == Encode(PostingFields(fields, m, w), id) <==> KeyOf(v) == KeyOf(w)
  {
    var fs, gs := PostingFields(fields, m, v), PostingFields(fields, m, w);
    EncodeShape(fs, id);
    EncodeShape(gs, id);
    assert Encodable(fs[m]) && Encodable(gs[m]);
    EncodeOrder(fs, gs, id, id);
    CompareEqual(id, id);
    KeyIdentity(v, w);
    ScalarKeyHead(v);
    ScalarKeyHead(w);
    if KeyOf(v) == KeyOf(w) {
      forall i | 0 <= i < |fs| ensures FieldOrder(fs[i], gs[i]) == 0 {
        assert Encodable(fs[i]);
        if i != m {
          assert fs[i] == gs[i];
          SelfOrder(fs[i]);
        }
      }
      TupleOrderZero(fs, gs);
    } else if TupleOrder(fs, gs) == 0 {
      TupleOrderAt(fs, gs, m);
    }
  }

  lemma SelfOrder(f: OrderKeys.Field)
    requires Encodable(f)
    ensures FieldOrder(f, f) == 0
  {
    if !f.missing {
      OrderTotal(f.value, f.value, f.value);
    }
  }

  // ---------- sorting ----------

  predicate Ascending(keys: seq<seq<Byte>>)
    decreases |keys|
  {
    |keys| < 2 || (Compare(keys[0], keys[1]) <= 0 && Ascending(keys[1..]))
  }

  lemma {:induction false} InsertSorts(keys: seq<seq<Byte>>, key: seq<Byte>)
    requires Ascending(keys)
    ensures Ascending(Insert(keys, key)) && multiset(Insert(keys, key)) == multiset(keys) + multiset{key}
    decreases |keys|
  {
    if keys == [] {
    } else if Compare(key, keys[0]) <= 0 {
      assert ([key] + keys)[1..] == keys;
    } else {
      var rest := Insert(keys[1..], key);
      InsertSorts(keys[1..], key);
      CompareAntisymmetric(key, keys[0]);
      assert ([keys[0]] + rest)[1..] == rest;
      assert keys == [keys[0]] + keys[1..];
    }
  }

  lemma {:induction false} SortKeysSorts(keys: seq<seq<Byte>>)
    ensures Ascending(SortKeys(keys)) && multiset(SortKeys(keys)) == multiset(keys)
    decreases |keys|
  {
    if keys != [] {
      SortKeysSorts(keys[1..]);
      InsertSorts(SortKeys(keys[1..]), keys[0]);
      assert keys == [keys[0]] + keys[1..];
    }
  }

  predicate NoRepeats(keys: seq<seq<Byte>>) {
    forall i, j :: 0 <= i < j < |keys| ==> keys[i] != keys[j]
  }

  lemma {:induction false} CountAtMostOne(keys: seq<seq<Byte>>, k: seq<Byte>)
    requires NoRepeats(keys)
    ensures multiset(keys)[k] <= 1
    decreases |keys|
  {
    if keys != [] {
      var n := |keys| - 1;
      assert keys == keys[..n] + [keys[n]];
      CountAtMostOne(keys[..n], k);
    }
  }

  lemma CountRepeated(keys: seq<seq<Byte>>, i: nat, j: nat)
    requires i < j < |keys| && keys[i] == keys[j]
    ensures multiset(keys)[keys[i]] >= 2
  {
    assert keys == keys[..j] + [keys[j]] + keys[j + 1..];
    assert keys[..j][i] in multiset(keys[..j]);
  }

  lemma SortKeepsDistinct(keys: seq<seq<Byte>>)
    requires NoRepeats(keys)
    ensures NoRepeats(SortKeys(keys))
  {
    var sorted := SortKeys(keys);
    SortKeysSorts(keys);
    forall i, j | 0 <= i < j < |sorted| ensures sorted[i] != sorted[j] {
      CountAtMostOne(keys, sorted[i]);
      if sorted[i] == sorted[j] {
        CountRepeated(sorted, i, j);
      }
    }
  }

  lemma {:induction false} AscendingStrictly(keys: seq<seq<Byte>>, i: nat)
    requires Ascending(keys) && NoRepeats(keys) && i + 1 < |keys|
    ensures Compare(keys[i], keys[i + 1]) < 0
    decreases |keys|
  {
    if i == 0 {
      CompareEqual(keys[0], keys[1]);
    } else {
      AscendingStrictly(keys[1..], i - 1);
    }
  }

  lemma {:induction false} TotalBytesFront(key: seq<Byte>, keys: seq<seq<Byte>>)
    ensures TotalBytes([key] + keys) == |key| + TotalBytes(keys)
    decreases |keys|
  {
    if keys == [] {
      assert TotalBytes([key]) == TotalBytes([key][..0]) + |key|;
    } else {
      var n := |keys| - 1;
      assert ([key] + keys)[..n + 1] == [key] + keys[..n];
      TotalBytesFront(key, keys[..n]);
    }
  }

  lemma {:induction false} InsertBytes(keys: seq<seq<Byte>>, key: seq<Byte>)
    ensures TotalBytes(Insert(keys, key)) == TotalBytes(keys) + |key|
    decreases |keys|
  {
    TotalBytesFront(key, keys);
    if keys != [] {
      assert keys == [keys[0]] + keys[1..];
      TotalBytesFront(keys[0], keys[1..]);
      TotalBytesFront(keys[0], Insert(keys[1..], key));
      InsertBytes(keys[1..], key);
    } else {
      assert [key] + keys == [key];
    }
  }

  lemma {:induction false} SortKeepsBytes(keys: seq<seq<Byte>>)
    ensures TotalBytes(SortKeys(keys)) == TotalBytes(keys)
    decreases |keys|
  {
    if keys != [] {
      assert keys == [keys[0]] + keys[1..];
      TotalBytesFront(keys[0], keys[1..]);
      SortKeepsBytes(keys[1..]);
      InsertBytes(SortKeys(keys[1..]), keys[0]);
    }
  }

  lemma {:induction false} KeySetSize(items: seq<Value>)
    requires KeysDiffer(items)
    ensures |KeySet(items)| == |items|
    decreases |items|
  {
    if items != [] {
      var rest, last := items[..|items| - 1], items[|items| - 1];
      assert items == rest + [last];
      assert KeysDiffer(rest);
      KeySetSize(rest);
      KeySetAppend(rest, last);
      KeySetMember(rest, KeyOf(last));
    }
  }

  // ---------- the agreement ----------

  /** A template indexes live documents, and tombstones only when told to. */
  predicate Indexes(t: Template, doc: StoredDoc) {
    !doc.deleted || t.includeDeleted
  }

  /** The members of an indexed document, and the unsorted keys made from them. */
  lemma Inside(doc: StoredDoc, t: Template, generation: seq<Byte>, limits: Limits)
    returns (members: seq<Value>, keys: seq<seq<Byte>>)
    requires ProjectionOf(doc, t, generation, limits).Ok? && Indexes(t, doc)
    ensures var p, id, m := ProjectionOf(doc, t, generation, limits).value, LogicalDocumentId(doc).value,
                            Membership(t.fields);
            && PositiveLimits(limits) && ValidTemplate(t)
            && p.documentId == id
            && Postings(FieldsOf(doc, id, t), m, members, id, limits) == Ok(keys) && p.postingKeys == SortKeys(keys)
            && (m < 0 ==> members == [Null])
            && (m >= 0 ==> MembersOf(DocumentField(doc, id, t.fields[m].field), limits) == Ok(members))
  {
    var id, m := LogicalDocumentId(doc).value, Membership(t.fields);
    var read := ReadFields(doc, id, t.fields, limits);
    members := if m < 0 then [Null] else read.value;
    keys := Postings(FieldsOf(doc, id, t), m, members, id, limits).value;
    if m >= 0 {
      MembershipUnique(t);
      ReadMembers(doc, id, t.fields, limits, m);
    }
  }

  lemma MemberIffPosting(fields: seq<OrderKeys.Field>, m: nat, members: seq<Value>, id: seq<Byte>, limits: Limits,
                         v: Value)
    requires m < |fields| && Postings(fields, m, members, id, limits).Ok? && limits.maxEncodedBytes >= 0 && Scalar(v)
    ensures var keys := Postings(fields, m, members, id, limits).value;
            (exists k :: k in keys && Encode(PostingFields(fields, m, v), id) == Some(k)) <==>
              KeyOf(v) in KeySet(members)
  {
    var keys := Postings(fields, m, members, id, limits).value;
    PostingsMeaning(fields, m, members, id, limits);
    KeySetMember(members, KeyOf(v));
    ScalarKeyHead(v);
    if k :| k in keys && Encode(PostingFields(fields, m, v), id) == Some(k) {
      var i :| 0 <= i < |keys| && keys[i] == k;
      PostingIdentity(fields, m, members[i], v, id);
    }
    if i :| 0 <= i < |members| && KeyOf(members[i]) == KeyOf(v) {
      SameKeyEncodes(fields, m, members[i], v, id);
      PostingIdentity(fields, m, members[i], v, id);
      assert keys[i] in keys && Encode(PostingFields(fields, m, v), id) == Some(keys[i]);
    }
  }

  lemma SameKeyEncodes(fields: seq<OrderKeys.Field>, m: nat, member: Value, v: Value, id: seq<Byte>)
    requires m < |fields| && Scalar(v) && KeyOf(member) == KeyOf(v) &&
             Encode(PostingFields(fields, m, member), id).Some?
    ensures Encode(PostingFields(fields, m, v), id).Some?
  {
    var fs, gs := PostingFields(fields, m, member), PostingFields(fields, m, v);
    EncodeShape(fs, id);
    EncodeShape(gs, id);
    assert Encodable(fs[m]);
    ScalarKeyHead(member);
    ScalarKeyHead(v);
    forall i | 0 <= i < |gs| ensures Encodable(gs[i]) {
      assert Encodable(fs[i]);
      if i == m && v.Text? {
        assert ScalarKey(member).value[0] == ScalarKey(v).value[0];
        assert member.bytes == v.bytes;
      }
    }
  }

  lemma SortedMembers(keys: seq<seq<Byte>>, k: seq<Byte>)
    ensures k in SortKeys(keys) <==> k in keys
  {
    SortKeysSorts(keys);
    assert k in SortKeys(keys) <==> k in multiset(SortKeys(keys));
    assert k in keys <==> k in multiset(keys);
  }

  /** A posting for scalar `v` exists exactly when `contains v` is true of the
      stored field. */
  lemma PostingIffContains(doc: StoredDoc, t: Template, generation: seq<Byte>, limits: Limits, v: Value)
    requires ProjectionOf(doc, t, generation, limits).Ok? && Indexes(t, doc)
    requires Membership(t.fields) >= 0 && Scalar(v)
    ensures var p, id, m := ProjectionOf(doc, t, generation, limits).value, LogicalDocumentId(doc).value,
                            Membership(t.fields);
            var stored := DocumentField(doc, id, t.fields[m].field);
            var filter := NormalizedFilter(Filter(t.fields[m].field, Contains, v));
            && filter.Some?
            && ((exists k ::
                   k in p.postingKeys && Encode(PostingFields(FieldsOf(doc, id, t), m, v), id) == Some(k)) <==>
                Evaluate(filter.value, if stored.Some? then stored.value else Null, stored.Some?) == Some(true))
  {
    var id, m := LogicalDocumentId(doc).value, Membership(t.fields);
    var members, keys := Inside(doc, t, generation, limits);
    var fields, stored := FieldsOf(doc, id, t), DocumentField(doc, id, t.fields[m].field);
    var f := Filter(t.fields[m].field, Contains, v);
    assert ValidTemplateField(t.fields[m]);
    NormalizeFilterDefined(f);
    FilterMeaning(f, if stored.Some? then stored.value else Null, stored.Some?);
    MembersMeaning(stored, limits);
    MemberIffPosting(fields, m, members, id, limits, v);
    if stored.Some? && stored.value.Items? {
      ContainsByKey(v, stored.value.items);
    }
    forall k ensures k in SortKeys(keys) <==> k in keys {
      SortedMembers(keys, k);
    }
  }

  /** Postings are strictly ascending, every one leads back to the document, there
      is one per distinct scalar key, and count and bytes respect the limits. */
  lemma ProjectionBounded(doc: StoredDoc, t: Template, generation: seq<Byte>, limits: Limits)
    requires ProjectionOf(doc, t, generation, limits).Ok?
    ensures var keys, id := ProjectionOf(doc, t, generation, limits).value.postingKeys, LogicalDocumentId(doc).value;
            && (forall i :: 0 <= i < |keys| - 1 ==> Compare(keys[i], keys[i + 1]) < 0)
            && (forall k :: k in keys ==> DocIdOf(k) == Some(id))
            && |keys| <= limits.maxPostings && TotalBytes(keys) <= limits.maxEncodedBytes
            && (!Indexes(t, doc) ==> keys == [])
    ensures var m, id := Membership(t.fields), LogicalDocumentId(doc).value;
            Indexes(t, doc) ==>
              |ProjectionOf(doc, t, generation, limits).value.postingKeys| ==
              if m < 0 then 1 else
                var stored := DocumentField(doc, id, t.fields[m].field);
                if stored.Some? && stored.value.Items? then |KeySet(stored.value.items) - {[]}| else 0
  {
    if Indexes(t, doc) {
      var id, m := LogicalDocumentId(doc).value, Membership(t.fields);
      var members, keys := Inside(doc, t, generation, limits);
      var fields := FieldsOf(doc, id, t);
      PostingsMeaning(fields, m, members, id, limits);
      if m >= 0 {
        MembersMeaning(DocumentField(doc, id, t.fields[m].field), limits);
        KeySetSize(members);
      }
      PostingsDistinct(fields, m, members, id, limits);
      PostingsLeadBack(fields, m, members, id, limits);
      SortedPostings(keys, id);
    }
  }

  lemma PostingsDistinct(fields: seq<OrderKeys.Field>, m: int, members: seq<Value>, id: seq<Byte>, limits: Limits)
    requires m < |fields| && Postings(fields, m, members, id, limits).Ok? && limits.maxEncodedBytes >= 0
    requires if m < 0 then |members| == 1 else KeysDiffer(members)
    ensures NoRepeats(Postings(fields, m, members, id, limits).value)
  {
    PostingsMeaning(fields, m, members, id, limits);
    var keys := Postings(fields, m, members, id, limits).value;
    forall i, j | 0 <= i < j < |keys| ensures keys[i] != keys[j] {
      PostingIdentity(fields, m, members[i], members[j], id);
    }
  }

  lemma PostingsLeadBack(fields: seq<OrderKeys.Field>, m: int, members: seq<Value>, id: seq<Byte>, limits: Limits)
    requires m < |fields| && Postings(fields, m, members, id, limits).Ok? && limits.maxEncodedBytes >= 0
    ensures forall k :: k in Postings(fields, m, members, id, limits).value ==> DocIdOf(k) == Some(id)
  {
    PostingsMeaning(fields, m, members, id, limits);
    var keys := Postings(fields, m, members, id, limits).value;
    forall i | 0 <= i < |keys| ensures DocIdOf(keys[i]) == Some(id) {
      ExtractInvertsEncode(PostingFields(fields, m, members[i]), id);
    }
  }

  lemma SortedPostings(keys: seq<seq<Byte>>, id: seq<Byte>)
    requires NoRepeats(keys) && forall k :: k in keys ==> DocIdOf(k) == Some(id)
    ensures var sorted := SortKeys(keys);
            && |sorted| == |keys| && TotalBytes(sorted) == TotalBytes(keys)
            && (forall i :: 0 <= i < |sorted| - 1 ==> Compare(sorted[i], sorted[i + 1]) < 0)
            && (forall k :: k in sorted ==> DocIdOf(k) == Some(id))
  {
    var sorted := SortKeys(keys);
    SortKeysSorts(keys);
    SortKeepsDistinct(keys);
    SortKeepsBytes(keys);
    assert |multiset(sorted)| == |sorted| && |multiset(keys)| == |keys|;
    forall i | 0 <= i < |sorted| - 1 ensures Compare(sorted[i], sorted[i + 1]) < 0 {
      AscendingStrictly(sorted, i);
    }
    forall k ensures k in sorted <==> k in keys {
      SortedMembers(keys, k);
    }
  }
}
