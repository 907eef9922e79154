/** Stored documents, their logical identity and the index templates over them. */
module Documents {
  import opened Options
  import opened Bytes
  import opened Values
  import opened Filters

  const SLASH: Byte := 0x2F
  const STAR: Byte := 0x2A

  datatype StoredDoc = StoredDoc(
    database: seq<Byte>, collection: seq<Byte>, fullpath: seq<Byte>,
    version: int, createdAt: int, updatedAt: int, deleted: bool, data: map<seq<Byte>, Value>)

  // ---------- paths ----------

  function Split(path: seq<Byte>): (segments: seq<seq<Byte>>)
    ensures segments != []
  {
    if path == [] then [[]]
    else
      var rest := Split(path[1..]);
      if path[0] == SLASH then [[]] + rest else [[path[0]] + rest[0]] + rest[1..]
  }

  predicate NoEmptySegment(path: seq<Byte>) {
    [] !in Split(path)
  }

  predicate ConcreteCollection(collection: seq<Byte>) {
    collection != [] && STAR !in collection && 0 !in collection && NoEmptySegment(collection)
  }

  /** Identity comes from stored metadata, which survives tombstones. */
  function LogicalDocumentId(doc: StoredDoc): (r: Option<seq<Byte>>)
    ensures r.Some? ==> doc.fullpath == doc.collection + [SLASH] + r.value
    ensures r.Some? ==> doc.database != [] && r.value != [] && SLASH !in r.value && 0 !in r.value
  {
    var prefix := doc.collection + [SLASH];
    if doc.database == [] || !ConcreteCollection(doc.collection) || !(prefix <= doc.fullpath) then None
    else
      var id := doc.fullpath[|prefix|..];
      if id == [] || SLASH in id || 0 in id then None else Some(id)
  }

  /** A document has exactly one identity or none: the rest of its path below a concrete
      collection, a single nonempty segment without NUL. */
  lemma LogicalIdentity(doc: StoredDoc, id: seq<Byte>)
    ensures LogicalDocumentId(doc) == Some(id) <==>
            && doc.database != [] && ConcreteCollection(doc.collection) && doc.fullpath == doc.collection + [SLASH] + id
            && id != [] && SLASH !in id && 0 !in id
  {
    var prefix := doc.collection + [SLASH];
    if doc.fullpath == prefix + id {
      assert prefix <= doc.fullpath && doc.fullpath[|prefix|..] == id;
    }
  }

  // ---------- fields ----------

  const ID: seq<Byte> := [0x69, 0x64]
  const COLLECTION: seq<Byte> := [0x63, 0x6F, 0x6C, 0x6C, 0x65, 0x63, 0x74, 0x69, 0x6F, 0x6E]
  const VERSION_FIELD: seq<Byte> := [0x76, 0x65, 0x72, 0x73, 0x69, 0x6F, 0x6E]
  const CREATED_AT: seq<Byte> := [0x63, 0x72, 0x65, 0x61, 0x74, 0x65, 0x64, 0x41, 0x74]
  const UPDATED_AT: seq<Byte> := [0x75, 0x70, 0x64, 0x61, 0x74, 0x65, 0x64, 0x41, 0x74]
  const DELETED: seq<Byte> := [0x64, 0x65, 0x6C, 0x65, 0x74, 0x65, 0x64]

  predicate Metadata(field: seq<Byte>) {
    field == ID || field == COLLECTION || field == VERSION_FIELD ||
    field == CREATED_AT || field == UPDATED_AT || field == DELETED
  }

  /** Metadata comes from the envelope; tombstones have no business fields. */
  function DocumentField(doc: StoredDoc, id: seq<Byte>, field: seq<Byte>): (r: Option<Value>)
    ensures doc.deleted && !Metadata(field) ==> r.None?
  {
    if field == ID then Some(Text(id))
    else if field == COLLECTION then Some(Text(doc.collection))
    else if field == VERSION_FIELD then Some(Integer(doc.version))
    else if field == CREATED_AT then Some(Integer(doc.createdAt))
    else if field == UPDATED_AT then Some(Integer(doc.updatedAt))
    else if field == DELETED then Some(Bool(doc.deleted))
    else if doc.deleted || field !in doc.data then None
    else Some(doc.data[field])
  }

  /** The six fields that every document has, tombstones included. */
  function Envelope(doc: StoredDoc, id: seq<Byte>): (fields: map<seq<Byte>, Value>) {
    map[ID := Text(id), COLLECTION := Text(doc.collection), VERSION_FIELD := Integer(doc.version),
        CREATED_AT := Integer(doc.createdAt), UPDATED_AT := Integer(doc.updatedAt), DELETED := Bool(doc.deleted)]
  }

  /** A document shows its envelope laid over its data, a tombstone its envelope only: a
      business field cannot stand in for metadata. */
  lemma FieldsOverlaid(doc: StoredDoc, id: seq<Byte>, field: seq<Byte>)
    ensures var shown := (if doc.deleted then map[] else doc.data) + Envelope(doc, id);
            DocumentField(doc, id, field) == if field in shown then Some(shown[field]) else None
  {
    assert |ID| == 2 && |COLLECTION| == 10 && |VERSION_FIELD| == 7 && |DELETED| == 7 && |CREATED_AT| == 9 &&
           |UPDATED_AT| == 9;
    assert VERSION_FIELD[0] != DELETED[0] && CREATED_AT[0] != UPDATED_AT[0];
  }

  // ---------- templates ----------

  datatype SortOrder = Ascending | Descending | Unset | OtherOrder
  datatype Mode = DefaultMode | ScalarMode | MembershipMode | OtherMode

  datatype TemplateField = TemplateField(field: seq<Byte>, order: SortOrder, mode: Mode)

  /** `fingerprint` is the digest of the definition, taken as data. */
  datatype Template = Template(pattern: seq<Byte>, fields: seq<TemplateField>, includeDeleted: bool,
                               fingerprint: seq<Byte>)

  predicate ValidTemplateField(f: TemplateField) {
    && ValidField(f.field)
    && match f.mode
       case MembershipMode => (f.order.Unset? || f.order.Ascending?) && !Metadata(f.field)
       case OtherMode => false
       case _ => f.order.Ascending? || f.order.Descending?
  }

  predicate ValidTemplate(t: Template) {
    && t.pattern != [] && NoEmptySegment(t.pattern)
    && t.fields != []
    && (forall i :: 0 <= i < |t.fields| ==> ValidTemplateField(t.fields[i]))
    && (forall i, j :: 0 <= i < j < |t.fields| ==> t.fields[i].field != t.fields[j].field)
    && (forall i, j :: 0 <= i < j < |t.fields| ==>
          !(t.fields[i].mode.MembershipMode? && t.fields[j].mode.MembershipMode?))
  }

  /** `{name}` and `*` match any single segment. */
  predicate Variable(segment: seq<Byte>) {
    segment == [STAR] ||
    (|segment| > 2 && segment[0] == 0x7B && segment[|segment| - 1] == 0x7D && 0x7D !in segment[1..|segment| - 1])
  }

  predicate Matches(t: Template, collection: seq<Byte>) {
    var pattern, path := Split(t.pattern), Split(collection);
    |pattern| == |path| && forall i :: 0 <= i < |path| ==> Variable(pattern[i]) || pattern[i] == path[i]
  }

  function MatchingTemplates(collection: seq<Byte>, templates: seq<Template>): (r: seq<Template>)
    ensures forall t :: t in r <==> t in templates && Matches(t, collection)
  {
    if templates == [] then []
    else
      (if Matches(templates[0], collection) then [templates[0]] else []) +
      MatchingTemplates(collection, templates[1..])
  }
}
