/** A completed bootstrap covers every document of every matching collection once. */
module BootstrapTheorems {
  import opened Options
  import opened Bytes
  import opened Documents
  import opened Projections
  import opened ProjectionTheorems
  import opened IndexStore
  import opened IndexService
  import opened IndexReplay
  import opened Bootstrap

  /** What identifies a document across the source. */
  datatype Key = Key(database: Name, collection: Name, id: Option<Name>)

  function KeyOf(e: Entry): (k: Key) {
    Key(e.doc.database, e.doc.collection, LogicalDocumentId(e.doc))
  }

  predicate Once(log: seq<Entry>) {
    forall i, j :: 0 <= i < j < |log| ==> KeyOf(log[i]) != KeyOf(log[j])
  }

  lemma OnceConcat(a: seq<Entry>, b: seq<Entry>)
    requires Once(a) && Once(b) && forall i, j :: 0 <= i < |a| && 0 <= j < |b| ==> KeyOf(a[i]) != KeyOf(b[j])
    ensures Once(a + b)
  {
    var c := a + b;
    forall i, j | 0 <= i < j < |c| ensures KeyOf(c[i]) != KeyOf(c[j]) {
      if j < |a| {
        assert c[i] == a[i] && c[j] == a[j];
      } else if i >= |a| {
        assert c[i] == b[i - |a|] && c[j] == b[j - |a|];
      } else {
        assert c[i] == a[i] && c[j] == b[j - |a|];
      }
    }
  }

  // ---------- one collection ----------

  lemma {:induction false} EntriesAt(docs: seq<StoredDoc>, end: nat, ts: seq<Template>)
    requires end <= |docs|
    ensures |Entries(docs, 0, end, ts)| == end
    ensures forall i :: 0 <= i < end ==> Entries(docs, 0, end, ts)[i] == Entry(docs[i], ts)
    decreases end
  {
    if end > 0 {
      EntriesAt(docs, end - 1, ts);
    }
  }

  lemma CollectionOnce(docs: seq<StoredDoc>, database: Name, collection: Name, ts: seq<Template>, gate: Gate)
    requires AllFit(docs, 0, |docs|, database, collection, ts, gate)
    ensures var log := Entries(docs, 0, |docs|, ts);
            Once(log) &&
            forall i :: 0 <= i < |log| ==> log[i].doc.database == database && log[i].doc.collection == collection
  {
    EntriesAt(docs, |docs|, ts);
    var log := Entries(docs, 0, |docs|, ts);
    forall i | 0 <= i < |log| ensures KeyOf(log[i]) == Key(database, collection, Some(IdOf(docs[i]))) {
      assert Fits(docs, i, database, collection, ts, gate);
    }
    Ascends(docs, |docs|, database, collection, ts, gate);
    forall i, j | 0 <= i < j < |log| ensures KeyOf(log[i]) != KeyOf(log[j]) {
      ChainAscends(Ids(docs), |docs|, i, j);
      CompareEqual(IdOf(docs[i]), IdOf(docs[j]));
    }
  }

  // ---------- one database ----------

  predicate FromCollections(log: seq<Entry>, database: Name, names: seq<Name>, end: nat)
    requires end <= |names|
  {
    forall i :: 0 <= i < |log| ==>
      log[i].doc.database == database && exists k :: 0 <= k < end && names[k] == log[i].doc.collection
  }

  lemma NameAfter(d: Database, k: nat, database: Name, templates: Templates, gate: Gate)
    requires 0 < k < |d.collections| && NameFits(d, k, database, templates, gate)
    ensures Compare(d.collections[k - 1], d.collections[k]) < 0
  {
    CompareAntisymmetric(d.collections[k - 1], d.collections[k]);
  }

  lemma {:induction false} NamesAscend(d: Database, n: nat, database: Name, templates: Templates, gate: Gate)
    requires n <= |d.collections| && NamesFit(d, 0, n, database, templates, gate)
    ensures Chain(d.collections, n)
    decreases n
  {
    if n > 1 {
      NamesAscend(d, n - 1, database, templates, gate);
      NameAfter(d, n - 1, database, templates, gate);
    }
  }

  lemma CollectionsAscending(d: Database, database: Name, templates: Templates, gate: Gate)
    requires NamesFit(d, 0, |d.collections|, database, templates, gate)
    ensures StrictlyAscending(d.collections)
  {
    NamesAscend(d, |d.collections|, database, templates, gate);
    forall i, j | 0 <= i < j < |d.collections| ensures Compare(d.collections[i], d.collections[j]) < 0 {
      ChainAscends(d.collections, |d.collections|, i, j);
    }
  }

  /** Every part holds documents of its own collection, each once. */
  ghost predicate OwnParts(part: Part, names: seq<Name>, database: Name) {
    forall k :: 0 <= k < |names| ==> OwnPart(part(names[k]), database, names[k])
  }

  predicate OwnPart(log: seq<Entry>, database: Name, name: Name) {
    Once(log) && forall i :: 0 <= i < |log| ==> log[i].doc.database == database && log[i].doc.collection == name
  }

  lemma {:induction false} PartsOnce(part: Part, names: seq<Name>, end: nat, database: Name)
    requires OwnParts(part, names, database) && StrictlyAscending(names) && end <= |names|
    ensures var log := Parts(part, names, 0, end);
            Once(log) && FromCollections(log, database, names, end)
    decreases end
  {
    if end > 0 {
      PartsOnce(part, names, end - 1, database);
      assert OwnPart(part(names[end - 1]), database, names[end - 1]);
      PartAppend(Parts(part, names, 0, end - 1), part(names[end - 1]), names, database, end - 1);
    }
  }

  lemma DatabaseOnce(d: Database, database: Name, templates: Templates, gate: Gate)
    requires NamesFit(d, 0, |d.collections|, database, templates, gate)
    ensures var log := DatabaseEntries(d, database, templates);
            Once(log) && FromCollections(log, database, d.collections, |d.collections|)
  {
    var part := PartOf(d, database, templates);
    forall k | 0 <= k < |d.collections| ensures OwnPart(part(d.collections[k]), database, d.collections[k]) {
      assert NameFits(d, k, database, templates, gate);
      CollectionEntriesOnce(d, database, d.collections[k], templates, gate);
    }
    CollectionsAscending(d, database, templates, gate);
    PartsOnce(part, d.collections, |d.collections|, database);
  }

  lemma CollectionEntriesOnce(d: Database, database: Name, name: Name, templates: Templates, gate: Gate)
    requires CollectionFits(d, database, name, templates, gate)
    ensures OwnPart(CollectionEntries(d, database, name, templates), database, name)
  {
    var ts := TemplatesOf(templates, database, name);
    if ts != [] {
      CollectionOnce(DocsOf(d, name), database, name, ts, gate);
    }
  }

  lemma PartAppend(before: seq<Entry>, last: seq<Entry>, names: seq<Name>, database: Name, n: nat)
    requires n < |names| && StrictlyAscending(names)
    requires Once(before) && FromCollections(before, database, names, n)
    requires OwnPart(last, database, names[n])
    ensures Once(before + last) && FromCollections(before + last, database, names, n + 1)
  {
    forall i, j | 0 <= i < |before| && 0 <= j < |last| ensures KeyOf(before[i]) != KeyOf(last[j]) {
      var k :| 0 <= k < n && names[k] == before[i].doc.collection;
      CompareEqual(names[k], names[n]);
    }
    OnceConcat(before, last);
    forall i | 0 <= i < |before + last|
      ensures (before + last)[i].doc.database == database &&
              exists k :: 0 <= k < n + 1 && names[k] == (before + last)[i].doc.collection
    {
      if i < |before| {
        var k :| 0 <= k < n && names[k] == before[i].doc.collection;
        assert names[k] == (before + last)[i].doc.collection;
      } else {
        assert names[n] == (before + last)[i].doc.collection;
      }
    }
  }

  // ---------- the whole source ----------

  predicate FromDatabases(log: seq<Entry>, databases: seq<Name>) {
    forall i :: 0 <= i < |log| ==> log[i].doc.database in databases
  }

  /** No document is projected twice by a scan that passes, whatever the source presents. */
  lemma {:induction false} EveryDocumentOnce(source: map<Name, Database>, databases: seq<Name>,
                                             templates: Templates, gate: Gate)
    requires SourceFits(source, databases, templates, gate) && StrictlyAscending(databases)
    ensures Once(AllEntries(source, databases, templates)) &&
            FromDatabases(AllEntries(source, databases, templates), databases)
    decreases |databases|
  {
    if databases != [] {
      var n := |databases| - 1;
      var rest, database := databases[..n], databases[n];
      EveryDocumentOnce(source, rest, templates, gate);
      var d := Content(source, database);
      assert DatabaseFits(source, database, templates, gate);
      DatabaseOnce(d, database, templates, gate);
      var before, last := AllEntries(source, rest, templates), DatabaseEntries(d, database, templates);
      DatabaseAppend(before, last, databases, n);
    }
  }

  lemma DatabaseAppend(before: seq<Entry>, last: seq<Entry>, databases: seq<Name>, n: nat)
    requires n + 1 == |databases| && StrictlyAscending(databases)
    requires Once(before) && FromDatabases(before, databases[..n])
    requires Once(last) && forall i :: 0 <= i < |last| ==> last[i].doc.database == databases[n]
    ensures Once(before + last) && FromDatabases(before + last, databases)
  {
    forall i, j | 0 <= i < |before| && 0 <= j < |last| ensures KeyOf(before[i]) != KeyOf(last[j]) {
      var k :| 0 <= k < n && databases[..n][k] == before[i].doc.database;
      CompareEqual(databases[k], databases[n]);
    }
    OnceConcat(before, last);
  }

  lemma {:induction false} DatabaseCovered(source: map<Name, Database>, databases: seq<Name>, templates: Templates,
                                           database: Name, e: Entry)
    requires database in databases
    requires e in DatabaseEntries(Content(source, database), database, templates)
    ensures e in AllEntries(source, databases, templates)
    decreases |databases|
  {
    var n := |databases| - 1;
    if databases[n] != database {
      assert database in databases[..n];
      DatabaseCovered(source, databases[..n], templates, database, e);
    }
  }

  /** No document of a matching collection, the `c`-th of its database, is missed. */
  lemma EveryDocumentCovered(source: map<Name, Database>, databases: seq<Name>, templates: Templates,
                             database: Name, c: nat, i: nat)
    requires database in databases && c < |Content(source, database).collections|
    requires var d := Content(source, database); var name := d.collections[c];
             i < |DocsOf(d, name)| && TemplatesOf(templates, database, name) != []
    ensures var d := Content(source, database); var name := d.collections[c];
            Entry(DocsOf(d, name)[i], TemplatesOf(templates, database, name)) in
              AllEntries(source, databases, templates)
  {
    var d := Content(source, database);
    var name := d.collections[c];
    var e := Entry(DocsOf(d, name)[i], TemplatesOf(templates, database, name));
    CollectionCovers(d, database, name, templates, i);
    PartsCover(PartOf(d, database, templates), d.collections, |d.collections|, c, e);
    DatabaseCovered(source, databases, templates, database, e);
  }

  lemma CollectionCovers(d: Database, database: Name, name: Name, templates: Templates, i: nat)
    requires i < |DocsOf(d, name)| && TemplatesOf(templates, database, name) != []
    ensures Entry(DocsOf(d, name)[i], TemplatesOf(templates, database, name)) in
              CollectionEntries(d, database, name, templates)
  {
    var docs, ts := DocsOf(d, name), TemplatesOf(templates, database, name);
    EntriesAt(docs, |docs|, ts);
    assert Entries(docs, 0, |docs|, ts)[i] == Entry(docs[i], ts);
  }

  lemma InConcat(a: seq<Entry>, b: seq<Entry>, e: Entry)
    ensures e in a + b <==> e in a || e in b
  {
  }

  lemma {:induction false} PartsCover(part: Part, names: seq<Name>, end: nat, c: nat, e: Entry)
    requires c < end <= |names| && e in part(names[c])
    ensures e in Parts(part, names, 0, end)
    decreases end
  {
    if c < end - 1 {
      PartsCover(part, names, end - 1, c, e);
    }
    InConcat(Parts(part, names, 0, end - 1), part(names[end - 1]), e);
  }

  // ---------- inventory ----------

  lemma {:induction false} CompactAscending(names: seq<Name>)
    requires ProjectionTheorems.Ascending(names)
    ensures StrictlyAscending(Compact(names)) && (forall x :: x in Compact(names) <==> x in names)
    ensures names != [] ==> Compact(names) != [] && Compact(names)[0] == names[0]
    decreases |names|
  {
    if |names| >= 2 {
      CompactAscending(names[1..]);
      var rest := Compact(names[1..]);
      CompareEqual(names[0], names[1]);
      assert forall x :: x in names <==> x == names[0] || x in names[1..];
      if names[0] != names[1] {
        forall j | 0 <= j < |rest| ensures Compare(names[0], rest[j]) < 0 {
          if j > 0 {
            CompareTransitive(names[0], rest[0], rest[j]);
          }
        }
      }
    }
  }

  /** The inventory lists each requested database once, in order. */
  lemma InventorySorted(databases: seq<Name>)
    ensures StrictlyAscending(Inventory(databases)) && forall x :: x in Inventory(databases) <==> x in databases
  {
    SortKeysSorts(databases);
    CompactAscending(SortKeys(databases));
    forall x ensures x in SortKeys(databases) <==> x in databases {
      SortedMembers(databases, x);
    }
  }

  // ---------- the index that was built ----------

  lemma {:induction false} LogEffectConcat(a: seq<Entry>, b: seq<Entry>, effect: Effect)
    ensures var x, y, z := LogEffect(a, effect), LogEffect(b, effect), LogEffect(a + b, effect);
            && (z.Some? <==> x.Some? && y.Some?)
            && (z.Some? ==> z.value == x.value + y.value)
    decreases |b|
  {
    if b == [] {
      assert a + b == a;
      var x := LogEffect(a, effect);
      assert x.Some? ==> x.value + [] == x.value;
    } else {
      var n := |b| - 1;
      assert (a + b)[..|a| + n] == a + b[..n] && (a + b)[|a| + n] == b[n];
      LogEffectConcat(a, b[..n], effect);
      var x, y, last := LogEffect(a, effect), LogEffect(b[..n], effect), effect(b[n].doc, b[n].templates);
      if x.Some? && y.Some? && last.Some? {
        assert (x.value + y.value) + last.value == x.value + (y.value + last.value);
      }
    }
  }

  /** An effect only replaces postings of its own document. */
  ghost predicate OwnPostings(effect: Effect) {
    forall doc, ts, i {:trigger effect(doc, ts).value[i]} ::
      effect(doc, ts).Some? && 0 <= i < |effect(doc, ts).value| ==>
        var p := effect(doc, ts).value[i];
        p.index.database == doc.database && p.index.collection == doc.collection &&
        LogicalDocumentId(doc) == Some(p.documentId)
  }

  lemma DocumentEffectOwn(doc: StoredDoc, ts: seq<Template>, generation: Name, i: nat)
    requires DocumentEffect(doc, ts, generation).Some? && i < |DocumentEffect(doc, ts, generation).value|
    ensures var p := DocumentEffect(doc, ts, generation).value[i];
            && i < |ts| && ProjectionOf(doc, ts[i], generation, DEFAULT_LIMITS) == Ok(p)
            && p.index == QueryIndexRef(doc.database, doc.collection, ts[i].fingerprint, generation)
            && LogicalDocumentId(doc) == Some(p.documentId)
    ensures LastFor(DocumentEffect(doc, ts, generation).value, i)
  {
    var refs := RefsAt(doc.database, doc.collection, ts, generation);
    assert ProjectAll(doc, ts, refs) == DocumentEffect(doc, ts, generation);
    assert ProjectionOf(doc, ts[i], refs[i].generation, DEFAULT_LIMITS) ==
             Ok(DocumentEffect(doc, ts, generation).value[i]);
  }

  lemma RepresentsOwn(effect: Effect, generation: Name)
    requires Represents(effect, generation)
    ensures OwnPostings(effect)
  {
    forall doc, ts, i | effect(doc, ts).Some? && 0 <= i < |effect(doc, ts).value|
      ensures var p := effect(doc, ts).value[i];
              p.index.database == doc.database && p.index.collection == doc.collection &&
              LogicalDocumentId(doc) == Some(p.documentId)
    {
      assert effect(doc, ts) == DocumentEffect(doc, ts, generation);
      DocumentEffectOwn(doc, ts, generation, i);
    }
  }

  /** Entries for other documents leave a slot alone. */
  lemma {:induction false} OthersElsewhere(log: seq<Entry>, effect: Effect, slot: Slot)
    requires OwnPostings(effect) && LogEffect(log, effect).Some?
    requires forall i :: 0 <= i < |log| ==>
               KeyOf(log[i]) != Key(slot.index.database, slot.index.collection, Some(slot.documentId))
    ensures !Touches(LogEffect(log, effect).value, slot)
    decreases |log|
  {
    if log != [] {
      var n := |log| - 1;
      var before, last := LogEffect(log[..n], effect).value, effect(log[n].doc, log[n].templates).value;
      OthersElsewhere(log[..n], effect, slot);
      var all: seq<Projection> := before + last;
      forall i | 0 <= i < |all| ensures Slot(all[i].index, all[i].documentId) != slot {
        if i >= |before| {
          assert all[i] == effect(log[n].doc, log[n].templates).value[i - |before|];
        }
      }
    }
  }

  /** After a bootstrap the postings of every scanned document are those of its own
      projection: none is missing and none was overwritten by another document. */
  lemma IndexComplete(postings: map<Slot, seq<seq<Byte>>>, log: seq<Entry>, effect: Effect, generation: Name,
                      k: nat, i: nat)
    requires Represents(effect, generation) && Faithful(postings, log, effect) && Once(log) && k < |log|
    requires effect(log[k].doc, log[k].templates).Some? && i < |effect(log[k].doc, log[k].templates).value|
    ensures var p := effect(log[k].doc, log[k].templates).value[i];
            && i < |log[k].templates|
            && ProjectionOf(log[k].doc, log[k].templates[i], generation, DEFAULT_LIMITS) == Ok(p)
            && Get(postings, Slot(p.index, p.documentId)) == p.postingKeys
  {
    var doc, ts := log[k].doc, log[k].templates;
    assert effect(doc, ts) == DocumentEffect(doc, ts, generation);
    DocumentEffectOwn(doc, ts, generation, i);
    RepresentsOwn(effect, generation);
    SplitLog(log, effect, k);
    var p := effect(doc, ts).value[i];
    var slot := Slot(p.index, p.documentId);
    var later := log[k + 1..];
    forall j | 0 <= j < |later|
      ensures KeyOf(later[j]) != Key(slot.index.database, slot.index.collection, Some(slot.documentId))
    {
      assert later[j] == log[k + 1 + j];
    }
    OthersElsewhere(later, effect, slot);
    SlotAfter(map[], LogEffect(log[..k], effect).value, effect(doc, ts).value, LogEffect(later, effect).value, i);
  }

  lemma SplitLog(log: seq<Entry>, effect: Effect, k: nat)
    requires LogEffect(log, effect).Some? && k < |log|
    ensures LogEffect(log[..k], effect).Some? && LogEffect(log[k + 1..], effect).Some? &&
            effect(log[k].doc, log[k].templates).Some?
    ensures LogEffect(log, effect).value ==
            LogEffect(log[..k], effect).value + effect(log[k].doc, log[k].templates).value +
              LogEffect(log[k + 1..], effect).value
  {
    assert log == log[..k + 1] + log[k + 1..];
    LogEffectConcat(log[..k + 1], log[k + 1..], effect);
    LogEffectLast(log, effect, k);
  }

  lemma LogEffectLast(log: seq<Entry>, effect: Effect, k: nat)
    requires k < |log| && LogEffect(log[..k + 1], effect).Some?
    ensures LogEffect(log[..k], effect).Some? && effect(log[k].doc, log[k].templates).Some?
    ensures LogEffect(log[..k + 1], effect).value ==
              LogEffect(log[..k], effect).value + effect(log[k].doc, log[k].templates).value
  {
    assert log[..k + 1][..k] == log[..k] && log[..k + 1][k] == log[k];
  }

  lemma EffectDefined(log: seq<Entry>, effect: Effect, generation: Name, k: nat)
    requires Represents(effect, generation) && LogEffect(log, effect).Some? && k < |log|
    ensures effect(log[k].doc, log[k].templates).Some? &&
            effect(log[k].doc, log[k].templates) == DocumentEffect(log[k].doc, log[k].templates, generation)
    ensures |effect(log[k].doc, log[k].templates).value| == |log[k].templates|
  {
    SplitLog(log, effect, k);
    assert effect(log[k].doc, log[k].templates) == DocumentEffect(log[k].doc, log[k].templates, generation);
  }

  /** The rebuilt index: for every document the source presents in a collection that some
      template matches, and for each such template `t`, the store holds exactly the
      postings of that document's projection. */
  lemma RebuildComplete(
      postings: map<Slot, seq<seq<Byte>>>, source: map<Name, Database>, request: seq<Name>, templates: Templates,
      effect: Effect, gate: Gate, generation: Name, database: Name, c: nat, i: nat, t: nat)
    requires Represents(effect, generation) &&
             Faithful(postings, AllEntries(source, Inventory(request), templates), effect)
    requires SourceFits(source, Inventory(request), templates, gate)
    requires database in request && c < |Content(source, database).collections|
    requires var d := Content(source, database); var name := d.collections[c];
             i < |DocsOf(d, name)| && t < |TemplatesOf(templates, database, name)|
    ensures var d := Content(source, database); var name := d.collections[c];
            var doc, tmpl := DocsOf(d, name)[i], TemplatesOf(templates, database, name)[t];
            && LogicalDocumentId(doc).Some? && ProjectionOf(doc, tmpl, generation, DEFAULT_LIMITS).Ok?
            && Get(postings,
                   Slot(QueryIndexRef(doc.database, doc.collection, tmpl.fingerprint, generation), IdOf(doc))) ==
               ProjectionOf(doc, tmpl, generation, DEFAULT_LIMITS).value.postingKeys
  {
    var databases := Inventory(request);
    var log := AllEntries(source, databases, templates);
    InventorySorted(request);
    EveryDocumentOnce(source, databases, templates, gate);
    EveryDocumentCovered(source, databases, templates, database, c, i);
    var d := Content(source, database);
    var name := d.collections[c];
    var e := Entry(DocsOf(d, name)[i], TemplatesOf(templates, database, name));
    var k :| 0 <= k < |log| && log[k] == e;
    EffectDefined(log, effect, generation, k);
    IndexComplete(postings, log, effect, generation, k, t);
    DocumentEffectOwn(e.doc, e.templates, generation, t);
  }

  // ---------- what the enumeration leaves out ----------

  /** Every page but the last is full, and the last holds all the rest. */
  predicate FullPages(total: nat, batch: nat, listing: nat -> Listing, pos: nat, turn: nat)
    requires pos <= total && batch > 0
    decreases total - pos
  {
    if total - pos < batch then listing(turn).size >= total - pos
    else listing(turn).size == batch && FullPages(total, batch, listing, pos + batch, turn + 1)
  }

  lemma {:induction false} ReachesAll(total: nat, batch: nat, listing: nat -> Listing, pos: nat, turn: nat)
    requires pos <= total && batch > 0 && HonestListings(listing, batch)
    ensures Reach(total, batch, listing, pos, turn) == total <==> FullPages(total, batch, listing, pos, turn)
    decreases total - pos
  {
    if total - pos >= batch && listing(turn).size == batch {
      ReachesAll(total, batch, listing, pos + batch, turn + 1);
    }
  }

  /** A rebuild sees every collection of a database if and only if the enumerator's pages
      are full up to the last: a short page in between ends the enumeration early, and
      the collections behind it are missing without an error. */
  lemma EnumerationComplete(env: World, batch: nat, database: Name)
    requires batch > 0 && HonestListings(ListingOf(env, database), batch)
    ensures Content(Seen(env, batch), database) == Content(env.source, database) <==>
            FullPages(|Content(env.source, database).collections|, batch, ListingOf(env, database), 0, 0)
  {
    var d := Content(env.source, database);
    SeenContent(env, batch, database);
    ReachesAll(|d.collections|, batch, ListingOf(env, database), 0, 0);
    assert d.collections[..|d.collections|] == d.collections;
  }

  // ---------- nothing else is in the index ----------

  lemma {:induction false} TouchedBySome(postings: map<Slot, seq<seq<Byte>>>, ps: seq<Projection>, slot: Slot)
    returns (i: nat)
    requires slot in PutAll(postings, ps) && slot !in postings
    ensures i < |ps| && Slot(ps[i].index, ps[i].documentId) == slot
    decreases |ps|
  {
    if ps == [] {
      assert false;
    } else if Slot(ps[0].index, ps[0].documentId) == slot {
      i := 0;
    } else {
      var j := TouchedBySome(Put(postings, ps[0]), ps[1..], slot);
      i := j + 1;
    }
  }

  lemma {:induction false} EffectOfSome(log: seq<Entry>, effect: Effect, i: nat) returns (k: nat, j: nat)
    requires LogEffect(log, effect).Some? && i < |LogEffect(log, effect).value|
    ensures k < |log| && effect(log[k].doc, log[k].templates).Some? && j < |effect(log[k].doc, log[k].templates).value|
    ensures effect(log[k].doc, log[k].templates).value[j] == LogEffect(log, effect).value[i]
    decreases |log|
  {
    var n := |log| - 1;
    var before := LogEffect(log[..n], effect).value;
    if i < |before| {
      k, j := EffectOfSome(log[..n], effect, i);
      assert log[..n][k] == log[k];
    } else {
      k, j := n, i - |before|;
    }
  }

  lemma {:induction false} PartOfSome(part: Part, names: seq<Name>, end: nat, e: Entry) returns (c: nat)
    requires end <= |names| && e in Parts(part, names, 0, end)
    ensures c < end && e in part(names[c])
    decreases end
  {
    InConcat(Parts(part, names, 0, end - 1), part(names[end - 1]), e);
    if e in part(names[end - 1]) {
      c := end - 1;
    } else {
      c := PartOfSome(part, names, end - 1, e);
    }
  }

  lemma DocumentOfSome(d: Database, database: Name, name: Name, templates: Templates, e: Entry) returns (i: nat)
    requires e in CollectionEntries(d, database, name, templates)
    ensures i < |DocsOf(d, name)| && e == Entry(DocsOf(d, name)[i], TemplatesOf(templates, database, name))
  {
    var docs, ts := DocsOf(d, name), TemplatesOf(templates, database, name);
    EntriesAt(docs, |docs|, ts);
    i :| 0 <= i < |docs| && Entries(docs, 0, |docs|, ts)[i] == e;
  }

  lemma {:induction false} DatabaseOfSome(source: map<Name, Database>, databases: seq<Name>, templates: Templates,
                                          e: Entry) returns (database: Name)
    requires e in AllEntries(source, databases, templates)
    ensures database in databases && e in DatabaseEntries(Content(source, database), database, templates)
    decreases |databases|
  {
    var n := |databases| - 1;
    InConcat(AllEntries(source, databases[..n], templates),
             DatabaseEntries(Content(source, databases[n]), databases[n], templates), e);
    if e in AllEntries(source, databases[..n], templates) {
      database := DatabaseOfSome(source, databases[..n], templates, e);
    } else {
      database := databases[n];
    }
  }

  /** The converse: whatever the rebuilt index holds is the projection of a document that
      the source presents, under a template that matches its collection. */
  lemma NothingElseIndexed(
      postings: map<Slot, seq<seq<Byte>>>, source: map<Name, Database>, databases: seq<Name>, templates: Templates,
      effect: Effect, generation: Name, slot: Slot) returns (database: Name, c: nat, i: nat, t: nat)
    requires Represents(effect, generation) && Faithful(postings, AllEntries(source, databases, templates), effect) &&
             slot in postings
    ensures database in databases && c < |Content(source, database).collections|
    ensures var d := Content(source, database); var name := d.collections[c];
            && i < |DocsOf(d, name)| && t < |TemplatesOf(templates, database, name)|
            && var doc, tmpl := DocsOf(d, name)[i], TemplatesOf(templates, database, name)[t];
               slot == Slot(QueryIndexRef(doc.database, doc.collection, tmpl.fingerprint, generation), IdOf(doc))
  {
    var log := AllEntries(source, databases, templates);
    var p := TouchedBySome(map[], LogEffect(log, effect).value, slot);
    var k, j := EffectOfSome(log, effect, p);
    var e := log[k];
    EffectDefined(log, effect, generation, k);
    DocumentEffectOwn(e.doc, e.templates, generation, j);
    database := DatabaseOfSome(source, databases, templates, e);
    var d := Content(source, database);
    c := PartOfSome(PartOf(d, database, templates), d.collections, |d.collections|, e);
    i := DocumentOfSome(d, database, d.collections[c], templates, e);
    t := j;
  }
}
