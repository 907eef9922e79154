/** The maintenance bootstrap: a complete paged scan of every inventoried database,
    followed by one publication of all catalogs. */
module Bootstrap {
  import opened Options
  import opened Bytes
  import opened Documents
  import opened Projections
  import opened IndexStore
  import opened IndexService

  /** What the source presents of one database: the names it enumerates and, for each,
      the documents of its scan. Nothing is promised about either. */
  datatype Database = Database(collections: seq<Name>, documents: map<Name, seq<StoredDoc>>)

  function DocsOf(d: Database, collection: Name): (docs: seq<StoredDoc>) {
    if collection in d.documents then d.documents[collection] else []
  }

  predicate StrictlyAscending(names: seq<Name>) {
    forall i, j :: 0 <= i < j < |names| ==> Compare(names[i], names[j]) < 0
  }

  function IdOf(doc: StoredDoc): (id: Name) {
    match LogicalDocumentId(doc) case Some(id) => id case None => []
  }

  /** The identifier of the last document before position `pos`. */
  function Before(docs: seq<StoredDoc>, pos: nat): (after: Name)
    requires pos <= |docs|
  {
    if pos == 0 then [] else IdOf(docs[pos - 1])
  }

  function NameBefore(names: seq<Name>, pos: nat): (after: Name)
    requires pos <= |names|
  {
    if pos == 0 then [] else names[pos - 1]
  }

  // ---------- when a scan passes ----------

  /** Whether a document can be projected under its templates and stored. */
  datatype Gate = Gate(effect: Effect, refuses: StoredDoc -> bool)

  predicate Passes(gate: Gate, doc: StoredDoc, ts: seq<Template>) {
    gate.effect(doc, ts).Some? && !Refused(gate.refuses, doc)
  }

  predicate Refused(refuses: StoredDoc -> bool, doc: StoredDoc) {
    refuses(doc)
  }

  /** The document at `k` has an identity in scope, comes after its predecessor, and is let through. */
  predicate Fits(docs: seq<StoredDoc>, k: nat, database: Name, collection: Name, ts: seq<Template>, gate: Gate)
    requires k < |docs|
  {
    && LogicalDocumentId(docs[k]).Some? && docs[k].database == database && docs[k].collection == collection
    && Compare(IdOf(docs[k]), Before(docs, k)) > 0 && Passes(gate, docs[k], ts)
  }

  ghost predicate AllFit(docs: seq<StoredDoc>, from: nat, end: nat, database: Name, collection: Name,
                         ts: seq<Template>, gate: Gate)
    requires end <= |docs|
  {
    forall k :: from <= k < end ==> Fits(docs, k, database, collection, ts, gate)
  }

  ghost predicate CollectionFits(d: Database, database: Name, collection: Name, templates: Templates, gate: Gate) {
    var docs, ts := DocsOf(d, collection), TemplatesOf(templates, database, collection);
    ts == [] || AllFit(docs, 0, |docs|, database, collection, ts, gate)
  }

  ghost predicate NameFits(d: Database, k: nat, database: Name, templates: Templates, gate: Gate)
    requires k < |d.collections|
  {
    Compare(d.collections[k], NameBefore(d.collections, k)) > 0 &&
    CollectionFits(d, database, d.collections[k], templates, gate)
  }

  ghost predicate NamesFit(d: Database, from: nat, end: nat, database: Name, templates: Templates, gate: Gate)
    requires end <= |d.collections|
  {
    forall k :: from <= k < end ==> NameFits(d, k, database, templates, gate)
  }

  ghost predicate DatabaseFits(source: map<Name, Database>, database: Name, templates: Templates, gate: Gate) {
    var d := Content(source, database);
    NamesFit(d, 0, |d.collections|, database, templates, gate)
  }

  ghost predicate SourceFits(source: map<Name, Database>, databases: seq<Name>, templates: Templates, gate: Gate) {
    forall i :: 0 <= i < |databases| ==> DatabaseFits(source, databases[i], templates, gate)
  }

  // ---------- what a complete scan projects ----------

  function RefsAt(database: Name, collection: Name, ts: seq<Template>, generation: Name): (refs: seq<QueryIndexRef>)
    ensures |refs| == |ts|
    ensures forall i :: 0 <= i < |ts| ==> refs[i] == QueryIndexRef(database, collection, ts[i].fingerprint, generation)
  {
    seq(|ts|, i requires 0 <= i < |ts| => QueryIndexRef(database, collection, ts[i].fingerprint, generation))
  }

  /** The replacements of one document, if all its projections succeed and can be stored. */
  function DocumentEffect(doc: StoredDoc, ts: seq<Template>, generation: Name): (r: Option<seq<Projection>>) {
    match ProjectAll(doc, ts, RefsAt(doc.database, doc.collection, ts, generation))
    case None => None
    case Some(ps) => if Storable(ps) then Some(ps) else None
  }

  /** A document and the templates it was projected under. */
  datatype Entry = Entry(doc: StoredDoc, templates: seq<Template>)

  type Effect = (StoredDoc, seq<Template>) -> Option<seq<Projection>>

  /** The replacements a log of projected documents amounts to. */
  function LogEffect(log: seq<Entry>, effect: Effect): (r: Option<seq<Projection>>) {
    if log == [] then Some([])
    else
      var n := |log| - 1;
      var before, last := LogEffect(log[..n], effect), effect(log[n].doc, log[n].templates);
      if before.None? || last.None? then None else Some(before.value + last.value)
  }

  /** The postings are exactly those of the logged documents. */
  predicate Faithful(postings: map<Slot, seq<seq<Byte>>>, log: seq<Entry>, effect: Effect) {
    LogEffect(log, effect).Some? && postings == PutAll(map[], LogEffect(log, effect).value)
  }

  predicate HasEffect(effect: Effect, doc: StoredDoc, ts: seq<Template>, ps: seq<Projection>) {
    effect(doc, ts) == Some(ps)
  }

  /** The effect is that of the projection at a generation. */
  ghost predicate Represents(effect: Effect, generation: Name) {
    forall doc, ts {:trigger DocumentEffect(doc, ts, generation)} ::
      effect(doc, ts) == DocumentEffect(doc, ts, generation)
  }

  function TemplatesOf(templates: Templates, database: Name, collection: Name): (ts: seq<Template>) {
    MatchingTemplates(collection, TemplatesFor(templates, database))
  }

  /** The documents from `from` up to `end`. */
  function Entries(docs: seq<StoredDoc>, from: nat, end: nat, ts: seq<Template>): (log: seq<Entry>)
    requires end <= |docs|
    decreases end
  {
    if end <= from then [] else Entries(docs, from, end - 1, ts) + [Entry(docs[end - 1], ts)]
  }

  /** Collections without a matching template are skipped. */
  function CollectionEntries(d: Database, database: Name, collection: Name, templates: Templates): (log: seq<Entry>) {
    var ts := TemplatesOf(templates, database, collection);
    if ts == [] then [] else Entries(DocsOf(d, collection), 0, |DocsOf(d, collection)|, ts)
  }

  /** What each collection contributes. */
  type Part = Name -> seq<Entry>

  /** The contributions of the names from `from` up to `end`. */
  function Parts(part: Part, names: seq<Name>, from: nat, end: nat): (log: seq<Entry>)
    requires end <= |names|
    decreases end
  {
    if end <= from then [] else Parts(part, names, from, end - 1) + part(names[end - 1])
  }

  function PartOf(d: Database, database: Name, templates: Templates): (part: Part) {
    c => CollectionEntries(d, database, c, templates)
  }

  function DatabaseEntries(d: Database, database: Name, templates: Templates): (log: seq<Entry>) {
    Parts(PartOf(d, database, templates), d.collections, 0, |d.collections|)
  }

  /** A database the source does not know has no collections. */
  function Content(source: map<Name, Database>, database: Name): (d: Database) {
    if database in source then source[database] else Database([], map[])
  }

  /** Everything a complete bootstrap must project, in scan order. */
  function AllEntries(source: map<Name, Database>, databases: seq<Name>, templates: Templates): (log: seq<Entry>) {
    if databases == [] then []
    else
      var n := |databases| - 1;
      var d := Content(source, databases[n]);
      AllEntries(source, databases[..n], templates) + DatabaseEntries(d, databases[n], templates)
  }

  // ---------- inventory ----------

  function Compact(names: seq<Name>): (r: seq<Name>) {
    if |names| < 2 then names
    else if names[0] == names[1] then Compact(names[1..])
    else [names[0]] + Compact(names[1..])
  }

  function Inventory(databases: seq<Name>): (r: seq<Name>) {
    Compact(SortKeys(databases))
  }

  function Fingerprints(templates: Templates, database: Name): (r: set<Name>) {
    set t | t in TemplatesFor(templates, database) :: t.fingerprint
  }

  /** One catalog per database, all of one generation and boundary. */
  function Catalogs(databases: seq<Name>, templates: Templates, generation: Name,
                    boundary: Name): (r: map<Name, Catalog>)
  {
    map d | d in databases :: Catalog(generation, Fingerprints(templates, d), boundary)
  }

  // ---------- the scan, page by page ----------

  /** What the source does with one page request: it may fail, it decides how many
      documents it returns at most, its continuation may or may not name the last of
      them, and it may say that nothing is left when that is so. */
  datatype Answer = Answer(fails: bool, size: nat, continues: bool, last: bool)

  predicate HonestAnswer(a: Answer, batch: nat) {
    !a.fails && 1 <= a.size <= batch && a.continues && a.last
  }

  ghost predicate Honest(answers: nat -> Answer, batch: nat) {
    forall turn: nat :: HonestAnswer(answers(turn), batch)
  }

  /** What the enumerator does with one request for collection names. */
  datatype Listing = Listing(fails: bool, size: nat)

  ghost predicate HonestListings(listing: nat -> Listing, batch: nat) {
    forall turn: nat :: !listing(turn).fails && listing(turn).size <= batch
  }

  /** How many of `total` names an enumeration visits: it goes on only after a full page. */
  function Reach(total: nat, batch: nat, listing: nat -> Listing, pos: nat, turn: nat): (end: nat)
    requires pos <= total && batch > 0
    ensures pos <= end <= total
    decreases total - pos
  {
    var end := PageEnd(total, pos, listing(turn).size);
    if end - pos == batch then Reach(total, batch, listing, end, turn + 1) else end
  }

  /** The database as far as the enumeration goes. */
  function Presented(d: Database, batch: nat, listing: nat -> Listing): (d': Database)
    requires batch > 0
  {
    d.(collections := d.collections[..Reach(|d.collections|, batch, listing, 0, 0)])
  }

  ghost predicate HonestScans(answers: (Name, nat) -> Answer, batch: nat) {
    forall c: Name, turn: nat :: HonestAnswer(answers(c, turn), batch)
  }

  function PageEnd(total: nat, pos: nat, size: nat): (end: nat)
    requires pos <= total
    ensures pos <= end <= total
  {
    if pos + size <= total then pos + size else total
  }

  predicate Scanned(base: seq<Entry>, log: seq<Entry>, docs: seq<StoredDoc>, from: nat, pos: nat, ts: seq<Template>) {
    pos <= |docs| && log == base + Entries(docs, from, pos, ts)
  }

  lemma PageStart(base: seq<Entry>, docs: seq<StoredDoc>, from: nat, ts: seq<Template>)
    requires from <= |docs|
    ensures Scanned(base, base, docs, from, from, ts)
  {
    assert base + [] == base;
  }

  lemma ScannedNext(base: seq<Entry>, before: seq<Entry>, docs: seq<StoredDoc>, from: nat, pos: nat, ts: seq<Template>)
    requires from <= pos < |docs| && Scanned(base, before, docs, from, pos, ts)
    ensures Scanned(base, before + [Entry(docs[pos], ts)], docs, from, pos + 1, ts)
  {
    Append(base, docs, from, pos, ts);
  }

  /** The first `n` names ascend, each compared with its predecessor only. */
  predicate Chain(names: seq<Name>, n: nat) {
    n <= |names| && (n < 2 || (Chain(names, n - 1) && Compare(names[n - 2], names[n - 1]) < 0))
  }

  lemma {:induction false} ChainAscends(names: seq<Name>, n: nat, i: nat, j: nat)
    requires Chain(names, n) && i < j < n
    ensures Compare(names[i], names[j]) < 0
    decreases n
  {
    if j < n - 1 {
      ChainAscends(names, n - 1, i, j);
    } else if i < j - 1 {
      ChainAscends(names, n - 1, i, j - 1);
      CompareTransitive(names[i], names[j - 1], names[j]);
    }
  }

  function Ids(docs: seq<StoredDoc>): (ids: seq<Name>)
    ensures |ids| == |docs| && forall k :: 0 <= k < |docs| ==> ids[k] == IdOf(docs[k])
  {
    seq(|docs|, k requires 0 <= k < |docs| => IdOf(docs[k]))
  }

  lemma FitsAfter(docs: seq<StoredDoc>, k: nat, database: Name, collection: Name, ts: seq<Template>, gate: Gate)
    requires 0 < k < |docs| && Fits(docs, k, database, collection, ts, gate)
    ensures Compare(IdOf(docs[k - 1]), IdOf(docs[k])) < 0
  {
    CompareAntisymmetric(IdOf(docs[k - 1]), IdOf(docs[k]));
  }

  /** Scanned identifiers only grow. */
  lemma {:induction false} Ascends(docs: seq<StoredDoc>, n: nat, database: Name, collection: Name,
                                   ts: seq<Template>, gate: Gate)
    requires n <= |docs| && AllFit(docs, 0, n, database, collection, ts, gate)
    ensures Chain(Ids(docs), n)
    decreases n
  {
    if n > 1 {
      Ascends(docs, n - 1, database, collection, ts, gate);
      FitsAfter(docs, n - 1, database, collection, ts, gate);
    }
  }

  /** With an honest source and fitting documents, a page that does not end the scan advances it. */
  lemma PageAdvances(docs: seq<StoredDoc>, pos: nat, answer: Answer, batch: nat)
    requires pos <= |docs| && HonestAnswer(answer, batch) && Ordered(Ids(docs))
    ensures var end := PageEnd(|docs|, pos, answer.size);
            end == |docs| || Before(docs, end) != Before(docs, pos)
  {
    var end := PageEnd(|docs|, pos, answer.size);
    if end < |docs| {
      ChainMoves(Ids(docs), pos, end);
      BeforeIds(docs, pos);
      BeforeIds(docs, end);
    }
  }

  predicate Ordered(names: seq<Name>) {
    Chain(names, |names|) && forall k :: 0 <= k < |names| ==> names[k] != []
  }

  lemma FitsOrdered(docs: seq<StoredDoc>, database: Name, collection: Name, ts: seq<Template>, gate: Gate)
    requires AllFit(docs, 0, |docs|, database, collection, ts, gate)
    ensures Ordered(Ids(docs))
  {
    Ascends(docs, |docs|, database, collection, ts, gate);
    forall k | 0 <= k < |docs| ensures Ids(docs)[k] != [] {
      FitsNamed(docs, k, database, collection, ts, gate);
    }
  }

  lemma FitsNamed(docs: seq<StoredDoc>, k: nat, database: Name, collection: Name, ts: seq<Template>, gate: Gate)
    requires k < |docs| && Fits(docs, k, database, collection, ts, gate)
    ensures IdOf(docs[k]) != []
  {
  }

  lemma BeforeIds(docs: seq<StoredDoc>, pos: nat)
    requires pos <= |docs|
    ensures Before(docs, pos) == NameBefore(Ids(docs), pos)
  {
  }

  lemma ChainMoves(names: seq<Name>, pos: nat, end: nat)
    requires pos < end <= |names| && Chain(names, |names|) && names[end - 1] != []
    ensures NameBefore(names, end) != NameBefore(names, pos)
  {
    if pos > 0 {
      ChainAscends(names, |names|, pos - 1, end - 1);
      CompareEqual(names[pos - 1], names[end - 1]);
    }
  }

  lemma Append(base: seq<Entry>, docs: seq<StoredDoc>, from: nat, pos: nat, ts: seq<Template>)
    requires from <= pos < |docs|
    ensures (base + Entries(docs, from, pos, ts)) + [Entry(docs[pos], ts)] == base + Entries(docs, from, pos + 1, ts)
  {
  }

  lemma {:induction false} Join(base: seq<Entry>, docs: seq<StoredDoc>, pos: nat, end: nat, ts: seq<Template>)
    requires pos <= end <= |docs|
    ensures (base + Entries(docs, 0, pos, ts)) + Entries(docs, pos, end, ts) == base + Entries(docs, 0, end, ts)
    decreases end
  {
    var head := base + Entries(docs, 0, pos, ts);
    if pos < end {
      Join(base, docs, pos, end - 1, ts);
      var tail, last := Entries(docs, pos, end - 1, ts), [Entry(docs[end - 1], ts)];
      assert head + (tail + last) == (head + tail) + last;
      Append(base, docs, 0, end - 1, ts);
    } else {
      assert head + [] == head;
    }
  }

  /** What one database scan must add and when it passes, by name and by position. */
  datatype Plan = Plan(part: Part, fits: nat -> bool)

  function PartAt(plan: Plan, name: Name): (log: seq<Entry>) {
    plan.part(name)
  }

  predicate FitAt(plan: Plan, k: nat) {
    plan.fits(k)
  }

  ghost predicate PlanFits(plan: Plan, from: nat, end: nat) {
    forall k :: from <= k < end ==> FitAt(plan, k)
  }

  ghost predicate Describes(plan: Plan, d: Database, database: Name, templates: Templates, gate: Gate) {
    && (forall c {:trigger CollectionEntries(d, database, c, templates)} ::
          PartAt(plan, c) == CollectionEntries(d, database, c, templates))
    && (forall k: nat {:trigger NameFits(d, k, database, templates, gate)} ::
          k < |d.collections| ==> (FitAt(plan, k) <==> NameFits(d, k, database, templates, gate)))
  }

  ghost function PlanOf(d: Database, database: Name, templates: Templates, gate: Gate): (plan: Plan)
    ensures Describes(plan, d, database, templates, gate) && plan.part == PartOf(d, database, templates)
  {
    Plan(PartOf(d, database, templates), (k: nat) => k < |d.collections| && NameFits(d, k, database, templates, gate))
  }

  ghost predicate NamesScanned(base: seq<Entry>, log: seq<Entry>, plan: Plan, names: seq<Name>, from: nat, pos: nat) {
    pos <= |names| && log == base + Parts(plan.part, names, from, pos) && PlanFits(plan, from, pos)
  }

  lemma NamesStart(base: seq<Entry>, plan: Plan, names: seq<Name>, from: nat)
    requires from <= |names|
    ensures NamesScanned(base, base, plan, names, from, from)
  {
    assert base + [] == base;
  }

  lemma NameScanned(base: seq<Entry>, before: seq<Entry>, log: seq<Entry>, plan: Plan, names: seq<Name>, from: nat,
                    pos: nat)
    requires from <= pos < |names| && NamesScanned(base, before, plan, names, from, pos)
    requires log == before + PartAt(plan, names[pos]) && FitAt(plan, pos)
    ensures NamesScanned(base, log, plan, names, from, pos + 1)
  {
    var head := Parts(plan.part, names, from, pos);
    assert base + (head + PartAt(plan, names[pos])) == (base + head) + PartAt(plan, names[pos]);
  }

  lemma {:induction false} PagesJoin(base: seq<Entry>, middle: seq<Entry>, log: seq<Entry>, plan: Plan,
                                     names: seq<Name>, pos: nat, end: nat)
    requires pos <= end <= |names| && NamesScanned(base, middle, plan, names, 0, pos)
    requires NamesScanned(middle, log, plan, names, pos, end)
    ensures NamesScanned(base, log, plan, names, 0, end)
    decreases end
  {
    if pos < end {
      var last := end - 1;
      var before := middle + Parts(plan.part, names, pos, last);
      PagesJoin(base, middle, before, plan, names, pos, last);
      assert log == before + PartAt(plan, names[last]);
      NameScanned(base, before, log, plan, names, 0, last);
    } else {
      assert middle + [] == middle;
    }
  }

  datatype Request = Request(databases: seq<Name>, writesQuiesced: bool, expectedBoundary: Name)

  /** The surroundings of one bootstrap: the source, its answers page by page, the
      databases the configuration requires, the capture boundary, whether the service
      is stopped with its templates loaded, and what fails. */
  datatype World = World(
    source: map<Name, Database>, required: set<Name>, boundary: Name, startable: bool, boundaryFails: bool,
    enumeration: (Name, nat) -> Listing, answers: (Name, Name, nat) -> Answer,
    flushFails: bool, boundaryLost: bool, inventoryChanged: bool, canceled: bool, publishFails: bool)

  function ListingOf(env: World, database: Name): (listing: nat -> Listing) {
    (turn: nat) => env.enumeration(database, turn)
  }

  /** The source as far as its enumerations go. */
  function Seen(env: World, batch: nat): (source: map<Name, Database>)
    requires batch > 0
  {
    map d | d in env.source :: Presented(env.source[d], batch, ListingOf(env, d))
  }

  lemma SeenContent(env: World, batch: nat, database: Name)
    requires batch > 0
    ensures Content(Seen(env, batch), database) ==
              Presented(Content(env.source, database), batch, ListingOf(env, database))
  {
  }

  lemma {:induction false} PartsSame(part: Part, part': Part, names: seq<Name>, names': seq<Name>, end: nat)
    requires end <= |names| && end <= |names'|
    requires forall k :: 0 <= k < end ==> names[k] == names'[k] && part(names[k]) == part'(names[k])
    ensures Parts(part, names, 0, end) == Parts(part', names', 0, end)
    decreases end
  {
    if end > 0 {
      PartsSame(part, part', names, names', end - 1);
    }
  }

  lemma PresentedEntries(d: Database, n: nat, database: Name, templates: Templates)
    requires n <= |d.collections|
    ensures DatabaseEntries(d.(collections := d.collections[..n]), database, templates) ==
              Parts(PartOf(d, database, templates), d.collections, 0, n)
  {
    var d' := d.(collections := d.collections[..n]);
    var part, part' := PartOf(d, database, templates), PartOf(d', database, templates);
    forall k | 0 <= k < n ensures part(d.collections[k]) == part'(d.collections[k]) {
      assert DocsOf(d', d.collections[k]) == DocsOf(d, d.collections[k]);
    }
    PartsSame(part', part, d'.collections, d.collections, n);
  }

  lemma NameFitsPresented(d: Database, n: nat, k: nat, database: Name, templates: Templates, gate: Gate)
    requires k < n <= |d.collections|
    ensures NameFits(d.(collections := d.collections[..n]), k, database, templates, gate) <==>
              NameFits(d, k, database, templates, gate)
  {
    assert DocsOf(d.(collections := d.collections[..n]), d.collections[k]) == DocsOf(d, d.collections[k]);
  }

  lemma PresentedFits(d: Database, n: nat, database: Name, templates: Templates, gate: Gate, plan: Plan)
    requires n <= |d.collections| && Describes(plan, d, database, templates, gate)
    ensures NamesFit(d.(collections := d.collections[..n]), 0, n, database, templates, gate) <==> PlanFits(plan, 0, n)
  {
    forall k | 0 <= k < n
      ensures NameFits(d.(collections := d.collections[..n]), k, database, templates, gate) <==> FitAt(plan, k)
    {
      NameFitsPresented(d, n, k, database, templates, gate);
      assert NameFits(d, k, database, templates, gate) <==> FitAt(plan, k);
    }
  }

  /** Nothing fails and the source answers every request as asked. */
  ghost predicate Benign(env: World, batch: nat) {
    && !env.boundaryFails && !env.flushFails && !env.boundaryLost && !env.inventoryChanged && !env.canceled
    && !env.publishFails
    && BenignSource(env, batch)
  }

  ghost predicate BenignSource(env: World, batch: nat) {
    && (forall d: Name, turn: nat :: !env.enumeration(d, turn).fails && env.enumeration(d, turn).size <= batch)
    && (forall d: Name, c: Name, turn: nat :: HonestAnswer(env.answers(d, c, turn), batch))
  }

  /** What is asked of a request before anything is scanned, and of an inventory before it is published. */
  predicate Admissible(request: Request, env: World, templates: Templates) {
    var databases := Inventory(request.databases);
    && request.writesQuiesced && env.startable
    && databases != [] && databases[0] != [] && Covers(databases, env.required)
    && (request.expectedBoundary == [] || env.boundary == request.expectedBoundary)
    && AnyTemplate(databases, templates)
  }

  /** An inventory without index templates cannot be published. */
  predicate AnyTemplate(databases: seq<Name>, templates: Templates) {
    exists d :: d in databases && TemplatesFor(templates, d) != []
  }

  predicate Covers(databases: seq<Name>, required: set<Name>) {
    forall d :: d in required ==> d in databases
  }

  ghost predicate ScannedTo(source: map<Name, Database>, databases: seq<Name>, i: nat, templates: Templates,
                            gate: Gate, log: seq<Entry>)
  {
    && i <= |databases| && SourceFits(source, databases[..i], templates, gate)
    && log == AllEntries(source, databases[..i], templates)
  }

  lemma ScannedDatabase(
      source: map<Name, Database>, databases: seq<Name>, i: nat, templates: Templates, gate: Gate,
      before: seq<Entry>, log: seq<Entry>)
    requires i < |databases| && ScannedTo(source, databases, i, templates, gate, before)
    requires DatabaseFits(source, databases[i], templates, gate)
    requires var d := Content(source, databases[i]); log == before + DatabaseEntries(d, databases[i], templates)
    ensures ScannedTo(source, databases, i + 1, templates, gate, log)
  {
    var next := databases[..i + 1];
    assert next[..i] == databases[..i];
    forall k | 0 <= k < |next| ensures DatabaseFits(source, next[k], templates, gate) {
      assert k < i ==> next[k] == databases[..i][k];
    }
  }

  lemma GateMeaning(effect: Effect, refuses: StoredDoc -> bool, generation: Name, doc: StoredDoc, ts: seq<Template>,
                    ps: Option<seq<Projection>>)
    requires Represents(effect, generation)
    requires ps == ProjectAll(doc, ts, RefsAt(doc.database, doc.collection, ts, generation))
    ensures Passes(Gate(effect, refuses), doc, ts) <==> ps.Some? && Storable(ps.value) && !Refused(refuses, doc)
    ensures ps.Some? && Storable(ps.value) ==> HasEffect(effect, doc, ts, ps.value)
  {
    assert effect(doc, ts) == DocumentEffect(doc, ts, generation);
  }

  class Builder {
    const templates: Templates
    const batch: nat
    const generation: Name
    const refuses: StoredDoc -> bool
    ghost const effect: Effect
    ghost const gate: Gate
    var postings: map<Slot, seq<seq<Byte>>>
    var occupied: bool // the store lists some index partition
    var catalogs: map<Name, Catalog>
    var progress: Name
    ghost var log: seq<Entry>

    ghost predicate Valid()
      reads this
    {
      && batch > 0 && Represents(effect, generation) && gate == Gate(effect, refuses)
      && Faithful(postings, log, effect) && (!occupied ==> log == [])
    }

    /** `refuses` says which documents the store fails to take. */
    constructor (templates: Templates, batch: nat, generation: Name, refuses: StoredDoc -> bool)
      requires batch > 0
      ensures this.templates == templates && this.batch == batch && this.generation == generation &&
              this.refuses == refuses
      ensures Valid() && log == [] && postings == map[] && !occupied && catalogs == map[] && progress == []
    {
      this.templates := templates;
      this.batch := batch;
      this.generation := generation;
      this.refuses := refuses;
      effect := (doc, ts) => DocumentEffect(doc, ts, generation);
      gate := Gate((doc, ts) => DocumentEffect(doc, ts, generation), refuses);
      postings, occupied, catalogs, progress, log := map[], false, map[], [], [];
    }

    /** Projects one document under every matching template. */
    method Project(doc: StoredDoc, ts: seq<Template>) returns (ps: Option<seq<Projection>>)
      requires Represents(effect, generation)
      ensures ps.Some? <==> Passes(Gate(effect, refuses), doc, ts)
      ensures ps.Some? ==> HasEffect(effect, doc, ts, ps.value)
    {
      ps := BuildAll(doc, ts, RefsAt(doc.database, doc.collection, ts, generation));
      GateMeaning(effect, refuses, generation, doc, ts, ps);
      if ps.Some? && (!Storable(ps.value) || Refused(refuses, doc)) {
        ps := None;
      }
    }

    /** Stores the projections of one document in one step. */
    method ProjectDocument(doc: StoredDoc, ts: seq<Template>) returns (ok: bool)
      requires Valid() && ts != []
      modifies this`postings, this`occupied, this`log
      ensures Valid()
      ensures ok <==> Passes(gate, doc, ts)
      ensures log == if ok then old(log) + [Entry(doc, ts)] else old(log)
    {
      var ps := Project(doc, ts);
      if ps.None? {
        return false;
      }
      LogExtends(postings, log, doc, ts, effect, ps.value);
      postings := PutAll(postings, ps.value);
      occupied := true;
      log := log + [Entry(doc, ts)];
      return true;
    }

    /** Takes the next document of a page. */
    method ScanDocument(docs: seq<StoredDoc>, database: Name, collection: Name, pos: nat, after: Name,
                        ts: seq<Template>) returns (ok: bool)
      requires Valid() && ts != [] && pos < |docs| && after == Before(docs, pos)
      modifies this`postings, this`occupied, this`log
      ensures Valid()
      ensures ok <==> Fits(docs, pos, database, collection, ts, gate)
      ensures ok ==> log == old(log) + [Entry(docs[pos], ts)]
    {
      var doc := docs[pos];
      var id := LogicalDocumentId(doc);
      if id.None? || doc.database != database || doc.collection != collection || Compare(id.value, after) <= 0 {
        return false;
      }
      ok := ProjectDocument(doc, ts);
    }

    /** Projects the documents of one page in order, refusing the page at the first
        that is out of scope, out of order or cannot be projected. */
    method ScanPage(docs: seq<StoredDoc>, database: Name, collection: Name, from: nat, end: nat, ts: seq<Template>)
      returns (ok: bool, after: Name)
      requires Valid() && ts != [] && from <= end <= |docs|
      modifies this`postings, this`occupied, this`log
      ensures Valid()
      ensures ok <==> AllFit(docs, from, end, database, collection, ts, gate)
      ensures ok ==> after == Before(docs, end) && Scanned(old(log), log, docs, from, end, ts)
    {
      after := Before(docs, from);
      var pos := from;
      PageStart(log, docs, from, ts);
      while pos < end
        invariant Valid() && from <= pos <= end && after == Before(docs, pos)
        invariant AllFit(docs, from, pos, database, collection, ts, gate)
        invariant Scanned(old(log), log, docs, from, pos, ts)
      {
        ghost var before := log;
        var stored := ScanDocument(docs, database, collection, pos, after, ts);
        if !stored {
          return false, after;
        }
        ScannedNext(old(log), before, docs, from, pos, ts);
        after := IdOf(docs[pos]);
        pos := pos + 1;
      }
      return true, after;
    }

    /** Scans one collection to exhaustion. Success means that every presented document
        was in scope, in order and projected; an honest source with such documents
        is never refused. */
    method BootstrapCollection(docs: seq<StoredDoc>, database: Name, collection: Name, ts: seq<Template>,
                               answers: nat -> Answer) returns (ok: bool)
      requires Valid() && ts != []
      modifies this`postings, this`occupied, this`log
      ensures Valid()
      ensures ok ==>
                log == old(log) + Entries(docs, 0, |docs|, ts) &&
                AllFit(docs, 0, |docs|, database, collection, ts, gate)
      ensures Honest(answers, batch) && AllFit(docs, 0, |docs|, database, collection, ts, gate) ==> ok
    {
      var pos, turn := 0, 0;
      while true
        invariant Valid() && 0 <= pos <= |docs| && turn >= 0
        invariant AllFit(docs, 0, pos, database, collection, ts, gate)
        invariant log == old(log) + Entries(docs, 0, pos, ts)
        decreases |docs| - pos
      {
        var answer, previous := answers(turn), Before(docs, pos);
        turn := turn + 1;
        var end := PageEnd(|docs|, pos, answer.size);
        if answer.fails || end - pos > batch {
          assert !HonestAnswer(answer, batch);
          return false;
        }
        var scanned, after := ScanPage(docs, database, collection, pos, end, ts);
        if !scanned {
          return false;
        }
        Join(old(log), docs, pos, end, ts);
        if end > pos && !answer.continues {
          return false;
        }
        if answer.last && end == |docs| {
          return true;
        }
        if after == previous {
          if HonestAnswer(answer, batch) && AllFit(docs, 0, |docs|, database, collection, ts, gate) {
            FitsOrdered(docs, database, collection, ts, gate);
            PageAdvances(docs, pos, answer, batch);
          }
          return false;
        }
        pos := end;
      }
    }

    /** Scans a collection if any template matches it. */
    method ScanName(d: Database, database: Name, collection: Name, answers: (Name, nat) -> Answer) returns (ok: bool)
      requires Valid()
      modifies this`postings, this`occupied, this`log
      ensures Valid()
      ensures ok ==> log == old(log) + CollectionEntries(d, database, collection, templates)
      ensures ok ==> CollectionFits(d, database, collection, templates, gate)
      ensures HonestScans(answers, batch) && CollectionFits(d, database, collection, templates, gate) ==> ok
    {
      var ts := TemplatesOf(templates, database, collection);
      if ts == [] {
        assert log + [] == log;
        return true;
      }
      ok := BootstrapCollection(DocsOf(d, collection), database, collection, ts,
                                (turn: nat) => answers(collection, turn));
    }

    /** Takes the next enumerated name. */
    method ScanNext(d: Database, database: Name, pos: nat, after: Name, answers: (Name, nat) -> Answer,
                    ghost plan: Plan) returns (ok: bool)
      requires Valid() && pos < |d.collections| && after == NameBefore(d.collections, pos) &&
               Describes(plan, d, database, templates, gate)
      modifies this`postings, this`occupied, this`log
      ensures Valid()
      ensures ok ==> log == old(log) + PartAt(plan, d.collections[pos]) && FitAt(plan, pos)
      ensures HonestScans(answers, batch) && FitAt(plan, pos) ==> ok
    {
      assert FitAt(plan, pos) <==> NameFits(d, pos, database, templates, gate);
      if Compare(d.collections[pos], after) <= 0 {
        return false;
      }
      ok := ScanName(d, database, d.collections[pos], answers);
    }

    /** Scans the collections of one enumeration page. */
    method ScanNames(d: Database, database: Name, from: nat, end: nat, answers: (Name, nat) -> Answer,
                     ghost plan: Plan) returns (ok: bool)
      requires Valid() && from <= end <= |d.collections| && Describes(plan, d, database, templates, gate)
      modifies this`postings, this`occupied, this`log
      ensures Valid()
      ensures ok ==> NamesScanned(old(log), log, plan, d.collections, from, end)
      ensures HonestScans(answers, batch) && PlanFits(plan, from, end) ==> ok
    {
      var pos, after := from, NameBefore(d.collections, from);
      NamesStart(log, plan, d.collections, from);
      while pos < end
        invariant Valid() && from <= pos <= end && after == NameBefore(d.collections, pos)
        invariant NamesScanned(old(log), log, plan, d.collections, from, pos)
      {
        ghost var before := log;
        var scanned := ScanNext(d, database, pos, after, answers, plan);
        if !scanned {
          return false;
        }
        NameScanned(old(log), before, log, plan, d.collections, from, pos);
        after := d.collections[pos];
        pos := pos + 1;
      }
      return true;
    }

    /** Pages through the collections of one database; a page that is not full is the last. */
    method BootstrapDatabase(d: Database, database: Name, listing: nat -> Listing, answers: (Name, nat) -> Answer,
                             ghost plan: Plan)
      returns (ok: bool)
      requires Valid() && Describes(plan, d, database, templates, gate)
      modifies this`postings, this`occupied, this`log
      ensures Valid()
      ensures ok ==> NamesScanned(old(log), log, plan, d.collections, 0, Reach(|d.collections|, batch, listing, 0, 0))
      ensures HonestScans(answers, batch) && HonestListings(listing, batch) ==>
                (PlanFits(plan, 0, Reach(|d.collections|, batch, listing, 0, 0)) ==> ok)
    {
      var pos, turn := 0, 0;
      NamesStart(log, plan, d.collections, 0);
      while true
        invariant Valid() && 0 <= pos <= |d.collections| && turn >= 0
        invariant NamesScanned(old(log), log, plan, d.collections, 0, pos)
        invariant Reach(|d.collections|, batch, listing, pos, turn) == Reach(|d.collections|, batch, listing, 0, 0)
        decreases |d.collections| - pos
      {
        var page := listing(turn);
        var end := PageEnd(|d.collections|, pos, page.size);
        if page.fails || end - pos > batch {
          return false;
        }
        turn := turn + 1;
        ghost var before := log;
        var scanned := ScanNames(d, database, pos, end, answers, plan);
        if !scanned {
          return false;
        }
        PagesJoin(old(log), before, log, plan, d.collections, pos, end);
        if end - pos < batch {
          return true;
        }
        pos := end;
      }
    }

    method ScanDatabase(database: Name, env: World) returns (ok: bool)
      requires Valid()
      modifies this`postings, this`occupied, this`log
      ensures Valid()
      ensures ok ==> log == old(log) + DatabaseEntries(Content(Seen(env, batch), database), database, templates)
      ensures ok ==> DatabaseFits(Seen(env, batch), database, templates, gate)
      ensures BenignSource(env, batch) && DatabaseFits(Seen(env, batch), database, templates, gate) ==> ok
    {
      var d := Content(env.source, database);
      ghost var plan, n := PlanOf(d, database, templates, gate),
                           Reach(|d.collections|, batch, ListingOf(env, database), 0, 0);
      ok := BootstrapDatabase(d, database, ListingOf(env, database),
                              (c: Name, turn: nat) => env.answers(database, c, turn), plan);
      SeenContent(env, batch, database);
      PresentedEntries(d, n, database, templates);
      PresentedFits(d, n, database, templates, gate, plan);
    }

    /** Scans the inventoried databases one after the other. */
    method ScanAll(databases: seq<Name>, env: World) returns (ok: bool)
      requires Valid() && log == []
      modifies this`postings, this`occupied, this`log
      ensures Valid()
      ensures ok ==>
                log == AllEntries(Seen(env, batch), databases, templates) &&
                SourceFits(Seen(env, batch), databases, templates, gate)
      ensures BenignSource(env, batch) && SourceFits(Seen(env, batch), databases, templates, gate) ==> ok
    {
      ghost var source := Seen(env, batch);
      var i := 0;
      while i < |databases|
        invariant 0 <= i <= |databases| && Valid()
        invariant ScannedTo(source, databases, i, templates, gate, log)
      {
        ghost var before := log;
        var scanned := ScanDatabase(databases[i], env);
        if !scanned {
          return false;
        }
        ScannedDatabase(source, databases, i, templates, gate, before, log);
        i := i + 1;
      }
      assert databases[..i] == databases;
      return true;
    }

    /** The whole rebuild: every source scan ends before any catalog is published, and
        a store left over from an incomplete attempt is refused. */
    method Run(request: Request, env: World) returns (ok: bool)
      requires Valid()
      modifies this
      ensures Valid()
      ensures var databases := Inventory(request.databases);
              ok ==>
                && Admissible(request, env, templates) && old(catalogs) == map[] && !old(occupied)
                && SourceFits(Seen(env, batch), databases, templates, gate)
                && log == AllEntries(Seen(env, batch), databases, templates)
                && catalogs == Catalogs(databases, templates, generation, env.boundary)
                && progress == env.boundary
      ensures !ok ==> catalogs == old(catalogs) && progress == old(progress)
      ensures (&& Benign(env, batch) && Admissible(request, env, templates) && old(catalogs) == map[] && !old(occupied)
               && SourceFits(Seen(env, batch), Inventory(request.databases), templates, gate)) ==> ok
    {
      if !request.writesQuiesced || !env.startable {
        return false;
      }
      var databases := Inventory(request.databases);
      if databases == [] || databases[0] == [] || !Covers(databases, env.required) {
        return false;
      }
      if catalogs != map[] || occupied || env.boundaryFails {
        return false;
      }
      if request.expectedBoundary != [] && env.boundary != request.expectedBoundary {
        return false;
      }
      var scanned := ScanAll(databases, env);
      if !scanned {
        return false;
      }
      if env.flushFails || env.boundaryLost || env.inventoryChanged || env.canceled || env.publishFails {
        return false;
      }
      if !AnyTemplate(databases, templates) {
        return false;
      }
      catalogs := Catalogs(databases, templates, generation, env.boundary);
      progress := env.boundary;
      return true;
    }
  }

  lemma LogExtends(postings: map<Slot, seq<seq<Byte>>>, log: seq<Entry>, doc: StoredDoc, ts: seq<Template>,
                   effect: Effect, ps: seq<Projection>)
    requires Faithful(postings, log, effect) && HasEffect(effect, doc, ts, ps)
    ensures Faithful(PutAll(postings, ps), log + [Entry(doc, ts)], effect)
  {
    assert (log + [Entry(doc, ts)])[..|log|] == log;
    PutAllConcat(map[], LogEffect(log, effect).value, ps);
  }
}
