/** Live application of change events to the index. */
module IndexService {
  import opened Options
  import opened Documents
  import opened Projections
  import opened IndexStore

  datatype Event = Event(database: Name, document: Option<StoredDoc>, isDelete: bool)

  /** Templates grouped by database, or one list for all databases. */
  datatype Templates = Templates(grouped: map<Name, seq<Template>>, flat: seq<Template>)

  function TemplatesFor(t: Templates, database: Name): (r: seq<Template>) {
    if t.grouped == map[] then t.flat else if database in t.grouped then t.grouped[database] else []
  }

  /** The store, and the service's own copy of the progress marker. */
  datatype Service = Service(store: Store, progress: Name, applied: nat)

  /** What the surroundings may do to one call: end its context before or after
      the work, fail a storage read or the commit, fail to record some failures. */
  datatype Faults = Faults(canceled: bool, readFails: bool, canceledLate: bool, commitFails: bool, lostMarks: set<nat>)

  const NO_FAULTS: Faults := Faults(false, false, false, false, {})

  // ---------- planning ----------

  /** What an event asks for: only the marker, nothing (it is refused), a failure
      mark on its partitions, or a replacement of the document's postings. */
  datatype Plan =
    | MarkerOnly
    | Refuse
    | Break(refs: seq<QueryIndexRef>)
    | Replace(refs: seq<QueryIndexRef>, projections: seq<Projection>)

  function RefFor(m: Meta, doc: StoredDoc, t: Template): (r: Option<QueryIndexRef>) {
    match ReadGeneration(m, GenerationKey(doc.database, doc.collection, t.fingerprint))
    case None => None
    case Some(g) =>
      if g.ready && !g.failed then Some(QueryIndexRef(doc.database, doc.collection, t.fingerprint, g.id)) else None
  }

  /** The serving partitions of every matching template, or none if one is missing. */
  function RefsFor(m: Meta, doc: StoredDoc, ts: seq<Template>): (r: Option<seq<QueryIndexRef>>)
    ensures r.Some? ==> |r.value| == |ts| && forall i :: 0 <= i < |ts| ==> RefFor(m, doc, ts[i]) == Some(r.value[i])
    ensures r.None? ==> exists i :: 0 <= i < |ts| && RefFor(m, doc, ts[i]).None?
  {
    if ts == [] then Some([])
    else
      var n := |ts| - 1;
      var before, last := RefsFor(m, doc, ts[..n]), RefFor(m, doc, ts[n]);
      if before.None? || last.None? then None else Some(before.value + [last.value])
  }

  /** Every projection, or none if one fails. */
  function ProjectAll(doc: StoredDoc, ts: seq<Template>, refs: seq<QueryIndexRef>): (r: Option<seq<Projection>>)
    requires |refs| == |ts|
    ensures r.Some? ==>
              |r.value| == |ts| &&
              forall i :: 0 <= i < |ts| ==>
                ProjectionOf(doc, ts[i], refs[i].generation, DEFAULT_LIMITS) == Ok(r.value[i])
    ensures r.None? ==> exists i :: 0 <= i < |ts| && ProjectionOf(doc, ts[i], refs[i].generation, DEFAULT_LIMITS).Err?
  {
    if ts == [] then Some([])
    else
      var n := |ts| - 1;
      var before, last := ProjectAll(doc, ts[..n], refs[..n]),
                          ProjectionOf(doc, ts[n], refs[n].generation, DEFAULT_LIMITS);
      if before.None? || last.Err? then None else Some(before.value + [last.value])
  }

  lemma RefsMissing(m: Meta, doc: StoredDoc, ts: seq<Template>, i: nat)
    requires i < |ts| && RefFor(m, doc, ts[i]).None?
    ensures RefsFor(m, doc, ts).None?
  {
  }

  lemma ProjectionMissing(doc: StoredDoc, ts: seq<Template>, refs: seq<QueryIndexRef>, i: nat)
    requires |refs| == |ts| && i < |ts| && ProjectionOf(doc, ts[i], refs[i].generation, DEFAULT_LIMITS).Err?
    ensures ProjectAll(doc, ts, refs).None?
  {
  }

  function PlanDocument(m: Meta, templates: Templates, doc: StoredDoc): (p: Plan) {
    var ts := MatchingTemplates(doc.collection, TemplatesFor(templates, doc.database));
    match RefsFor(m, doc, ts)
    case None => Refuse
    case Some(refs) =>
      match ProjectAll(doc, ts, refs)
      case None => Break(refs)
      case Some(ps) => Replace(refs, ps)
  }

  function PlanFor(m: Meta, templates: Templates, e: Event, readFails: bool): (p: Plan) {
    match e.document
    case None => if e.isDelete then MarkerOnly else Refuse
    case Some(doc) =>
      if e.database != doc.database || readFails then Refuse
      else if doc.database in m.retired then MarkerOnly
      else if LogicalDocumentId(doc).None? then Refuse
      else PlanDocument(m, templates, doc)
  }

  /** Every projection of a document, one template after the other. */
  method BuildAll(doc: StoredDoc, ts: seq<Template>, refs: seq<QueryIndexRef>) returns (r: Option<seq<Projection>>)
    requires |refs| == |ts|
    ensures r == ProjectAll(doc, ts, refs)
  {
    var ps: seq<Projection> := [];
    var i := 0;
    while i < |ts|
      invariant 0 <= i <= |ts|
      invariant ProjectAll(doc, ts[..i], refs[..i]) == Some(ps)
    {
      assert ts[..i + 1][..i] == ts[..i] && refs[..i + 1][..i] == refs[..i];
      var p := BuildDocumentProjection(doc, ts[i], refs[i].generation, DEFAULT_LIMITS);
      if p.Err? {
        ProjectionMissing(doc, ts, refs, i);
        return None;
      }
      ps := ps + [p.value];
      i := i + 1;
    }
    assert ts[..i] == ts && refs[..i] == refs;
    return Some(ps);
  }

  // ---------- applying ----------

  function Marked(m: Meta, refs: seq<QueryIndexRef>, lost: set<nat>): (r: Meta) {
    if refs == [] then m
    else
      var n := |refs| - 1;
      var before := Marked(m, refs[..n], lost);
      if n in lost then before else SetFailure(before, refs[n])
  }

  function FailEvent(s: Service, refs: seq<QueryIndexRef>, lost: set<nat>): (r: Service) {
    s.(store := s.store.(meta := Marked(s.store.meta, refs, lost)))
  }

  /** The commit of a storable replacement together with the marker. */
  function Committed(s: Service, ps: seq<Projection>, marker: Name): (r: Service) {
    s.(store := s.store.(postings := PutAll(s.store.postings, ps), progress := Advance(s.store.progress, marker)),
       progress := Advance(s.progress, marker), applied := s.applied + 1)
  }

  datatype Outcome = Outcome(service: Service, ok: bool)

  function ApplyOutcome(s: Service, templates: Templates, event: Option<Event>, marker: Name, f: Faults): (r: Outcome) {
    if f.canceled then Outcome(s, false)
    else if event.None? then Outcome(s, true)
    else Executed(s, PlanFor(s.store.meta, templates, event.value, f.readFails), marker, f)
  }

  function Executed(s: Service, plan: Plan, marker: Name, f: Faults): (r: Outcome) {
    match plan
    case Refuse => Outcome(s, false)
    case Break(refs) => Outcome(FailEvent(s, refs, f.lostMarks), false)
    case MarkerOnly => if f.commitFails then Outcome(s, false) else Outcome(Committed(s, [], marker), true)
    case Replace(refs, ps) =>
      if f.canceledLate then Outcome(s, false)
      else if f.commitFails || !Storable(ps) then Outcome(FailEvent(s, refs, f.lostMarks), false)
      else Outcome(Committed(s, ps, marker), true)
  }

  /** An invalidation that its context or the store refuses changes nothing. */
  function Invalidated(s: Service, database: Name, fails: bool): (r: Service) {
    if fails then s else s.(store := DeleteDatabase(s.store, database))
  }

  // ---------- the service object ----------

  class Indexer {
    const templates: Templates
    var store: Store
    var progress: Name
    var applied: nat

    ghost function View(): (s: Service)
      reads this
    {
      Service(store, progress, applied)
    }

    constructor (templates: Templates, store: Store)
      ensures this.templates == templates && View() == Service(store, store.progress, 0)
    {
      this.templates := templates;
      this.store := store;
      progress := store.progress;
      applied := 0;
    }

    /** Publishes replacements and the marker, then the service's own marker. */
    method CommitProjection(ps: seq<Projection>, marker: Name, fails: bool) returns (ok: bool)
      modifies this
      ensures ok <==> !fails && Storable(ps)
      ensures View() == if ok then Committed(old(View()), ps, marker) else old(View())
    {
      if fails {
        return false;
      }
      var next := ApplyDocumentProjection(store, ps, marker);
      if next.None? {
        return false;
      }
      store := next.value;
      if marker != [] {
        progress := marker;
      }
      applied := applied + 1;
      return true;
    }

    /** Records the failure on every partition of the event. */
    method RecordFailure(refs: seq<QueryIndexRef>, lost: set<nat>)
      modifies this
      ensures View() == FailEvent(old(View()), refs, lost)
    {
      var i := 0;
      while i < |refs|
        invariant 0 <= i <= |refs|
        invariant View() == FailEvent(old(View()), refs[..i], lost)
      {
        assert refs[..i + 1][..i] == refs[..i];
        if i !in lost {
          store := store.(meta := SetFailure(store.meta, refs[i]));
        }
        i := i + 1;
      }
      assert refs[..i] == refs;
    }

    method ResolveRefs(doc: StoredDoc, ts: seq<Template>) returns (r: Option<seq<QueryIndexRef>>)
      ensures r == RefsFor(store.meta, doc, ts)
    {
      var refs: seq<QueryIndexRef> := [];
      var i := 0;
      while i < |ts|
        invariant 0 <= i <= |ts|
        invariant RefsFor(store.meta, doc, ts[..i]) == Some(refs)
      {
        assert ts[..i + 1][..i] == ts[..i];
        var ref := RefFor(store.meta, doc, ts[i]);
        if ref.None? {
          RefsMissing(store.meta, doc, ts, i);
          return None;
        }
        refs := refs + [ref.value];
        i := i + 1;
      }
      assert ts[..i] == ts;
      return Some(refs);
    }

    method ApplyEvent(event: Option<Event>, marker: Name, f: Faults) returns (ok: bool)
      modifies this
      ensures Outcome(View(), ok) == ApplyOutcome(old(View()), templates, event, marker, f)
    {
      if f.canceled {
        return false;
      }
      if event.None? {
        return true;
      }
      var e := event.value;
      if e.document.None? {
        if !e.isDelete {
          return false;
        }
        ok := CommitProjection([], marker, f.commitFails);
        return;
      }
      var doc := e.document.value;
      if e.database != doc.database || f.readFails {
        return false;
      }
      if doc.database in store.meta.retired {
        ok := CommitProjection([], marker, f.commitFails);
        return;
      }
      if LogicalDocumentId(doc).None? {
        return false;
      }
      ok := ReplaceDocument(doc, marker, f);
    }

    method InvalidateDatabase(database: Name, fails: bool) returns (ok: bool)
      modifies this
      ensures ok <==> !fails
      ensures View() == Invalidated(old(View()), database, fails)
    {
      if fails {
        return false;
      }
      store := DeleteDatabase(store, database);
      return true;
    }

    method ReplaceDocument(doc: StoredDoc, marker: Name, f: Faults) returns (ok: bool)
      modifies this
      ensures Outcome(View(), ok) == Executed(old(View()), PlanDocument(old(store).meta, templates, doc), marker, f)
    {
      var ts := MatchingTemplates(doc.collection, TemplatesFor(templates, doc.database));
      var refs := ResolveRefs(doc, ts);
      if refs.None? {
        return false;
      }
      var ps := BuildAll(doc, ts, refs.value);
      if ps.None? {
        RecordFailure(refs.value, f.lostMarks);
        return false;
      }
      if f.canceledLate {
        return false;
      }
      ok := CommitProjection(ps.value, marker, f.commitFails);
      if !ok {
        RecordFailure(refs.value, f.lostMarks);
      }
    }
  }
}
