/** Atomic application, last-writer-wins and convergence under replay. */
module IndexReplay {
  import opened Options
  import opened Bytes
  import opened Documents
  import opened Projections
  import opened IndexStore
  import opened IndexService

  // ---------- one event ----------

  lemma {:induction false} MarkedKeeps(m: Meta, refs: seq<QueryIndexRef>, lost: set<nat>)
    ensures var n := Marked(m, refs, lost);
            n.catalogs == m.catalogs && n.retired == m.retired && n.inventoryPublished == m.inventoryPublished
    decreases |refs|
  {
    if refs != [] {
      MarkedKeeps(m, refs[..|refs| - 1], lost);
    }
  }

  /** An event that fails, for whatever reason and on whichever template, leaves
      every posting and both progress markers as they were. */
  lemma FailureChangesNothing(s: Service, templates: Templates, event: Option<Event>, marker: Name, f: Faults)
    requires !ApplyOutcome(s, templates, event, marker, f).ok
    ensures var t := ApplyOutcome(s, templates, event, marker, f).service;
            && t.store.postings == s.store.postings && t.store.progress == s.store.progress
            && t.progress == s.progress && t.applied == s.applied
            && t.store.meta.catalogs == s.store.meta.catalogs && t.store.meta.retired == s.store.meta.retired
  {
    if !f.canceled && event.Some? {
      var plan := PlanFor(s.store.meta, templates, event.value, f.readFails);
      if plan.Break? || plan.Replace? {
        MarkedKeeps(s.store.meta, plan.refs, f.lostMarks);
      }
    }
  }

  /** The replacements an applicable event makes; they do not depend on postings
      or progress. */
  function EffectOf(m: Meta, templates: Templates, e: Event): (r: Option<seq<Projection>>) {
    match PlanFor(m, templates, e, false)
    case MarkerOnly => Some([])
    case Replace(_, ps) => if Storable(ps) then Some(ps) else None
    case _ => None
  }

  lemma SuccessIsEffect(s: Service, templates: Templates, e: Event, marker: Name)
    ensures var r, effect := ApplyOutcome(s, templates, Some(e), marker, NO_FAULTS),
                             EffectOf(s.store.meta, templates, e);
            && (r.ok <==> effect.Some?)
            && (r.ok ==> r.service == Committed(s, effect.value, marker))
  {
  }

  // ---------- sequences of events ----------

  datatype Input = Input(event: Event, marker: Name)

  /** Applies events in order; none if one fails. */
  function ApplyAll(s: Service, templates: Templates, inputs: seq<Input>): (r: Option<Service>)
    decreases |inputs|
  {
    if inputs == [] then Some(s)
    else
      var next := ApplyOutcome(s, templates, Some(inputs[0].event), inputs[0].marker, NO_FAULTS);
      if next.ok then ApplyAll(next.service, templates, inputs[1..]) else None
  }

  function Effects(m: Meta, templates: Templates, inputs: seq<Input>): (r: Option<seq<Projection>>) {
    if inputs == [] then Some([])
    else
      var head, tail := EffectOf(m, templates, inputs[0].event), Effects(m, templates, inputs[1..]);
      if head.None? || tail.None? then None else Some(head.value + tail.value)
  }

  function AdvanceAll(progress: Name, inputs: seq<Input>): (r: Name)
    decreases |inputs|
  {
    if inputs == [] then progress else AdvanceAll(Advance(progress, inputs[0].marker), inputs[1..])
  }

  /** A run of events amounts to one replacement and the last marker. */
  lemma {:induction false} ApplyAllMeaning(s: Service, templates: Templates, inputs: seq<Input>)
    ensures var r, effects := ApplyAll(s, templates, inputs), Effects(s.store.meta, templates, inputs);
            && (r.Some? <==> effects.Some?)
            && (r.Some? ==>
                  && r.value.store ==
                       Store(s.store.meta, PutAll(s.store.postings, effects.value),
                             AdvanceAll(s.store.progress, inputs))
                  && r.value.progress == AdvanceAll(s.progress, inputs))
    decreases |inputs|
  {
    if inputs != [] {
      var e, marker := inputs[0].event, inputs[0].marker;
      SuccessIsEffect(s, templates, e, marker);
      var effect := EffectOf(s.store.meta, templates, e);
      if effect.Some? {
        var t := Committed(s, effect.value, marker);
        ApplyAllMeaning(t, templates, inputs[1..]);
        if Effects(s.store.meta, templates, inputs[1..]).Some? {
          PutAllConcat(s.store.postings, effect.value, Effects(s.store.meta, templates, inputs[1..]).value);
        }
      }
    }
  }

  lemma {:induction false} EffectsConcat(m: Meta, templates: Templates, p: seq<Input>, q: seq<Input>)
    ensures var x, y, z := Effects(m, templates, p), Effects(m, templates, q), Effects(m, templates, p + q);
            && (z.Some? <==> x.Some? && y.Some?)
            && (z.Some? ==> z.value == x.value + y.value)
    decreases |p|
  {
    if p == [] {
      assert p + q == q;
      var y := Effects(m, templates, q);
      assert y.Some? ==> [] + y.value == y.value;
    } else {
      assert (p + q)[1..] == p[1..] + q && (p + q)[0] == p[0];
      EffectsConcat(m, templates, p[1..], q);
      var head, tail, rest := EffectOf(m, templates, p[0].event), Effects(m, templates, p[1..]),
                              Effects(m, templates, q);
      if head.Some? && tail.Some? && rest.Some? {
        assert (head.value + tail.value) + rest.value == head.value + (tail.value + rest.value);
      }
    }
  }

  lemma {:induction false} AdvanceAllConcat(progress: Name, p: seq<Input>, q: seq<Input>)
    ensures AdvanceAll(progress, p + q) == AdvanceAll(AdvanceAll(progress, p), q)
    decreases |p|
  {
    if p == [] {
      assert p + q == q;
    } else {
      assert (p + q)[1..] == p[1..] + q;
      AdvanceAllConcat(Advance(progress, p[0].marker), p[1..], q);
    }
  }

  lemma {:induction false} AdvanceAllAgain(a: Name, b: Name, q: seq<Input>)
    ensures AdvanceAll(a, q) == AdvanceAll(b, q) || (AdvanceAll(a, q) == a && AdvanceAll(b, q) == b)
    decreases |q|
  {
    if q != [] {
      AdvanceAllAgain(Advance(a, q[0].marker), Advance(b, q[0].marker), q[1..]);
    }
  }

  /** Applying p, q and then q again before r leaves the same index and the same
      markers as p, q, r. */
  lemma ReplayConverges(s: Service, templates: Templates, p: seq<Input>, q: seq<Input>, r: seq<Input>)
    requires Tidy(s.store.postings) && ApplyAll(s, templates, p + q + r).Some?
    ensures ApplyAll(s, templates, p + q + q + r).Some?
    ensures var once, again := ApplyAll(s, templates, p + q + r).value, ApplyAll(s, templates, p + q + q + r).value;
            again.store == once.store && again.progress == once.progress
  {
    var m := s.store.meta;
    EffectsConcat(m, templates, p, q);
    EffectsConcat(m, templates, p + q, r);
    EffectsConcat(m, templates, p + q, q);
    EffectsConcat(m, templates, p + q + q, r);
    ApplyAllMeaning(s, templates, p + q + r);
    ApplyAllMeaning(s, templates, p + q + q + r);
    var x, y, z := Effects(m, templates, p).value, Effects(m, templates, q).value, Effects(m, templates, r).value;
    var base := s.store.postings;
    PutAllConcat(base, x, y);
    PutAllConcat(base, x + y, y);
    PutAllConcat(base, x + y, z);
    PutAllConcat(base, x + y + y, z);
    PutAllTidy(base, x);
    ReplayPostings(PutAll(base, x), y);
    ReplayMarkers(s.store.progress, p, q, r);
    ReplayMarkers(s.progress, p, q, r);
  }

  lemma ReplayMarkers(progress: Name, p: seq<Input>, q: seq<Input>, r: seq<Input>)
    ensures AdvanceAll(progress, p + q + q + r) == AdvanceAll(progress, p + q + r)
  {
    AdvanceAllConcat(progress, p, q);
    AdvanceAllConcat(progress, p + q, r);
    AdvanceAllConcat(progress, p + q, q);
    AdvanceAllConcat(progress, p + q + q, r);
    AdvanceAllAgain(AdvanceAll(progress, p), AdvanceAll(progress, p + q), q);
  }

  // ---------- last writer ----------

  /** The document an event is about, when it has one. */
  predicate About(e: Event, database: Name, collection: Name, id: Name) {
    e.document.Some? && e.document.value.database == database && e.document.value.collection == collection &&
    LogicalDocumentId(e.document.value) == Some(id)
  }

  predicate NoneAbout(inputs: seq<Input>, database: Name, collection: Name, id: Name) {
    forall l :: 0 <= l < |inputs| ==> !About(inputs[l].event, database, collection, id)
  }

  /** Every replacement of an event is for its own document. */
  lemma EffectIdentity(m: Meta, templates: Templates, e: Event, i: nat)
    requires EffectOf(m, templates, e).Some? && i < |EffectOf(m, templates, e).value|
    ensures var p := EffectOf(m, templates, e).value[i];
            About(e, p.index.database, p.index.collection, p.documentId)
  {
    var doc := e.document.value;
    var ts := MatchingTemplates(doc.collection, TemplatesFor(templates, doc.database));
    var refs := RefsFor(m, doc, ts).value;
    assert ProjectionOf(doc, ts[i], refs[i].generation, DEFAULT_LIMITS) == Ok(EffectOf(m, templates, e).value[i]);
  }

  lemma {:induction false} LaterEventsElsewhere(m: Meta, templates: Templates, later: seq<Input>, slot: Slot)
    requires Effects(m, templates, later).Some?
    requires NoneAbout(later, slot.index.database, slot.index.collection, slot.documentId)
    ensures !Touches(Effects(m, templates, later).value, slot)
    decreases |later|
  {
    if later != [] {
      var head, tail := EffectOf(m, templates, later[0].event).value, Effects(m, templates, later[1..]).value;
      LaterEventsElsewhere(m, templates, later[1..], slot);
      forall i | 0 <= i < |head| ensures Slot(head[i].index, head[i].documentId) != slot {
        EffectIdentity(m, templates, later[0].event, i);
      }
      forall i | 0 <= i < |head + tail| ensures Slot((head + tail)[i].index, (head + tail)[i].documentId) != slot {
        if i >= |head| {
          assert (head + tail)[i] == tail[i - |head|];
        }
      }
    }
  }

  lemma {:induction false} LastKeysOf(ps: seq<Projection>, i: nat, before: seq<seq<Byte>>)
    requires i < |ps|
    requires forall j :: i < j < |ps| ==> Slot(ps[j].index, ps[j].documentId) != Slot(ps[i].index, ps[i].documentId)
    ensures LastKeys(ps, Slot(ps[i].index, ps[i].documentId), before) == ps[i].postingKeys
    decreases |ps|
  {
    var slot, rest := Slot(ps[i].index, ps[i].documentId), ps[1..];
    var next := if Slot(ps[0].index, ps[0].documentId) == slot then ps[0].postingKeys else before;
    if i == 0 {
      forall j | 0 <= j < |rest| ensures Slot(rest[j].index, rest[j].documentId) != slot {
        assert rest[j] == ps[j + 1];
      }
      LastKeysTouched(rest, slot, next, next);
    } else {
      assert rest[i - 1] == ps[i];
      LastKeysOf(rest, i - 1, next);
    }
  }

  /** After any run of events, the postings of a document under each matching
      template `ts[i]` are the projection of the last event about it. */
  lemma LastEventWins(
      s: Service, templates: Templates, earlier: seq<Input>, input: Input, later: seq<Input>, doc: StoredDoc,
      id: Name, ts: seq<Template>, i: nat)
    requires ApplyAll(s, templates, earlier + [input] + later).Some?
    requires input.event.document == Some(doc) && doc.database !in s.store.meta.retired &&
             LogicalDocumentId(doc) == Some(id)
    requires ts == MatchingTemplates(doc.collection, TemplatesFor(templates, doc.database)) && i < |ts|
    requires NoneAbout(later, doc.database, doc.collection, id)
    ensures var ref := RefFor(s.store.meta, doc, ts[i]);
            && ref.Some? && ProjectionOf(doc, ts[i], ref.value.generation, DEFAULT_LIMITS).Ok?
            && Get(ApplyAll(s, templates, earlier + [input] + later).value.store.postings, Slot(ref.value, id)) ==
               ProjectionOf(doc, ts[i], ref.value.generation, DEFAULT_LIMITS).value.postingKeys
  {
    EffectExists(s, templates, earlier, input, later);
    OwnReplacement(s.store.meta, templates, input.event, doc, id, ts, i);
    PostingsAfter(s, templates, earlier, input, later, i, Slot(RefFor(s.store.meta, doc, ts[i]).value, id));
  }

  lemma EffectExists(s: Service, templates: Templates, earlier: seq<Input>, input: Input, later: seq<Input>)
    requires ApplyAll(s, templates, earlier + [input] + later).Some?
    ensures EffectOf(s.store.meta, templates, input.event).Some?
  {
    SplitEffects(s, templates, earlier, input, later);
  }

  predicate LastFor(effect: seq<Projection>, i: nat)
    requires i < |effect|
  {
    forall j :: i < j < |effect| ==>
      Slot(effect[j].index, effect[j].documentId) != Slot(effect[i].index, effect[i].documentId)
  }

  /** A replacement survives every later event about other documents. */
  lemma PostingsAfter(s: Service, templates: Templates, earlier: seq<Input>, input: Input, later: seq<Input>,
                      i: nat, slot: Slot)
    requires ApplyAll(s, templates, earlier + [input] + later).Some?
    requires EffectOf(s.store.meta, templates, input.event).Some? &&
             i < |EffectOf(s.store.meta, templates, input.event).value|
    requires LastFor(EffectOf(s.store.meta, templates, input.event).value, i)
    requires var p := EffectOf(s.store.meta, templates, input.event).value[i]; slot == Slot(p.index, p.documentId)
    requires NoneAbout(later, slot.index.database, slot.index.collection, slot.documentId)
    ensures Get(ApplyAll(s, templates, earlier + [input] + later).value.store.postings, slot) ==
            EffectOf(s.store.meta, templates, input.event).value[i].postingKeys
  {
    var m := s.store.meta;
    SplitEffects(s, templates, earlier, input, later);
    var x, y, z := Effects(m, templates, earlier).value, EffectOf(m, templates, input.event).value,
                   Effects(m, templates, later).value;
    LaterEventsElsewhere(m, templates, later, slot);
    SlotAfter(s.store.postings, x, y, z, i);
  }

  lemma SplitEffects(s: Service, templates: Templates, earlier: seq<Input>, input: Input, later: seq<Input>)
    requires ApplyAll(s, templates, earlier + [input] + later).Some?
    ensures var m := s.store.meta;
            && Effects(m, templates, earlier).Some? && EffectOf(m, templates, input.event).Some?
            && Effects(m, templates, later).Some?
            && ApplyAll(s, templates, earlier + [input] + later).value.store.postings ==
               PutAll(s.store.postings,
                      Effects(m, templates, earlier).value + EffectOf(m, templates, input.event).value +
                        Effects(m, templates, later).value)
  {
    var m := s.store.meta;
    EffectsConcat(m, templates, earlier + [input], later);
    EffectsConcat(m, templates, earlier, [input]);
    ApplyAllMeaning(s, templates, earlier + [input] + later);
    SingleEffect(m, templates, input);
  }

  lemma SlotAfter(postings: map<Slot, seq<seq<Byte>>>, x: seq<Projection>, y: seq<Projection>, z: seq<Projection>,
                  i: nat)
    requires i < |y| && !Touches(z, Slot(y[i].index, y[i].documentId))
    requires forall j :: i < j < |y| ==> Slot(y[j].index, y[j].documentId) != Slot(y[i].index, y[i].documentId)
    ensures Get(PutAll(postings, x + y + z), Slot(y[i].index, y[i].documentId)) == y[i].postingKeys
  {
    var slot := Slot(y[i].index, y[i].documentId);
    PutAllConcat(postings, x + y, z);
    PutAllConcat(postings, x, y);
    var before := PutAll(postings, x);
    PutAllGet(before, y, slot);
    LastKeysOf(y, i, Get(before, slot));
    PutAllGet(PutAll(before, y), z, slot);
    LastKeysTouched(z, slot, Get(PutAll(before, y), slot), []);
  }

  lemma SingleEffect(m: Meta, templates: Templates, input: Input)
    ensures Effects(m, templates, [input]) == EffectOf(m, templates, input.event)
  {
    assert [input][1..] == [];
    var e := EffectOf(m, templates, input.event);
    assert e.Some? ==> e.value + [] == e.value;
  }

  lemma OwnReplacement(m: Meta, templates: Templates, e: Event, doc: StoredDoc, id: Name, ts: seq<Template>, i: nat)
    requires EffectOf(m, templates, e).Some? && e.document == Some(doc) && doc.database !in m.retired &&
             LogicalDocumentId(doc) == Some(id)
    requires ts == MatchingTemplates(doc.collection, TemplatesFor(templates, doc.database)) && i < |ts|
    ensures var ps, ref := EffectOf(m, templates, e).value, RefFor(m, doc, ts[i]);
            && i < |ps| && ref.Some? && ProjectionOf(doc, ts[i], ref.value.generation, DEFAULT_LIMITS) == Ok(ps[i])
            && ps[i].index == ref.value && ps[i].documentId == id && ref.value.database == doc.database
            && ref.value.collection == doc.collection
            && LastFor(ps, i)
  {
    var refs, ps := RefsFor(m, doc, ts).value, EffectOf(m, templates, e).value;
    assert RefFor(m, doc, ts[i]) == Some(refs[i]);
    assert ProjectionOf(doc, ts[i], refs[i].generation, DEFAULT_LIMITS) == Ok(ps[i]);
  }
}
