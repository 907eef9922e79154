/** What the indexer keeps: postings per document and index partition, the state
    of index generations, and the progress marker. */
module IndexStore {
  import opened Options
  import opened Bytes
  import opened Projections

  type Name = seq<Byte>

  /** One document in one index partition. */
  datatype Slot = Slot(index: QueryIndexRef, documentId: Name)

  datatype GenerationKey = GenerationKey(database: Name, collection: Name, fingerprint: Name)

  datatype Generation = Generation(id: Name, ready: bool, failed: bool)

  /** Certifies a complete scan of a database for these definitions. */
  datatype Catalog = Catalog(generation: Name, fingerprints: set<Name>, progress: Name)

  datatype Meta = Meta(
    generations: map<GenerationKey, Generation>, catalogs: map<Name, Catalog>, inventoryPublished: bool,
    retired: set<Name>)

  datatype Store = Store(meta: Meta, postings: map<Slot, seq<seq<Byte>>>, progress: Name)

  // ---------- postings ----------

  function Get(postings: map<Slot, seq<seq<Byte>>>, slot: Slot): (keys: seq<seq<Byte>>) {
    if slot in postings then postings[slot] else []
  }

  /** Replaces the whole posting set of a document; an empty one removes it. */
  function Put(postings: map<Slot, seq<seq<Byte>>>, p: Projection): (r: map<Slot, seq<seq<Byte>>>) {
    var slot := Slot(p.index, p.documentId);
    if p.postingKeys == [] then postings - {slot} else postings[slot := p.postingKeys]
  }

  function PutAll(postings: map<Slot, seq<seq<Byte>>>, ps: seq<Projection>): (r: map<Slot, seq<seq<Byte>>>)
    decreases |ps|
  {
    if ps == [] then postings else PutAll(Put(postings, ps[0]), ps[1..])
  }

  /** Only nonempty posting sets are stored. */
  predicate Tidy(postings: map<Slot, seq<seq<Byte>>>) {
    forall slot :: slot in postings ==> postings[slot] != []
  }

  predicate CompleteIdentity(p: Projection) {
    p.index.database != [] && p.index.collection != [] && p.index.fingerprint != [] && p.index.generation != [] &&
    p.documentId != []
  }

  /** Identities complete and distinct, no empty posting key. */
  predicate Storable(ps: seq<Projection>) {
    && (forall i :: 0 <= i < |ps| ==> CompleteIdentity(ps[i]) && [] !in ps[i].postingKeys)
    && (forall i, j :: 0 <= i < j < |ps| ==> !(ps[i].index == ps[j].index && ps[i].documentId == ps[j].documentId))
  }

  function Advance(progress: Name, marker: Name): (r: Name) {
    if marker != [] then marker else progress
  }

  /** All replacements and the marker become visible together, or nothing does. */
  function ApplyDocumentProjection(s: Store, ps: seq<Projection>, marker: Name): (r: Option<Store>) {
    if Storable(ps) then Some(s.(postings := PutAll(s.postings, ps), progress := Advance(s.progress, marker))) else None
  }

  // ---------- generations ----------

  /** A published catalog overrides local state, except for its recorded failure. */
  function ReadGeneration(m: Meta, key: GenerationKey): (r: Option<Generation>) {
    var local := if key in m.generations then Some(m.generations[key]) else None;
    if key.database in m.retired then None
    else if key.database !in m.catalogs then (if m.inventoryPublished then None else local)
    else
      var catalog := m.catalogs[key.database];
      if key.fingerprint !in catalog.fingerprints then None
      else if local.Some? && local.value.id == catalog.generation && local.value.failed then
        Some(Generation(catalog.generation, false, true))
      else Some(Generation(catalog.generation, true, false))
  }

  function SetFailure(m: Meta, ref: QueryIndexRef): (r: Meta) {
    var key := GenerationKey(ref.database, ref.collection, ref.fingerprint);
    if ref.database in m.catalogs && m.catalogs[ref.database].generation != ref.generation &&
       ref.fingerprint in m.catalogs[ref.database].fingerprints then m
    else m.(generations := m.generations[key := Generation(ref.generation, false, true)])
  }

  /** Retires a database: its postings, generations and catalog are gone. */
  function DeleteDatabase(s: Store, database: Name): (t: Store) {
    var generations := map k | k in s.meta.generations && k.database != database :: s.meta.generations[k];
    var postings := map slot | slot in s.postings && slot.index.database != database :: s.postings[slot];
    s.(meta := s.meta.(generations := generations, catalogs := s.meta.catalogs - {database},
                       retired := s.meta.retired + {database}),
       postings := postings)
  }

  // ---------- laws ----------

  /** The keys a list of replacements leaves in a slot. */
  function LastKeys(ps: seq<Projection>, slot: Slot, before: seq<seq<Byte>>): (keys: seq<seq<Byte>>)
    decreases |ps|
  {
    if ps == [] then before
    else LastKeys(ps[1..], slot, if Slot(ps[0].index, ps[0].documentId) == slot then ps[0].postingKeys else before)
  }

  lemma {:induction false} PutAllGet(postings: map<Slot, seq<seq<Byte>>>, ps: seq<Projection>, slot: Slot)
    ensures Get(PutAll(postings, ps), slot) == LastKeys(ps, slot, Get(postings, slot))
    decreases |ps|
  {
    if ps != [] {
      PutAllGet(Put(postings, ps[0]), ps[1..], slot);
    }
  }

  lemma {:induction false} PutAllTidy(postings: map<Slot, seq<seq<Byte>>>, ps: seq<Projection>)
    requires Tidy(postings)
    ensures Tidy(PutAll(postings, ps))
    decreases |ps|
  {
    if ps != [] {
      PutAllTidy(Put(postings, ps[0]), ps[1..]);
    }
  }

  lemma {:induction false} PutAllConcat(postings: map<Slot, seq<seq<Byte>>>, ps: seq<Projection>, qs: seq<Projection>)
    ensures PutAll(postings, ps + qs) == PutAll(PutAll(postings, ps), qs)
    decreases |ps|
  {
    if ps == [] {
      assert ps + qs == qs;
    } else {
      assert (ps + qs)[1..] == ps[1..] + qs;
      PutAllConcat(Put(postings, ps[0]), ps[1..], qs);
    }
  }

  predicate Touches(ps: seq<Projection>, slot: Slot) {
    exists i :: 0 <= i < |ps| && Slot(ps[i].index, ps[i].documentId) == slot
  }

  lemma {:induction false} LastKeysTouched(ps: seq<Projection>, slot: Slot, a: seq<seq<Byte>>, b: seq<seq<Byte>>)
    ensures Touches(ps, slot) ==> LastKeys(ps, slot, a) == LastKeys(ps, slot, b)
    ensures !Touches(ps, slot) ==> LastKeys(ps, slot, a) == a
    decreases |ps|
  {
    if ps != [] {
      var rest, head := ps[1..], Slot(ps[0].index, ps[0].documentId);
      var a1 := if head == slot then ps[0].postingKeys else a;
      var b1 := if head == slot then ps[0].postingKeys else b;
      LastKeysTouched(rest, slot, a1, b1);
      if i :| 0 <= i < |ps| && Slot(ps[i].index, ps[i].documentId) == slot {
        assert i > 0 ==> rest[i - 1] == ps[i];
      }
      if i :| 0 <= i < |rest| && Slot(rest[i].index, rest[i].documentId) == slot {
        assert ps[i + 1] == rest[i];
      }
    }
  }

  /** Replaying replacements on top of themselves changes nothing. */
  lemma ReplayPostings(postings: map<Slot, seq<seq<Byte>>>, ps: seq<Projection>)
    requires Tidy(postings)
    ensures PutAll(PutAll(postings, ps), ps) == PutAll(postings, ps)
  {
    var once := PutAll(postings, ps);
    var twice := PutAll(once, ps);
    PutAllTidy(postings, ps);
    PutAllTidy(once, ps);
    forall slot: Slot ensures Get(once, slot) == Get(twice, slot) {
      PutAllGet(postings, ps, slot);
      PutAllGet(once, ps, slot);
      LastKeysTouched(ps, slot, Get(postings, slot), Get(once, slot));
    }
    SameGet(once, twice);
  }

  lemma SameGet(x: map<Slot, seq<seq<Byte>>>, y: map<Slot, seq<seq<Byte>>>)
    requires Tidy(x) && Tidy(y) && forall slot: Slot :: Get(x, slot) == Get(y, slot)
    ensures x == y
  {
    forall slot: Slot ensures slot in x <==> slot in y {
      assert Get(x, slot) == Get(y, slot);
    }
    forall slot: Slot | slot in x ensures x[slot] == y[slot] {
      assert Get(x, slot) == Get(y, slot);
    }
  }
}
