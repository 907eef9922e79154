/** Collecting a snapshot: pulled pages are folded into the latest live version of
    each document, within a document count and a byte budget. */
module Snapshot {
  import opened Options
  import opened Bytes
  import opened Projections
  import PT = ProjectionTheorems

  type Id = seq<Byte>

  const MAX_DOCUMENTS: nat := 1000
  const MAX_PAGE_BYTES: nat := 16777216

  /** The subscription identifier comes from a message of at most 64 KiB, and JSON
      spends at most six bytes on each of its bytes. */
  const LARGEST_ENVELOPE: nat := 27 + 6 * 65536

  /** A pulled document with its JSON encoding. */
  datatype Doc = Doc(id: Id, deleted: bool, encoded: seq<Byte>)

  datatype Page = Page(docs: seq<Doc>, checkpoint: Id, caughtUp: bool)

  /** One pull: it fails (or the context ends), or it returns a page. */
  datatype Pull = PullFailed | Pulled(page: Page)

  datatype Failure = Unavailable | NoProgress | NoIdentity | TooLarge

  // ---------- the fold ----------

  /** The newest version replaces the older one; a tombstone removes it. */
  function Put(held: map<Id, seq<Byte>>, doc: Doc): (r: map<Id, seq<Byte>>) {
    if doc.deleted then held - {doc.id} else held[doc.id := doc.encoded]
  }

  function Fold(docs: seq<Doc>): (held: map<Id, seq<Byte>>) {
    if docs == [] then map[] else Put(Fold(docs[..|docs| - 1]), docs[|docs| - 1])
  }

  /** What the last mention of an identifier says about it. */
  function Latest(docs: seq<Doc>, id: Id): (r: Option<seq<Byte>>) {
    if docs == [] then None
    else
      var last := docs[|docs| - 1];
      if last.id != id then Latest(docs[..|docs| - 1], id)
      else if last.deleted then None
      else Some(last.encoded)
  }

  /** The fold is last-writer-wins with tombstones removed. */
  lemma {:induction false} FoldIsLatest(docs: seq<Doc>, id: Id)
    ensures (id in Fold(docs) <==> Latest(docs, id).Some?) &&
            (id in Fold(docs) ==> Fold(docs)[id] == Latest(docs, id).value)
  {
    if docs != [] {
      FoldIsLatest(docs[..|docs| - 1], id);
    }
  }

  // ---------- sizes ----------

  ghost function Total(held: map<Id, seq<Byte>>): (n: nat) {
    if held == map[] then 0
    else
      var id :| id in held;
      |held[id]| + Total(held - {id})
  }

  lemma {:induction false} TotalWithout(held: map<Id, seq<Byte>>, id: Id)
    requires id in held
    ensures Total(held) == |held[id]| + Total(held - {id})
    decreases |held|
  {
    var other :| other in held && Total(held) == |held[other]| + Total(held - {other});
    if other != id {
      TotalWithout(held - {other}, id);
      TotalWithout(held - {id}, other);
      assert held - {other} - {id} == held - {id} - {other};
    }
  }

  lemma TotalPut(held: map<Id, seq<Byte>>, doc: Doc)
    ensures Total(Put(held, doc)) ==
            Total(held) - (if doc.id in held then |held[doc.id]| else 0) + (if doc.deleted then 0 else |doc.encoded|)
  {
    var rest := held - {doc.id};
    if doc.id in held {
      TotalWithout(held, doc.id);
    } else {
      assert rest == held;
    }
    if !doc.deleted {
      var after := held[doc.id := doc.encoded];
      TotalWithout(after, doc.id);
      assert after - {doc.id} == rest;
    }
  }

  function Commas(n: nat): (c: nat) {
    if n == 0 then 0 else n - 1
  }

  /** Bytes of the envelope with its documents and the commas between them. */
  function EncodedSize(envelope: nat, documents: seq<seq<Byte>>): (n: nat) {
    envelope + TotalBytes(documents) + Commas(|documents|)
  }

  predicate WithinLimits(envelope: nat, held: map<Id, seq<Byte>>, bytes: int) {
    |held| <= MAX_DOCUMENTS && envelope + bytes + Commas(|held|) <= MAX_PAGE_BYTES
  }

  // ---------- collecting ----------

  /** All documents of the pages, in pull order. */
  function AllDocs(pages: seq<Page>): (docs: seq<Doc>) {
    if pages == [] then [] else AllDocs(pages[..|pages| - 1]) + pages[|pages| - 1].docs
  }

  /** The fold of one page with its checks, document by document. */
  ghost function FoldWithin(held: map<Id, seq<Byte>>, envelope: nat,
                            docs: seq<Doc>): (r: Result<map<Id, seq<Byte>>, Failure>)
    decreases |docs|
  {
    if docs == [] then Ok(held)
    else if docs[0].id == [] then Err(NoIdentity)
    else
      var next := Put(held, docs[0]);
      if !docs[0].deleted && !WithinLimits(envelope, next, Total(next)) then Err(TooLarge)
      else FoldWithin(next, envelope, docs[1..])
  }

  /** What collecting from a point on comes to. */
  ghost function Outcome(envelope: nat, pulls: seq<Pull>, checkpoint: Id,
                         held: map<Id, seq<Byte>>): (r: Result<map<Id, seq<Byte>>, Failure>)
    decreases |pulls|
  {
    if pulls == [] || pulls[0].PullFailed? then Err(Unavailable)
    else
      var page := pulls[0].page;
      if page.checkpoint == [] || (!page.caughtUp && page.checkpoint == checkpoint) then Err(NoProgress)
      else
        match FoldWithin(held, envelope, page.docs)
        case Err(e) => Err(e)
        case Ok(next) => if page.caughtUp then Ok(next) else Outcome(envelope, pulls[1..], page.checkpoint, next)
  }

  /** Replaces or removes one document, keeping the running byte count exact. */
  method PutDocument(held: map<Id, seq<Byte>>, bytes: int, envelope: nat, doc: Doc)
    returns (r: Result<(map<Id, seq<Byte>>, int), Failure>)
    requires bytes == Total(held) && (held == map[] || WithinLimits(envelope, held, bytes))
    ensures r.Ok? ==> r.value.0 == Put(held, doc) && r.value.1 == Total(r.value.0)
    ensures r.Ok? ==> r.value.0 == map[] || WithinLimits(envelope, r.value.0, r.value.1)
    ensures r.Ok? <==> doc.id != [] && (doc.deleted || WithinLimits(envelope, Put(held, doc), Total(Put(held, doc))))
    ensures r.Err? ==> r.error == if doc.id == [] then NoIdentity else TooLarge
  {
    if doc.id == [] {
      return Err(NoIdentity);
    }
    TotalPut(held, doc);
    var documentBytes := bytes - (if doc.id in held then |held[doc.id]| else 0);
    var documents := held - {doc.id};
    if doc.deleted {
      Shrinks(held, doc.id);
      return Ok((documents, documentBytes));
    }
    assert documents[doc.id := doc.encoded] == held[doc.id := doc.encoded];
    documents := documents[doc.id := doc.encoded];
    documentBytes := documentBytes + |doc.encoded|;
    if |documents| > MAX_DOCUMENTS || envelope + documentBytes + Commas(|documents|) > MAX_PAGE_BYTES {
      return Err(TooLarge);
    }
    return Ok((documents, documentBytes));
  }

  lemma FoldNext(held: map<Id, seq<Byte>>, envelope: nat, docs: seq<Doc>, i: nat)
    requires i < |docs|
    ensures var next := Put(held, docs[i]);
            FoldWithin(held, envelope, docs[i..]) ==
            if docs[i].id == [] then Err(NoIdentity)
            else if !docs[i].deleted && !WithinLimits(envelope, next, Total(next)) then Err(TooLarge)
            else FoldWithin(next, envelope, docs[i + 1..])
  {
    assert docs[i..][0] == docs[i] && docs[i..][1..] == docs[i + 1..];
  }

  /** Folds one page into what is held. */
  method FoldPage(held: map<Id, seq<Byte>>, bytes: int, envelope: nat, docs: seq<Doc>)
    returns (r: Result<(map<Id, seq<Byte>>, int), Failure>)
    requires bytes == Total(held) && (held == map[] || WithinLimits(envelope, held, bytes))
    ensures FoldWithin(held, envelope, docs) == if r.Ok? then Ok(r.value.0) else Err(r.error)
    ensures r.Ok? ==>
              r.value.1 == Total(r.value.0) && (r.value.0 == map[] || WithinLimits(envelope, r.value.0, r.value.1))
  {
    var documents, documentBytes := held, bytes;
    var i := 0;
    assert docs[0..] == docs;
    while i < |docs|
      invariant 0 <= i <= |docs|
      invariant FoldWithin(held, envelope, docs) == FoldWithin(documents, envelope, docs[i..])
      invariant documentBytes == Total(documents) &&
                (documents == map[] || WithinLimits(envelope, documents, documentBytes))
    {
      FoldNext(documents, envelope, docs, i);
      var put := PutDocument(documents, documentBytes, envelope, docs[i]);
      if put.Err? {
        return Err(put.error);
      }
      documents, documentBytes := put.value.0, put.value.1;
      i := i + 1;
    }
    return Ok((documents, documentBytes));
  }

  /** The checks never change what is folded. */
  lemma {:induction false} FoldWithinIsFold(before: seq<Doc>, envelope: nat, docs: seq<Doc>)
    requires FoldWithin(Fold(before), envelope, docs).Ok?
    ensures FoldWithin(Fold(before), envelope, docs) == Ok(Fold(before + docs))
    decreases |docs|
  {
    if docs == [] {
      assert before + docs == before;
    } else {
      FoldAppend(before, docs[0]);
      FoldWithinIsFold(before + [docs[0]], envelope, docs[1..]);
      Regroup(before, docs);
    }
  }

  lemma FoldAppend(before: seq<Doc>, doc: Doc)
    ensures Fold(before + [doc]) == Put(Fold(before), doc)
  {
    assert (before + [doc])[..|before|] == before;
  }

  lemma Regroup(before: seq<Doc>, docs: seq<Doc>)
    requires docs != []
    ensures (before + [docs[0]]) + docs[1..] == before + docs
  {
  }

  lemma Shrinks(held: map<Id, seq<Byte>>, id: Id)
    ensures |held - {id}| <= |held| && Total(held - {id}) <= Total(held)
  {
    var rest := held - {id};
    if id in held {
      TotalWithout(held, id);
      assert held.Keys == rest.Keys + {id};
    } else {
      assert rest == held;
    }
  }

  /** Identifiers in byte order. */
  method SortedIds(held: map<Id, seq<Byte>>) returns (ids: seq<Id>)
    ensures forall i :: 0 <= i < |ids| - 1 ==> Compare(ids[i], ids[i + 1]) < 0
    ensures (forall x :: x in ids <==> x in held) && |ids| == |held| && PT.NoRepeats(ids)
  {
    var keys := held.Keys;
    var list: seq<Id> := [];
    while keys != {}
      invariant keys <= held.Keys && |list| + |keys| == |held|
      invariant forall x :: x in list <==> x in held && x !in keys
      invariant PT.NoRepeats(list)
      decreases keys
    {
      var id :| id in keys;
      keys := keys - {id};
      list := list + [id];
    }
    ids := SortKeys(list);
    PT.SortKeysSorts(list);
    PT.SortKeepsDistinct(list);
    assert |multiset(ids)| == |ids| && |multiset(list)| == |list|;
    forall x ensures x in ids <==> x in list {
      PT.SortedMembers(list, x);
    }
    forall i | 0 <= i < |ids| - 1 ensures Compare(ids[i], ids[i + 1]) < 0 {
      PT.AscendingStrictly(ids, i);
    }
  }

  /** The encoded documents of the identifiers, in their order. */
  function Select(held: map<Id, seq<Byte>>, ids: seq<Id>): (documents: seq<seq<Byte>>)
    requires forall x :: x in ids ==> x in held
    ensures |documents| == |ids| && forall i :: 0 <= i < |ids| ==> documents[i] == held[ids[i]]
  {
    if ids == [] then [] else Select(held, ids[..|ids| - 1]) + [held[ids[|ids| - 1]]]
  }

  lemma {:induction false} SelectTotal(held: map<Id, seq<Byte>>, ids: seq<Id>)
    requires PT.NoRepeats(ids) && forall x :: x in ids <==> x in held
    ensures TotalBytes(Select(held, ids)) == Total(held)
    decreases |ids|
  {
    if ids == [] {
      assert held == map[];
    } else {
      var n := |ids| - 1;
      var rest, last := held - {ids[n]}, ids[n];
      TotalWithout(held, last);
      forall x ensures x in ids[..n] <==> x in rest {
        assert ids == ids[..n] + [last];
      }
      SelectTotal(rest, ids[..n]);
      SelectSame(held, rest, ids[..n]);
    }
  }

  lemma {:induction false} SelectSame(held: map<Id, seq<Byte>>, rest: map<Id, seq<Byte>>, ids: seq<Id>)
    requires forall x :: x in ids ==> x in held && x in rest && held[x] == rest[x]
    ensures Select(held, ids) == Select(rest, ids)
    decreases |ids|
  {
    if ids != [] {
      SelectSame(held, rest, ids[..|ids| - 1]);
    }
  }

  /** The answers up to the first page that says it has caught up. */
  function UntilCaughtUp(pulls: seq<Pull>, checkpoint: Id): (r: Result<seq<Page>, Failure>)
    decreases |pulls|
  {
    if pulls == [] || pulls[0].PullFailed? then Err(Unavailable)
    else
      var page := pulls[0].page;
      if page.checkpoint == [] || (!page.caughtUp && page.checkpoint == checkpoint) then Err(NoProgress)
      else if page.caughtUp then Ok([page])
      else
        match UntilCaughtUp(pulls[1..], page.checkpoint)
        case Err(e) => Err(e)
        case Ok(rest) => Ok([page] + rest)
  }

  /** A finished snapshot: identifiers ascend, and each document is the latest live
      version among all pulled pages. */
  ghost predicate IsSnapshot(docs: seq<Doc>, ids: seq<Id>, documents: seq<seq<Byte>>) {
    && |documents| == |ids|
    && (forall i :: 0 <= i < |ids| - 1 ==> Compare(ids[i], ids[i + 1]) < 0)
    && (forall id :: id in ids <==> Latest(docs, id).Some?)
    && (forall i :: 0 <= i < |ids| ==> Latest(docs, ids[i]) == Some(documents[i]))
  }

  lemma SelectIsSnapshot(docs: seq<Doc>, ids: seq<Id>)
    requires forall x :: x in ids <==> x in Fold(docs)
    requires forall i :: 0 <= i < |ids| - 1 ==> Compare(ids[i], ids[i + 1]) < 0
    ensures IsSnapshot(docs, ids, Select(Fold(docs), ids))
  {
    forall id ensures id in ids <==> Latest(docs, id).Some? {
      FoldIsLatest(docs, id);
    }
    forall i | 0 <= i < |ids| ensures Latest(docs, ids[i]) == Some(Select(Fold(docs), ids)[i]) {
      FoldIsLatest(docs, ids[i]);
    }
  }

  /** Pulls pages until one says it has caught up. */
  method PullAll(envelope: nat, pulls: seq<Pull>)
    returns (r: Result<(map<Id, seq<Byte>>, int), Failure>, ghost pages: seq<Page>)
    ensures Outcome(envelope, pulls, [], map[]) == if r.Ok? then Ok(r.value.0) else Err(r.error)
    ensures r.Ok? ==> UntilCaughtUp(pulls, []) == Ok(pages) && r.value.0 == Fold(AllDocs(pages))
    ensures r.Ok? ==>
              r.value.1 == Total(r.value.0) && (r.value.0 == map[] || WithinLimits(envelope, r.value.0, r.value.1))
  {
    var documents: map<Id, seq<Byte>> := map[];
    var documentBytes := 0;
    var checkpoint: Id := [];
    var i := 0;
    pages := [];
    ContinuesStart(pulls);
    while i < |pulls|
      invariant 0 <= i <= |pulls|
      invariant documents == Fold(AllDocs(pages)) && documentBytes == Total(documents)
      invariant documents == map[] || WithinLimits(envelope, documents, documentBytes)
      invariant Continues(pulls, i, checkpoint, pages)
      invariant Outcome(envelope, pulls, [], map[]) == Outcome(envelope, pulls[i..], checkpoint, documents)
    {
      assert pulls[i..][0] == pulls[i] && pulls[i..][1..] == pulls[i + 1..];
      if pulls[i].PullFailed? {
        return Err(Unavailable), pages;
      }
      var page := pulls[i].page;
      if page.checkpoint == [] || (!page.caughtUp && page.checkpoint == checkpoint) {
        return Err(NoProgress), pages;
      }
      var folded := FoldPage(documents, documentBytes, envelope, page.docs);
      if folded.Err? {
        return Err(folded.error), pages;
      }
      FoldWithinIsFold(AllDocs(pages), envelope, page.docs);
      ContinuesNext(pulls, i, checkpoint, pages);
      AllDocsNext(pages, page);
      documents, documentBytes := folded.value.0, folded.value.1;
      pages := pages + [page];
      if page.caughtUp {
        return Ok((documents, documentBytes)), pages;
      }
      checkpoint := page.checkpoint;
      i := i + 1;
    }
    return Err(Unavailable), pages;
  }

  lemma AllDocsNext(pages: seq<Page>, page: Page)
    ensures AllDocs(pages + [page]) == AllDocs(pages) + page.docs
  {
    assert (pages + [page])[..|pages|] == pages;
  }

  lemma ContinuesStart(pulls: seq<Pull>)
    ensures pulls[0..] == pulls && Continues(pulls, 0, [], [])
  {
    var r := UntilCaughtUp(pulls, []);
    assert r.Ok? ==> [] + r.value == r.value;
  }

  /** Pulls pages until caught up and encodes what is left. A successful snapshot
      is the latest live version of every pulled document, in identifier order,
      with at most 1000 documents; its encoding fits the page limit if and only if the
      envelope does, which holds for every identifier that can be received. */
  method CollectSnapshot(envelope: nat, pulls: seq<Pull>)
    returns (r: Result<(seq<Id>, seq<seq<Byte>>), Failure>, ghost pages: seq<Page>)
    ensures var outcome := Outcome(envelope, pulls, [], map[]);
            (r.Ok? <==> outcome.Ok?) && (r.Err? ==> outcome == Err(r.error))
    ensures r.Ok? ==>
              && UntilCaughtUp(pulls, []) == Ok(pages)
              && IsSnapshot(AllDocs(pages), r.value.0, r.value.1)
              && |r.value.1| <= MAX_DOCUMENTS
              && (EncodedSize(envelope, r.value.1) <= MAX_PAGE_BYTES <==> envelope <= MAX_PAGE_BYTES)
              && (envelope <= LARGEST_ENVELOPE ==> EncodedSize(envelope, r.value.1) <= MAX_PAGE_BYTES)
  {
    var pulled;
    pulled, pages := PullAll(envelope, pulls);
    if pulled.Err? {
      return Err(pulled.error), pages;
    }
    var documents := pulled.value.0;
    var ids := SortedIds(documents);
    SelectIsSnapshot(AllDocs(pages), ids);
    SelectTotal(documents, ids);
    return Ok((ids, Select(documents, ids))), pages;
  }

  /** After `pages`, the answer still depends on the pulls from `i` on. */
  predicate Continues(pulls: seq<Pull>, i: nat, checkpoint: Id, pages: seq<Page>) {
    i <= |pulls| &&
    UntilCaughtUp(pulls, []) ==
    match UntilCaughtUp(pulls[i..], checkpoint)
    case Err(e) => Err(e)
    case Ok(rest) => Ok(pages + rest)
  }

  lemma ContinuesNext(pulls: seq<Pull>, i: nat, checkpoint: Id, pages: seq<Page>)
    requires i < |pulls| && Continues(pulls, i, checkpoint, pages) && pulls[i].Pulled?
    requires var page := pulls[i].page; page.checkpoint != [] && (page.caughtUp || page.checkpoint != checkpoint)
    ensures var page := pulls[i].page;
            if page.caughtUp then UntilCaughtUp(pulls, []) == Ok(pages + [page])
            else Continues(pulls, i + 1, page.checkpoint, pages + [page])
  {
    var page := pulls[i].page;
    assert pulls[i..][0] == pulls[i] && pulls[i..][1..] == pulls[i + 1..];
    var rest := UntilCaughtUp(pulls[i + 1..], page.checkpoint);
    if rest.Ok? {
      assert pages + ([page] + rest.value) == (pages + [page]) + rest.value;
    }
  }
}
