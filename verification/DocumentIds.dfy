/** The recursive document-id collector of crates/chat-session-worker/src/main.rs, and the memory
    manifest of crates/memory-worker/src/lib.rs that it reads. */
module DocumentIds {
  import opened Prelude

  type DocumentId = string

  /** `Uuid::parse_str`, which stays abstract. */
  type UuidParser = string -> Option<DocumentId>

  predicate Distinct(ids: seq<DocumentId>) {
    forall i, j :: 0 <= i < j < |ids| ==> ids[i] != ids[j]
  }

  /** `push_unique_document_id`. */
  function Push(ids: seq<DocumentId>, id: DocumentId): (r: seq<DocumentId>)
    ensures ids <= r && (Distinct(ids) ==> Distinct(r))
    ensures forall x :: x in r <==> x in ids || x == id
  {
    if id in ids then ids else ids + [id]
  }

  function PushOption(ids: seq<DocumentId>, id: Option<DocumentId>): (r: seq<DocumentId>)
    ensures ids <= r && (Distinct(ids) ==> Distinct(r))
    ensures forall x :: x in r <==> x in ids || Some(x) == id
  {
    if id.Some? then Push(ids, id.value) else ids
  }

  function ParseId(v: Json, parse: UuidParser): Option<DocumentId> {
    if v.Str? then parse(v.s) else None
  }

  /** The id under `document_id`, if it is a valid one. */
  function OwnId(v: Json, parse: UuidParser): Option<DocumentId> {
    match Get(v, "document_id")
    case Some(x) => ParseId(x, parse)
    case None => None
  }

  /** The entries under `source_document_ids`, if that is an array. */
  function SourceItems(v: Json): seq<Json> {
    match Get(v, "source_document_ids")
    case Some(Arr(items)) => items
    case _ => []
  }

  /** Push the valid ids of a list in order. */
  function PushAll(ids: seq<DocumentId>, items: seq<Json>, parse: UuidParser): (r: seq<DocumentId>)
    ensures ids <= r && (Distinct(ids) ==> Distinct(r))
    ensures forall x :: x in r <==> x in ids || exists i :: 0 <= i < |items| && ParseId(items[i], parse) == Some(x)
  {
    if items == [] then ids
    else PushOption(PushAll(ids, items[..|items| - 1], parse), ParseId(items[|items| - 1], parse))
  }

  /** What an object contributes before its children are visited. */
  function PushOwn(ids: seq<DocumentId>, v: Json, parse: UuidParser): seq<DocumentId> {
    PushAll(PushOption(ids, OwnId(v, parse)), SourceItems(v), parse)
  }

  /** Reference: `id` occurs, valid, under one of the two keys of some object at any depth. */
  ghost predicate Mentions(v: Json, id: DocumentId, parse: UuidParser)
    decreases v
  {
    match v
    case Obj(fields) =>
      || OwnId(v, parse) == Some(id)
      || (exists i :: 0 <= i < |SourceItems(v)| && ParseId(SourceItems(v)[i], parse) == Some(id))
      || (exists k :: k in fields && Mentions(fields[k], id, parse))
    case Arr(items) => exists i :: 0 <= i < |items| && Mentions(items[i], id, parse)
    case _ => false
  }

  /** The loop over `source_document_ids`. */
  method PushSources(ids: seq<DocumentId>, items: seq<Json>, parse: UuidParser) returns (r: seq<DocumentId>)
    ensures r == PushAll(ids, items, parse)
  {
    r := ids;
    for i := 0 to |items|
      invariant r == PushAll(ids, items[..i], parse)
    {
      assert items[..i + 1][..i] == items[..i];
      r := PushOption(r, ParseId(items[i], parse));
    }
    assert items[..|items|] == items;
  }

  /** `collect_memory_manifest_document_ids`: the caller's list grows by exactly the ids mentioned,
      each once, and starts with the object's own contribution. Object fields are visited in an
      arbitrary order. */
  method Collect(v: Json, ids: seq<DocumentId>, parse: UuidParser) returns (r: seq<DocumentId>)
    ensures ids <= r
    ensures Distinct(ids) ==> Distinct(r)
    ensures forall x :: x in r <==> x in ids || Mentions(v, x, parse)
    ensures v.Obj? ==> PushOwn(ids, v, parse) <= r
    decreases v
  {
    r := ids;
    match v {
      case Obj(fields) =>
        r := PushSources(PushOption(r, OwnId(v, parse)), SourceItems(v), parse);
        var own := r;
        var left := fields.Keys;
        while left != {}
          invariant left <= fields.Keys
          invariant own <= r && (Distinct(ids) ==> Distinct(r))
          invariant forall x :: x in r <==>
                      x in own || exists k :: k in fields && k !in left && Mentions(fields[k], x, parse)
          decreases left
        {
          var k :| k in left;
          r := Collect(fields[k], r, parse);
          left := left - {k};
        }
      case Arr(items) =>
        for i := 0 to |items|
          invariant ids <= r && (Distinct(ids) ==> Distinct(r))
          invariant forall x :: x in r <==> x in ids || exists j :: 0 <= j < i && Mentions(items[j], x, parse)
        {
          r := Collect(items[i], r, parse);
        }
      case _ =>
    }
  }

  // ----- The memory manifest ---------------------------------------------------------------------

  datatype SourceDocument = SourceDocument(id: DocumentId, title: string, lifecycle: string, chunks: nat)

  datatype RefreshJob = RefreshJob(
    datasetId: string,
    ownerUserId: Option<string>,
    includeDirectory: bool,
    documents: seq<SourceDocument>)

  datatype RefreshOutcome = RefreshOutcome(nodes: nat, chunks: nat, manifest: Json)

  function IdItems(docs: seq<SourceDocument>): seq<Json> {
    seq(|docs|, i requires 0 <= i < |docs| => Str(docs[i].id))
  }

  function Child(d: SourceDocument): Json {
    Obj(map["kind" := Str("document"), "document_id" := Str(d.id), "title" := Str(d.title),
            "lifecycle" := Str(d.lifecycle), "chunk_count" := Number(d.chunks)])
  }

  function Children(docs: seq<SourceDocument>): seq<Json> {
    seq(|docs|, i requires 0 <= i < |docs| => Child(docs[i]))
  }

  function Root(docs: seq<SourceDocument>): Json {
    Obj(map["kind" := Str("dataset"), "scope" := Str("dataset"), "title" := Str("Dataset Memory Directory"),
            "children" := Arr(Children(docs))])
  }

  function ManifestOf(job: RefreshJob): Json {
    Obj(map["schema_version" := Str("0.1.0"), "generator" := Str("memory-worker"),
            "dataset_id" := Str(job.datasetId), "owner_user_id" := StrOrNull(job.ownerUserId),
            "source_document_ids" := Arr(IdItems(job.documents)),
            "include_directory" := Bool(job.includeDirectory),
            "root" := Root(job.documents)])
  }

  function ChunkSum(docs: seq<SourceDocument>): nat {
    if docs == [] then 0 else docs[0].chunks + ChunkSum(docs[1..])
  }

  /** `PlaceholderMemoryIndexer::refresh`. */
  function Refresh(job: RefreshJob): RefreshOutcome {
    RefreshOutcome(|job.documents| + if job.includeDirectory then 1 else 0,
                   ChunkSum(job.documents), ManifestOf(job))
  }

  /** Every stored id is the canonical text of itself. */
  predicate Canonical(docs: seq<SourceDocument>, parse: UuidParser) {
    forall i :: 0 <= i < |docs| ==> parse(docs[i].id) == Some(docs[i].id)
  }

  /** The job's ids without repetitions, in first-occurrence order. */
  function FirstOccurrences(docs: seq<SourceDocument>): (r: seq<DocumentId>)
    ensures Distinct(r)
    ensures forall x :: x in r <==> exists i :: 0 <= i < |docs| && docs[i].id == x
  {
    if docs == [] then [] else Push(FirstOccurrences(docs[..|docs| - 1]), docs[|docs| - 1].id)
  }

  predicate Occurs(docs: seq<SourceDocument>, id: DocumentId) {
    exists p :: 0 <= p < |docs| && docs[p].id == id
  }

  /** Some occurrence of `x` comes before every occurrence of `y`. */
  predicate Precedes(docs: seq<SourceDocument>, x: DocumentId, y: DocumentId) {
    exists p :: 0 <= p < |docs| && docs[p].id == x && forall q :: 0 <= q < |docs| && docs[q].id == y ==> p < q
  }

  lemma {:induction false} PrecedesSnoc(docs: seq<SourceDocument>, d: SourceDocument, x: DocumentId, y: DocumentId)
    requires Precedes(docs, x, y) || (Occurs(docs, x) && !Occurs(docs, y))
    ensures Precedes(docs + [d], x, y)
  {
    var more := docs + [d];
    var p :| 0 <= p < |docs| && docs[p].id == x && forall q :: 0 <= q < |docs| && docs[q].id == y ==> p < q;
    assert more[p].id == x;
    forall q | 0 <= q < |more| && more[q].id == y ensures p < q {
      if q < |docs| { assert more[q] == docs[q]; }
    }
  }

  /** Ids stand in the order in which they first occur in the job. */
  lemma {:induction false} FirstOccurrencesInOrder(docs: seq<SourceDocument>, i: nat, j: nat)
    requires i < j < |FirstOccurrences(docs)|
    ensures Precedes(docs, FirstOccurrences(docs)[i], FirstOccurrences(docs)[j])
  {
    hide Precedes, Distinct;
    var rest, last := docs[..|docs| - 1], docs[|docs| - 1];
    var r, r' := FirstOccurrences(docs), FirstOccurrences(rest);
    assert docs == rest + [last] && r[i] == r'[i];
    if j < |r'| {
      FirstOccurrencesInOrder(rest, i, j);
    } else {
      assert r'[i] in r' && r[j] == last.id;
    }
    PrecedesSnoc(rest, last, r[i], r[j]);
  }

  /** Node and chunk totals of a refresh, against the manifest it builds: one node per child of the root and
      one for the directory, and all chunks of the children. */
  lemma {:induction false} RefreshTotals(job: RefreshJob)
    ensures var o := Refresh(job);
            && o.nodes == |Children(job.documents)| + (if job.includeDirectory then 1 else 0)
            && o.chunks == ChunksOf(Children(job.documents))
  {
    ChunkTotals(job.documents);
  }

  /** Sum of the chunk counts that a list of children carries. */
  function ChunksOf(children: seq<Json>): nat {
    if children == [] then 0
    else ChunksOf(children[..|children| - 1])
         + match Get(children[|children| - 1], "chunk_count") case Some(Number(n)) => n case _ => 0
  }

  lemma {:induction false} ChunkTotals(docs: seq<SourceDocument>)
    ensures ChunkSum(docs) == ChunksOf(Children(docs))
  {
    if docs != [] {
      var rest, last := docs[..|docs| - 1], docs[|docs| - 1];
      ChunkTotals(rest);
      ChunkSumSnoc(rest, last);
      assert docs == rest + [last];
      assert Children(docs)[..|docs| - 1] == Children(rest);
      assert Get(Child(last), "chunk_count") == Some(Number(last.chunks));
    }
  }

  lemma {:induction false} ChunkSumSnoc(docs: seq<SourceDocument>, d: SourceDocument)
    ensures ChunkSum(docs + [d]) == ChunkSum(docs) + d.chunks
  {
    if docs == [] {
      assert [d][1..] == [];
    } else {
      ChunkSumSnoc(docs[1..], d);
      assert (docs + [d])[1..] == docs[1..] + [d];
    }
  }

  lemma {:induction false} SourceIdsFirst(docs: seq<SourceDocument>, parse: UuidParser)
    requires Canonical(docs, parse)
    ensures PushAll([], IdItems(docs), parse) == FirstOccurrences(docs)
  {
    hide Distinct, Push;
    if docs != [] {
      var rest, last := docs[..|docs| - 1], docs[|docs| - 1];
      SourceIdsFirst(rest, parse);
      var items := IdItems(docs);
      assert items[..|items| - 1] == IdItems(rest);
      assert ParseId(items[|items| - 1], parse) == Some(last.id);
      assert PushAll([], items, parse) == PushOption(PushAll([], IdItems(rest), parse), Some(last.id));
    }
  }

  lemma {:induction false} ChildMentions(d: SourceDocument, parse: UuidParser, x: DocumentId)
    requires parse(d.id) == Some(d.id)
    ensures Mentions(Child(d), x, parse) <==> x == d.id
  {
    var c := Child(d);
    assert Get(c, "document_id") == Some(Str(d.id));
    assert Get(c, "source_document_ids") == None;
    assert forall k :: k in c.fields ==> !Mentions(c.fields[k], x, parse);
  }

  lemma {:induction false} RootMentions(docs: seq<SourceDocument>, parse: UuidParser, x: DocumentId)
    requires Canonical(docs, parse)
    ensures Mentions(Root(docs), x, parse) <==> exists i :: 0 <= i < |docs| && docs[i].id == x
  {
    var root := Root(docs);
    var list := Arr(Children(docs));
    assert Get(root, "document_id") == None && Get(root, "source_document_ids") == None;
    assert root.fields["children"] == list;
    assert forall k :: k in root.fields && k != "children" ==> !Mentions(root.fields[k], x, parse);
    forall i | 0 <= i < |docs| ensures Mentions(Children(docs)[i], x, parse) <==> docs[i].id == x {
      ChildMentions(docs[i], parse, x);
    }
    assert Mentions(list, x, parse) <==> exists i :: 0 <= i < |docs| && docs[i].id == x by {
      if i :| 0 <= i < |docs| && docs[i].id == x { assert Mentions(Children(docs)[i], x, parse); }
    }
  }

  /** A manifest mentions the job's ids and nothing else, however often they occur in it. */
  lemma {:induction false} ManifestMentions(job: RefreshJob, parse: UuidParser, x: DocumentId)
    requires Canonical(job.documents, parse)
    ensures Mentions(ManifestOf(job), x, parse) <==>
            exists i :: 0 <= i < |job.documents| && job.documents[i].id == x
  {
    var m := ManifestOf(job);
    ManifestFields(job);
    RootMentions(job.documents, parse, x);
    assert !Mentions(m.fields["source_document_ids"], x, parse);
    assert forall k :: k in m.fields && k != "root" ==> !Mentions(m.fields[k], x, parse);
    var items := IdItems(job.documents);
    forall i | 0 <= i < |items| ensures ParseId(items[i], parse) == Some(job.documents[i].id) {
    }
    if i :| 0 <= i < |job.documents| && job.documents[i].id == x {
      assert ParseId(items[i], parse) == Some(x);
    }
  }

  lemma {:induction false} ManifestFields(job: RefreshJob)
    ensures var m := ManifestOf(job);
            && OwnIdAbsent(m)
            && SourceItems(m) == IdItems(job.documents)
            && "root" in m.fields && m.fields["root"] == Root(job.documents)
            && "source_document_ids" in m.fields && m.fields["source_document_ids"] == Arr(IdItems(job.documents))
            && (forall k :: k in m.fields && k != "root" && k != "source_document_ids" ==>
                  !m.fields[k].Obj? && !m.fields[k].Arr?)
  {
  }

  predicate OwnIdAbsent(v: Json) {
    Get(v, "document_id").None?
  }

  /** A distinct list that properly extends another has an element the other lacks. */
  lemma {:induction false} ExtensionAdds(a: seq<DocumentId>, b: seq<DocumentId>)
    requires a <= b && Distinct(b)
    ensures a == b || exists x :: x in b && x !in a
  {
    if |a| < |b| {
      var x := b[|a|];
      assert x in b && x !in a;
    }
  }

  /** On what the indexer builds, the collector returns the job's document ids, once each, in
      first-occurrence order. */
  method CollectFromJob(job: RefreshJob, parse: UuidParser) returns (r: seq<DocumentId>)
    requires Canonical(job.documents, parse)
    ensures r == FirstOccurrences(job.documents)
  {
    var m := Refresh(job).manifest;
    r := Collect(m, [], parse);
    ManifestFields(job);
    SourceIdsFirst(job.documents, parse);
    forall x | x in r ensures x in FirstOccurrences(job.documents) {
      ManifestMentions(job, parse, x);
    }
    ExtensionAdds(FirstOccurrences(job.documents), r);
  }
}
