/** The decision logic of `QdrantConnector` (qdrant.py:143-444): which
    collection a call goes to, what it sends to the Qdrant server, when it
    gives up and when the hybrid search falls back to a dense search.

    Every call into the Qdrant client and the embedding provider is an
    outcome taken from a `Backend` value: a function of the request that
    says what the server or the provider answered, `None` or `false` where
    the call raised. The point id that `store` draws from `uuid.uuid4()` is
    a parameter. An exception that the source lets propagate is a `Failure`
    of the method's result; the fallbacks of `find_hybrid` are the
    `DenseFallback` case of `HybridResult`. */
module Qdrant {
  import opened Wrappers
  import opened Json
  import opened Tokenizer
  import opened Bm25
  import opened Bm25Index

  /** `Entry` (qdrant.py:20-27). */
  datatype Entry = Entry(content: string, metadata: Option<Metadata>, id: Option<string>)

  /** `models.Fusion`. */
  datatype Fusion = RRF | DBSF

  /** A query filter (`models.Filter(**query_filter)`), kept as the JSON
      object it was built from. */
  datatype Filter = Filter(spec: Metadata)

  /** A named vector of a point or the query of a prefetch. */
  datatype VectorValue = Dense(vector: seq<real>) | Sparse(sparse: SparseVector)

  /** `models.Prefetch(query=..., using=..., limit=...)`. */
  datatype Prefetch = Prefetch(query: VectorValue, using: string, limit: int)

  /** The fused `query_points` call of `find_hybrid` (qdrant.py:418-424). */
  datatype FusedQuery = FusedQuery(
    collection: string, prefetch: seq<Prefetch>, fusion: Fusion, limit: int, filter: Option<Filter>)

  /** The dense `search` call `find_hybrid` falls back to. */
  datatype SearchQuery = SearchQuery(query: string, collection: string, limit: int, filter: Option<Filter>)

  /** A point of a `query_points` answer; the id is `str(result.id)`. */
  datatype ScoredPoint = ScoredPoint(id: string, payload: Option<Metadata>)

  /** `models.PointStruct(id=..., vector=..., payload=...)`. */
  datatype PointStruct = PointStruct(id: string, vectors: map<string, VectorValue>, payload: Metadata)

  /** The `upsert` call of `store` and `update`. */
  datatype Upsert = Upsert(collection: string, points: seq<PointStruct>)

  /** The `delete` call of `delete`, with its `PointIdsList`. */
  datatype Deletion = Deletion(collection: string, points: seq<string>)

  /** What `find_hybrid` ends with: `[]` before any search, the entries of
      the fused query it sent, or the dense search it fell back to. */
  datatype HybridResult =
    | NoResults
    | Fused(request: FusedQuery, entries: seq<Entry>)
    | DenseFallback(search: SearchQuery)

  /** The exceptions that leave `store`, `update` and `delete`. */
  datatype Error =
    | NoCollectionName        // `assert collection_name is not None`
    | CollectionSetupFailed   // `_ensure_collection_exists` raised
    | EmbeddingFailed         // the embedding provider raised
    | PointNotFound(id: string)
    | UpsertFailed
    | DeleteFailed

  /** What the Qdrant server and the embedding provider answer. */
  datatype Backend = Backend(
    collectionExists: string -> bool,
    ensureCollection: string -> bool,
    embedQuery: string -> Option<seq<real>>,
    embedDocument: string -> Option<seq<real>>,
    queryPoints: FusedQuery -> Option<seq<ScoredPoint>>,
    pointExists: (string, string) -> bool,
    upsert: Upsert -> bool,
    deletePoints: Deletion -> bool)

  /** `collection_name or self._default_collection_name`: an absent or
      empty name gives the default. */
  function ResolveCollection(given: Option<string>, default: Option<string>): (r: Option<string>)
    ensures given.Some? && given.value != "" ==> r == given
    ensures given.None? || given.value == "" ==> r == default
    ensures r.None? <==> (given.None? || given.value == "") && default.None?
  {
    match given
    case Some(name) => if name != "" then given else default
    case None => default
  }

  /** The fusion of qdrant.py:412-416: RRF exactly when the lower-cased
      method is "rrf", DBSF for anything else. */
  function SelectFusion(fusionMethod: string): (f: Fusion)
    ensures f == RRF <==> Lower(fusionMethod) == "rrf"
  {
    if Lower(fusionMethod) == "rrf" then RRF else DBSF
  }

  /** The choice ignores case: any spelling gives what its lower case gives. */
  lemma SelectFusionIgnoresCase(fusionMethod: string)
    ensures SelectFusion(Lower(fusionMethod)) == SelectFusion(fusionMethod)
  {
    LowerIdempotent(fusionMethod);
  }

  /** The two documented names and the default. */
  lemma SelectFusionNames()
    ensures SelectFusion("rrf") == RRF && SelectFusion("RRF") == RRF
    ensures SelectFusion("dbsf") == DBSF && SelectFusion("") == DBSF
  {
    assert Lower("RRF") == "rrf";
  }

  /** The prefetch list of qdrant.py:370-398 and the fused query of
      qdrant.py:418-424: the dense prefetch always, then a sparse prefetch
      on the "sparse" vector only when the BM25 query vector has ids. */
  function HybridRequest(collection: string, vectorName: string, embedding: seq<real>, sparse: SparseVector,
                         fusionMethod: string, denseLimit: int, sparseLimit: int, finalLimit: int,
                         filter: Option<Filter>): (q: FusedQuery)
    ensures |q.prefetch| == (if sparse.ids == [] then 1 else 2)
    ensures q.prefetch[0] == Prefetch(Dense(embedding), vectorName, denseLimit)
    ensures |q.prefetch| == 2 ==> q.prefetch[1] == Prefetch(Sparse(sparse), "sparse", sparseLimit)
    ensures q.collection == collection && q.limit == finalLimit && q.filter == filter
    ensures q.fusion == RRF <==> Lower(fusionMethod) == "rrf"
  {
    var dense := [Prefetch(Dense(embedding), vectorName, denseLimit)];
    var prefetch := if sparse.ids != [] then dense + [Prefetch(Sparse(sparse), "sparse", sparseLimit)] else dense;
    FusedQuery(collection, prefetch, SelectFusion(fusionMethod), finalLimit, filter)
  }

  /** The entry of one fused point (qdrant.py:426-433). An absent or empty
      payload gives content "" and no metadata; otherwise the payload must
      hold a string "document" and a "metadata" that is absent, null or an
      object, and anything else makes `Entry(...)` raise (`None` here). */
  function PointEntry(p: ScoredPoint): (r: Option<Entry>)
    ensures p.payload.None? || p.payload.value == map[] ==> r == Some(Entry("", None, Some(p.id)))
    ensures r.Some? ==> r.value.id == Some(p.id)
    ensures r.Some? && p.payload.Some? && p.payload.value != map[] ==>
              "document" in p.payload.value && p.payload.value["document"] == Str(r.value.content)
    ensures p.payload.Some? && p.payload.value != map[] ==>
              (r.Some? <==> && "document" in p.payload.value && p.payload.value["document"].Str?
                            && ("metadata" !in p.payload.value || p.payload.value["metadata"].Null?
                                || p.payload.value["metadata"].Object?))
    ensures r.Some? && p.payload.Some? && p.payload.value != map[] ==>
              r.value.metadata == (if "metadata" in p.payload.value && p.payload.value["metadata"].Object?
                                   then Some(p.payload.value["metadata"].fields) else None)
  {
    match p.payload
    case None => Some(Entry("", None, Some(p.id)))
    case Some(payload) =>
      if payload == map[] then Some(Entry("", None, Some(p.id)))
      else if "document" !in payload || !payload["document"].Str? then None
      else
        var content := payload["document"].s;
        if "metadata" !in payload || payload["metadata"].Null? then Some(Entry(content, None, Some(p.id)))
        else if payload["metadata"].Object? then Some(Entry(content, Some(payload["metadata"].fields), Some(p.id)))
        else None
  }

  /** The list comprehension of qdrant.py:426-433: every point in order, or
      `None` as soon as one of them makes `Entry(...)` raise. */
  function PointsEntries(points: seq<ScoredPoint>): (r: Option<seq<Entry>>)
    ensures r.Some? <==> forall i | 0 <= i < |points| :: PointEntry(points[i]).Some?
    ensures r.Some? ==> |r.value| == |points|
    ensures r.Some? ==> forall i | 0 <= i < |points| :: r.value[i] == PointEntry(points[i]).value
  {
    if points == [] then Some([])
    else
      match PointEntry(points[0])
      case None => None
      case Some(e) =>
        match PointsEntries(points[1..])
        case None => None
        case Some(rest) => Some([e] + rest)
  }

  /** The payload `store` and `update` write: the text under "document" and
      the metadata (or null) under `METADATA_PATH` (qdrant.py:202, 246). */
  function EntryPayload(entry: Entry): (p: Metadata)
    ensures p.Keys == {"document", "metadata"}
    ensures p["document"] == Str(entry.content)
    ensures entry.metadata.None? <==> p["metadata"] == Null
  {
    map["document" := Str(entry.content),
        "metadata" := match entry.metadata case None => Null case Some(m) => Object(m)]
  }

  /** A point written by `store` or `update` reads back as the entry it was
      written from, with the point's id. */
  lemma PayloadRoundTrip(entry: Entry, id: string)
    ensures PointEntry(ScoredPoint(id, Some(EntryPayload(entry)))) == Some(Entry(entry.content, entry.metadata, Some(id)))
  {
    var p := EntryPayload(entry);
    assert "document" in p;
  }

  /** The vectors of a written point (qdrant.py:203-205, 247-249): the dense
      embedding under the provider's vector name, and the BM25 vector under
      "sparse" only when it has ids. */
  function PointVectors(vectorName: string, embedding: seq<real>, sparse: SparseVector): (v: map<string, VectorValue>)
    ensures sparse.ids == [] ==> v == map[vectorName := Dense(embedding)]
    ensures sparse.ids != [] ==> v.Keys == {vectorName, "sparse"} && v["sparse"] == Sparse(sparse)
    ensures vectorName != "sparse" ==> v[vectorName] == Dense(embedding)
    ensures "sparse" in v && v["sparse"].Sparse? <==> sparse.ids != []
  {
    var dense := map[vectorName := Dense(embedding)];
    if sparse.ids != [] then dense["sparse" := Sparse(sparse)] else dense
  }

  /** The upsert of one point. */
  function PointUpsert(collection: string, id: string, vectorName: string, embedding: seq<real>,
                       sparse: SparseVector, entry: Entry): (u: Upsert)
    ensures u.collection == collection && |u.points| == 1 && u.points[0].id == id
    ensures u.points[0].payload == EntryPayload(entry)
    ensures u.points[0].vectors == PointVectors(vectorName, embedding, sparse)
  {
    Upsert(collection, [PointStruct(id, PointVectors(vectorName, embedding, sparse), EntryPayload(entry))])
  }

  class QdrantConnector {
    /** `collection_name` of `__init__`. */
    const defaultCollection: Option<string>
    /** `embedding_provider.get_vector_name()`. */
    const vectorName: string
    /** `self._bm25`. */
    const bm25: BM25Indexer

    ghost predicate Valid()
      reads this, bm25
    {
      bm25.Valid()
    }

    /** `__init__` (qdrant.py:154-172): a fresh, empty BM25 index. */
    constructor (defaultCollection: Option<string>, vectorName: string)
      ensures Valid() && fresh(bm25)
      ensures this.defaultCollection == defaultCollection && this.vectorName == vectorName
      ensures bm25.docs == map[] && bm25.vocab == map[]
      ensures bm25.maxVocab == 32768 && bm25.k1 == 1.5 && bm25.b == 0.75
    {
      this.defaultCollection := defaultCollection;
      this.vectorName := vectorName;
      bm25 := new BM25Indexer();
    }

    /** `find_hybrid` (qdrant.py:334-444). It changes nothing. Without a
        collection name, or when the collection does not exist, the answer
        is `[]`. When embedding the query, the fused query or reading its
        points raises, the answer is the dense search with `final_limit`.
        Otherwise it is the entries of the fused query of `HybridRequest`,
        whose sparse prefetch is `transform(query)`. */
    method FindHybrid(backend: Backend, query: string, collectionName: Option<string> := None,
                      fusionMethod: string := "rrf", denseLimit: int := 20, sparseLimit: int := 20,
                      finalLimit: int := 10, filter: Option<Filter> := None)
      returns (res: HybridResult)
      requires Valid()
      ensures ResolveCollection(collectionName, defaultCollection).None? ==> res == NoResults
      ensures ResolveCollection(collectionName, defaultCollection).Some? ==>
        var name := ResolveCollection(collectionName, defaultCollection).value;
        var fallback := DenseFallback(SearchQuery(query, name, finalLimit, filter));
        if !backend.collectionExists(name) then res == NoResults
        else match backend.embedQuery(query)
          case None => res == fallback
          case Some(embedding) =>
            var request := HybridRequest(name, vectorName, embedding, bm25.QueryVector(query),
                                         fusionMethod, denseLimit, sparseLimit, finalLimit, filter);
            match backend.queryPoints(request)
            case None => res == fallback
            case Some(points) =>
              match PointsEntries(points)
              case None => res == fallback
              case Some(entries) => res == Fused(request, entries)
    {
      var name := ResolveCollection(collectionName, defaultCollection);
      if name.None? {
        return NoResults;
      }
      if !backend.collectionExists(name.value) {
        return NoResults;
      }
      var fallback := DenseFallback(SearchQuery(query, name.value, finalLimit, filter));
      var embedding := backend.embedQuery(query);
      if embedding.None? {
        return fallback;
      }
      var sparseIds, sparseValues := bm25.Transform(query);
      var request := HybridRequest(name.value, vectorName, embedding.value, SparseVector(sparseIds, sparseValues),
                                   fusionMethod, denseLimit, sparseLimit, finalLimit, filter);
      var points := backend.queryPoints(request);
      if points.None? {
        return fallback;
      }
      var entries := PointsEntries(points.value);
      if entries.None? {
        return fallback;
      }
      return Fused(request, entries.value);
    }

    /** `store` (qdrant.py:182-216). Without a collection name, or when
        creating the collection or embedding the text raises, it stops
        before the BM25 index is touched. Otherwise the text is indexed under
        the fresh id and the point is upserted with the document's sparse
        vector; an upsert that raises leaves the index already updated. */
    method Store(backend: Backend, entry: Entry, collectionName: Option<string>, pointId: string)
      returns (r: Result<Upsert, Error>)
      requires Valid()
      modifies bm25
      ensures Valid()
      ensures ResolveCollection(collectionName, defaultCollection).None? ==>
                r == Failure(NoCollectionName) && unchanged(bm25)
      ensures ResolveCollection(collectionName, defaultCollection).Some? ==>
        var name := ResolveCollection(collectionName, defaultCollection).value;
        if !backend.ensureCollection(name) then r == Failure(CollectionSetupFailed) && unchanged(bm25)
        else match backend.embedDocument(entry.content)
          case None => r == Failure(EmbeddingFailed) && unchanged(bm25)
          case Some(embedding) =>
            && Indexed(old(bm25.vocab), old(bm25.docs), pointId, entry.content)
            && var u := PointUpsert(name, pointId, vectorName, embedding, bm25.DocVector(pointId), entry);
               r == if backend.upsert(u) then Success(u) else Failure(UpsertFailed)
    {
      var name := ResolveCollection(collectionName, defaultCollection);
      if name.None? {
        return Failure(NoCollectionName);
      }
      if !backend.ensureCollection(name.value) {
        return Failure(CollectionSetupFailed);
      }
      var embedding := backend.embedDocument(entry.content);
      if embedding.None? {
        return Failure(EmbeddingFailed);
      }
      r := IndexAndUpsert(backend, name.value, pointId, embedding.value, entry);
    }

    /** `update` (qdrant.py:218-260). Without a collection name it stops;
        an id the collection does not hold raises "not found" before the
        text is embedded or the BM25 index touched. Otherwise the text is
        re-indexed under the same id and the point upserted as by `store`. */
    method Update(backend: Backend, pointId: string, entry: Entry, collectionName: Option<string>)
      returns (r: Result<Upsert, Error>)
      requires Valid()
      modifies bm25
      ensures Valid()
      ensures ResolveCollection(collectionName, defaultCollection).None? ==>
                r == Failure(NoCollectionName) && unchanged(bm25)
      ensures ResolveCollection(collectionName, defaultCollection).Some? ==>
        var name := ResolveCollection(collectionName, defaultCollection).value;
        if !backend.pointExists(name, pointId) then r == Failure(PointNotFound(pointId)) && unchanged(bm25)
        else match backend.embedDocument(entry.content)
          case None => r == Failure(EmbeddingFailed) && unchanged(bm25)
          case Some(embedding) =>
            && Indexed(old(bm25.vocab), old(bm25.docs), pointId, entry.content)
            && var u := PointUpsert(name, pointId, vectorName, embedding, bm25.DocVector(pointId), entry);
               r == if backend.upsert(u) then Success(u) else Failure(UpsertFailed)
    {
      var name := ResolveCollection(collectionName, defaultCollection);
      if name.None? {
        return Failure(NoCollectionName);
      }
      if !backend.pointExists(name.value, pointId) {
        return Failure(PointNotFound(pointId));
      }
      var embedding := backend.embedDocument(entry.content);
      if embedding.None? {
        return Failure(EmbeddingFailed);
      }
      r := IndexAndUpsert(backend, name.value, pointId, embedding.value, entry);
    }

    /** The BM25 index holds exactly the given text under `pointId`, on top
        of the documents it held before. */
    ghost predicate Indexed(vocab0: map<string, nat>, docs0: Docs, pointId: string, text: string)
      reads bm25
    {
      && bm25.vocab == AddTerms(vocab0, bm25.maxVocab, RecordOf(text).tf.keys)
      && bm25.docs == docs0[pointId := RecordOf(text)]
    }

    /** The tail shared by `store` and `update` (qdrant.py:194-216,
        238-260): index the text, then upsert the point. */
    method IndexAndUpsert(backend: Backend, name: string, pointId: string, embedding: seq<real>, entry: Entry)
      returns (r: Result<Upsert, Error>)
      requires Valid()
      modifies bm25
      ensures Valid()
      ensures Indexed(old(bm25.vocab), old(bm25.docs), pointId, entry.content)
      ensures var u := PointUpsert(name, pointId, vectorName, embedding, bm25.DocVector(pointId), entry);
              r == if backend.upsert(u) then Success(u) else Failure(UpsertFailed)
    {
      var sparseIds, sparseValues := bm25.AddOrUpdate(pointId, entry.content);
      var vectors := map[vectorName := Dense(embedding)];
      if sparseIds != [] {
        vectors := vectors["sparse" := Sparse(SparseVector(sparseIds, sparseValues))];
      }
      var u := Upsert(name, [PointStruct(pointId, vectors, EntryPayload(entry))]);
      if !backend.upsert(u) {
        return Failure(UpsertFailed);
      }
      return Success(u);
    }

    /** `delete` (qdrant.py:262-283). Without a collection name it stops; an
        id the collection does not hold raises "not found"; otherwise the
        point is deleted from the collection. It changes nothing here: the
        BM25 index keeps the document's record and statistics. */
    method Delete(backend: Backend, pointId: string, collectionName: Option<string>)
      returns (r: Result<Deletion, Error>)
      ensures ResolveCollection(collectionName, defaultCollection).None? ==> r == Failure(NoCollectionName)
      ensures ResolveCollection(collectionName, defaultCollection).Some? ==>
        var name := ResolveCollection(collectionName, defaultCollection).value;
        var d := Deletion(name, [pointId]);
        r == if !backend.pointExists(name, pointId) then Failure(PointNotFound(pointId))
             else if backend.deletePoints(d) then Success(d)
             else Failure(DeleteFailed)
    {
      var name := ResolveCollection(collectionName, defaultCollection);
      if name.None? {
        return Failure(NoCollectionName);
      }
      if !backend.pointExists(name.value, pointId) {
        return Failure(PointNotFound(pointId));
      }
      var d := Deletion(name.value, [pointId]);
      if !backend.deletePoints(d) {
        return Failure(DeleteFailed);
      }
      return Success(d);
    }
  }
}
