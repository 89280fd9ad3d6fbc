# mcp-server-qdrant: the BM25 index and the hybrid-search decisions, in Dafny

This project models the part of mcp-server-qdrant that decides things.

- `BM25Indexer` is the in-memory term-statistics index. It computes BM25 sparse vectors for stored documents and for queries.
- `QdrantConnector` sends notes to a Qdrant collection and searches them. The model covers its decisions: which collection a call uses, what request it builds, and when it gives up or falls back to a plain dense search.
- `QdrantMCPServer` and `QdrantSettings` contribute the small pure pieces around these.

Each file is one module:

| file | module | what it holds |
|---|---|---|
| `wrappers.dfy` | `Wrappers` | `Option` and `Result` |
| `json.dfy` | `Json` | JSON values, used for point payloads and note metadata |
| `collections.dfy` | `Collections` | small map and sequence facts |
| `tokenizer.dfy` | `Tokenizer` | `_tokenize` (ASCII) and `Counter(tokens)` |
| `bm25.dfy` | `Bm25` | value-level part of the index: weights, the vocabulary fold, the decrement and increment folds over `df`, the corpus aggregates as functions of the document map, the class invariant `Consistent` and the lemmas that every operation keeps it |
| `bm25_index.dfy` | `Bm25Index` | class `BM25Indexer`; its fields are updated in place by loops, as in the source |
| `connector.dfy` | `Qdrant` | `QdrantConnector`, with every network and embedding call taken from a `Backend` value |
| `settings.dfy` | `Settings` | the filterable-field dictionaries and the local-path check |
| `server.dfy` | `McpServer` | the provider-argument check, note metadata, `format_entry`, result shaping and read-only tool gating |

## How the index is modelled

The class invariant `Valid()` (`Bm25.Consistent`) ties the running counters to the documents. It says:

- `df` is `DfMap(docs)`: one entry per term that occurs, holding the number of documents containing it, and no entry at or below zero.
- `N` is `|docs|`.
- `doc_lens_total` is `SumLens(docs)`, the sum of the stored lengths.
- The vocabulary is within `max_vocab`, and its ids are exactly `0..|vocab|-1`.

The model follows the source's structure:

- **Loops.**
  - The decrement loops are `Uncount`; the increment loop is `Count`; the scoring loop is `Score`.
  - Each loop is proved against a fold function:
    - `Uncounted` for the decrement loop;
    - `Counted` and `AddTerms` for the increment loop;
    - `ScoreTerms` for the scoring loop.
  - Lemmas then state what each fold means:
    - `UncountedShifted` and `CountedShifted`: every key's count moves by exactly one.
    - `ScoreTermsFacts`: the emitted vector has distinct ids below the cap and positive weights.
- **`add_or_update` and `remove`.** Their field updates are `Reindex` and `Pop`. `ReindexKeepsConsistent` and `RemoveKeepsConsistent` prove that the invariant survives.
- **Weights.** A BM25 weight is kept symbolic. `Weight(a, p, q)` stands for `ln(a) * p / q`: no logarithm is taken and no float is computed.

## Model

| member | source | states |
|---|---|---|
| Json.StrArray | src/mcp_server_qdrant/mcp_server.py:188-189 | a list of strings becomes a JSON array of the same length holding those strings in order |
| Tokenizer.LowerChar | src/mcp_server_qdrant/qdrant.py:52 | ASCII lower-casing of one character: upper case is shifted by 32, everything else is kept, and word characters stay word characters |
| Tokenizer.Lower | src/mcp_server_qdrant/qdrant.py:52 | `text.lower()` keeps the length and lower-cases each character |
| Tokenizer.LowerIdempotent | src/mcp_server_qdrant/qdrant.py:52 | lower-casing twice is lower-casing once |
| Tokenizer.WordLength | src/mcp_server_qdrant/qdrant.py:52 | the run of `\w` characters at the start of a string is maximal |
| Tokenizer.Words | src/mcp_server_qdrant/qdrant.py:52 | `re.findall(r"\w+", s)` yields non-empty runs of word characters, and nothing for a text without one |
| Tokenizer.Tokenize | src/mcp_server_qdrant/qdrant.py:51-52 | every token is a non-empty lower-case run of word characters; a text without word characters has no tokens |
| Tokenizer.WordsComplete | src/mcp_server_qdrant/qdrant.py:52 | every maximal run of word characters (bounded by non-word characters or the ends) is one of the words |
| Tokenizer.WordsLength | src/mcp_server_qdrant/qdrant.py:52 | the words' lengths add up to the number of word characters |
| Tokenizer.WordsAllWord | src/mcp_server_qdrant/qdrant.py:52 | a non-empty string of word characters only is one word, itself |
| Tokenizer.WordsSplit | src/mcp_server_qdrant/qdrant.py:52 | a non-word character splits the text: the words of `a + [c] + b` are the words of `a` followed by the words of `b`; with `WordsAllWord` and the empty string this fixes the words of every text as its maximal runs of word characters, left to right |
| Tokenizer.TokenizeComplete | src/mcp_server_qdrant/qdrant.py:51-52 | every maximal run of word characters of the text, lower-cased, is a token |
| Tokenizer.TokenizeLength | src/mcp_server_qdrant/qdrant.py:51-52 | the tokens' lengths add up to the number of word characters of the text |
| Tokenizer.TokenizeSplit | src/mcp_server_qdrant/qdrant.py:51-52 | a non-word character splits the tokens the same way: the tokens of `a + [c] + b` are those of `a` followed by those of `b` |
| Tokenizer.TokenizeOneWord | src/mcp_server_qdrant/qdrant.py:51-52 | a non-empty text of word characters only is one token, its lower-case form |
| Tokenizer.CountTokens | src/mcp_server_qdrant/qdrant.py:70 | `Counter(tokens)` has distinct keys, exactly the tokens, each with a count of at least one |
| Tokenizer.CountTokensCounts | src/mcp_server_qdrant/qdrant.py:70 | each key is counted as often as it occurs among the tokens |
| Tokenizer.CountTokensOrder | src/mcp_server_qdrant/qdrant.py:70 | the keys come in the order of the tokens' first occurrences, which fixes the order `_ensure_term` hands out ids (qdrant.py:87-89) and the order of the emitted lists (qdrant.py:96) |
| Bm25.Avgdl | src/mcp_server_qdrant/qdrant.py:54-56 | the average length times `N` is the length total when `N > 0`; otherwise the average is 1.0 |
| Bm25.AtLeastOne | src/mcp_server_qdrant/qdrant.py:103 | `max(1.0, avgdl)` is at least 1 and at least `avgdl`, and is one of them |
| Bm25.IdfArgumentAboveOne | src/mcp_server_qdrant/qdrant.py:100-102 | with `0 <= df <= N`, the argument `1 + (N - df + 0.5) / (df + 0.5)` of the logarithm is above 1 |
| Bm25.TermFactorPositive | src/mcp_server_qdrant/qdrant.py:103-104 | with `freq >= 1`, `k1 > 0` and `0 <= b <= 1`, the numerator is positive and the denominator is at least `freq` |
| Bm25.AddTermValid | src/mcp_server_qdrant/qdrant.py:58-66 | `_ensure_term` keeps the ids `0..|vocab|-1`, distinct and within the cap; it never changes an existing id and adds at most the given term |
| Bm25.AddTermsValid | src/mcp_server_qdrant/qdrant.py:86-89 | ensuring a sequence of terms keeps the vocabulary valid, never reassigns an id, and adds only those terms |
| Bm25.AddTermsCovers | src/mcp_server_qdrant/qdrant.py:86-89 | afterwards every term has an id unless the cap is reached, and the vocabulary only grows |
| Bm25.AddTermsStable | src/mcp_server_qdrant/qdrant.py:86-89 | when every term already has an id, or the vocabulary is full, nothing changes |
| Bm25.AddTermsIdempotent | src/mcp_server_qdrant/qdrant.py:86-89 | ensuring the same terms twice is ensuring them once |
| Bm25.Scored | src/mcp_server_qdrant/qdrant.py:94-98 | the emitted terms are exactly the keys that have a vocabulary id (`if idx is None: continue`), with no repeats |
| Bm25.ScoredAppend | src/mcp_server_qdrant/qdrant.py:96-99 | skipping keys keeps the rest in their order: the scored keys of a concatenation are those of its parts, concatenated |
| Bm25.ScoreTermsAt | src/mcp_server_qdrant/qdrant.py:94-106 | the ids and values lists have equal length; entry k holds the id and the BM25 weight of the k-th key that has an id |
| Bm25.ScoreTermsIds | src/mcp_server_qdrant/qdrant.py:94-106 | emitted ids are distinct and below the cap, and every term of the text that has an id is emitted |
| Bm25.ScoreTermsPositive | src/mcp_server_qdrant/qdrant.py:100-104 | with each `df` in `0..N`, every weight has a log argument above 1; with `k1 > 0` and `0 <= b <= 1`, every weight has a positive numerator and denominator |
| Bm25.ScoreTermsFacts | src/mcp_server_qdrant/qdrant.py:94-129 | over a consistent index, a scoring pass emits distinct ids below the cap that are vocabulary ids, includes every term that has an id, and emits positive weights |
| Bm25.RecordOf | src/mcp_server_qdrant/qdrant.py:69-71 | the stored record is a well-formed counter of exactly the text's tokens, with length `len(tokens)` |
| Bm25.DfMapAt | src/mcp_server_qdrant/qdrant.py:77-80 | the document-frequency counter holds a term exactly when some document contains it, with that number of documents |
| Bm25.DocFreqBounded | src/mcp_server_qdrant/qdrant.py:101 | no term occurs in more than `N` documents (`df <= N`) |
| Bm25.StoredKeysCounted | src/mcp_server_qdrant/qdrant.py:77-80 | under the invariant, every key of a stored record has a count of at least one in `df` |
| Bm25.DocFreqRemove | src/mcp_server_qdrant/qdrant.py:135-138 | removing a record lowers by one exactly the frequencies of its terms |
| Bm25.DocFreqUpdate | src/mcp_server_qdrant/qdrant.py:77-88 | replacing a record takes out the old record's terms and adds the new record's, each by one |
| Bm25.SumLensRemove | src/mcp_server_qdrant/qdrant.py:139 | the length total minus a record's length is the total of the other records |
| Bm25.SumLensUpdate | src/mcp_server_qdrant/qdrant.py:74-91 | replacing a record swaps its old length for the new one in the total |
| Bm25.UncountedShifted | src/mcp_server_qdrant/qdrant.py:77-80 | when each distinct key has a positive count, the decrement loop lowers exactly those counts by one and deletes the entries that reach zero |
| Bm25.CountedShifted | src/mcp_server_qdrant/qdrant.py:87-88 | the increment loop raises exactly the counts of the distinct keys by one, and every entry stays positive |
| Bm25.RemoveKeepsConsistent | src/mcp_server_qdrant/qdrant.py:131-140 | after `remove` of a stored id: `df` is the document frequency of the remaining documents, `N` is one less (so `max(0, N - 1)` is `N - 1`), and the length total is that of the rest |
| Bm25.ReindexKeepsConsistent | src/mcp_server_qdrant/qdrant.py:68-91 | after `add_or_update`: `df` is the document frequency of the new documents; this holds also for terms refused by the vocabulary cap. `N` grows only for a new id, the length total is the new documents' total, and the vocabulary stays valid |
| Bm25.ReindexIdempotent | src/mcp_server_qdrant/qdrant.py:68-91 | indexing the same (id, text) twice gives the vocabulary and documents of indexing it once, and so the same `N`, `df` and length total |
| Bm25.RemoveThenReindex | src/mcp_server_qdrant/qdrant.py:131-140 | removing a document and indexing it again gives the state that re-indexing in place gives |
| Bm25.RemoveForgetsUniqueTerms | src/mcp_server_qdrant/qdrant.py:135-138 | a term only the removed document contained leaves `df`, and `N` drops by one |
| Bm25.RemoveUnknown | src/mcp_server_qdrant/qdrant.py:132-133 | removing an id that is not stored changes nothing |
| Bm25Index.BM25Indexer.constructor | src/mcp_server_qdrant/qdrant.py:40-49 | a new index is empty and consistent, with the given `max_vocab`, `k1` and `b` (defaults 32768, 1.5, 0.75) |
| Bm25Index.BM25Indexer.EnsureTerm | src/mcp_server_qdrant/qdrant.py:58-66 | a known term returns its id and changes nothing; a new term below the cap gets `len(vocab)`; at the cap, None and no change |
| Bm25Index.BM25Indexer.Uncount | src/mcp_server_qdrant/qdrant.py:77-80 | the decrement loop leaves `df` as the fold `Uncounted` over the keys |
| Bm25Index.BM25Indexer.Count | src/mcp_server_qdrant/qdrant.py:86-89 | the increment loop leaves `df` as `Counted` over the keys, and the vocabulary as `_ensure_term` folded over them |
| Bm25Index.BM25Indexer.Score | src/mcp_server_qdrant/qdrant.py:94-106 | the appending loop returns exactly `ScoreTerms` of the counter under the current statistics |
| Bm25Index.BM25Indexer.Reindex | src/mcp_server_qdrant/qdrant.py:73-91 | the counter updates of `add_or_update`: the old keys are decremented, `N` grows only for a new id, the lengths are swapped, the new keys are counted and the record is stored |
| Bm25Index.BM25Indexer.AddOrUpdate | src/mcp_server_qdrant/qdrant.py:68-108 | keeps the invariant and leaves the state of `Reindexed`. The returned vector is the stored document's vector under the new statistics: equal lengths, distinct ids below the cap, every token with an id present, positive weights |
| Bm25Index.BM25Indexer.Transform | src/mcp_server_qdrant/qdrant.py:110-129 | changes nothing. Returns `([], [])` when `N == 0`; otherwise the query's vector, with equal lengths, distinct vocabulary ids below the cap, every query token with an id present, and positive weights |
| Bm25Index.BM25Indexer.Remove | src/mcp_server_qdrant/qdrant.py:131-140 | an unknown id is a no-op. Otherwise the record is deleted, its keys decremented, its length subtracted and `N` lowered by one. The vocabulary never changes and the invariant is kept |
| Bm25Index.BM25Indexer.Pop | src/mcp_server_qdrant/qdrant.py:134-140 | the pop, the decrement loop, the length subtraction and `N = max(0, N - 1)` for a stored id |
| Qdrant.ResolveCollection | src/mcp_server_qdrant/qdrant.py:356-358 | `collection_name or default`: a non-empty name is used; an absent or empty one gives the default; the result is None exactly when both are missing |
| Qdrant.SelectFusion | src/mcp_server_qdrant/qdrant.py:412-416 | RRF exactly when the lower-cased method is "rrf", DBSF otherwise |
| Qdrant.SelectFusionIgnoresCase | src/mcp_server_qdrant/qdrant.py:414 | any spelling selects what its lower case selects |
| Qdrant.SelectFusionNames | src/mcp_server_qdrant/qdrant.py:412-416 | "rrf" and "RRF" select RRF; "dbsf" and "" select DBSF |
| Qdrant.HybridRequest | src/mcp_server_qdrant/qdrant.py:370-424 | the dense prefetch always comes first; a sparse prefetch on "sparse" follows exactly when the sparse ids are non-empty. The collection, `final_limit`, filter and fusion are as given |
| Qdrant.PointEntry | src/mcp_server_qdrant/qdrant.py:426-431 | no or empty payload gives content "" and no metadata. Otherwise `Entry(...)` succeeds exactly when "document" is a string and "metadata" is absent, null or an object. The content is then that string, and the metadata is the object or None. The id is always the point's id |
| Qdrant.PointsEntries | src/mcp_server_qdrant/qdrant.py:426-433 | all points become entries in order, or the comprehension raises when one point does |
| Qdrant.EntryPayload | src/mcp_server_qdrant/qdrant.py:202 | the payload has exactly "document" (the text) and "metadata" (null when there is none) |
| Qdrant.PayloadRoundTrip | src/mcp_server_qdrant/qdrant.py:426-431 | a written payload reads back as the entry it was written from, with the point's id |
| Qdrant.PointVectors | src/mcp_server_qdrant/qdrant.py:203-205 | the dense vector is stored under the provider's name; the "sparse" key is present exactly when the sparse ids are non-empty |
| Qdrant.PointUpsert | src/mcp_server_qdrant/qdrant.py:207-216 | one point with the given id, vectors and payload is upserted into the collection |
| Qdrant.QdrantConnector.constructor | src/mcp_server_qdrant/qdrant.py:154-172 | the connector starts with a fresh, empty BM25 index with `max_vocab` 32768, `k1` 1.5 and `b` 0.75 |
| Qdrant.QdrantConnector.FindHybrid | src/mcp_server_qdrant/qdrant.py:356-444 | with the defaults `fusion_method` "rrf", `dense_limit` 20, `sparse_limit` 20, `final_limit` 10: `[]` without a collection or when the collection is missing; the dense-search fallback with `final_limit` when embedding, querying or reading points raises; otherwise the fused request with the query's BM25 vector, and its entries |
| Qdrant.QdrantConnector.Store | src/mcp_server_qdrant/qdrant.py:182-216 | with no collection, a failed collection setup or a failed embedding, the call stops and the index is untouched. Otherwise the text is indexed under the new id and the point upserted with the document's sparse vector |
| Qdrant.QdrantConnector.Update | src/mcp_server_qdrant/qdrant.py:218-260 | a point the collection does not hold raises "not found" before embedding and before the index is touched; otherwise the call re-indexes and upserts as `store` does |
| Qdrant.QdrantConnector.IndexAndUpsert | src/mcp_server_qdrant/qdrant.py:242-260 | the text is indexed (as `Reindexed`), and the upserted point carries the dense vector, the sparse vector when it has ids, and the payload |
| Qdrant.QdrantConnector.Delete | src/mcp_server_qdrant/qdrant.py:262-283 | no collection or an unknown point is an error; otherwise the point id is deleted from the collection, and the BM25 index is left as it is |
| Settings.ByName | src/mcp_server_qdrant/settings.py:134 | the keys are exactly the fields' names, and each key maps to a field of that name |
| Settings.ByNameLastWins | src/mcp_server_qdrant/settings.py:134 | a later field with the same name overwrites an earlier one |
| Settings.WithCondition | src/mcp_server_qdrant/settings.py:139-143 | exactly the fields whose condition is not None |
| Settings.WithConditionAppend | src/mcp_server_qdrant/settings.py:139-143 | filtering keeps the fields in their order: the filter of a concatenation is the concatenation of the filtered parts |
| Settings.WithConditionLastWins | src/mcp_server_qdrant/settings.py:139-143 | in the conditional dictionary, a name maps to the last field with a condition that carries it; later fields without a condition do not displace it |
| Settings.FilterableFieldsDict | src/mcp_server_qdrant/settings.py:131-134 | `{}` without fields; otherwise one entry per field name, holding a field of that name |
| Settings.FilterableFieldsDictWithConditions | src/mcp_server_qdrant/settings.py:136-143 | `{}` without fields; otherwise only fields with a condition, drawn from the list and keyed by name |
| Settings.WithConditionsSubset | src/mcp_server_qdrant/settings.py:136-143 | the conditional keys are a subset of all keys |
| Settings.CheckLocalPathConflict | src/mcp_server_qdrant/settings.py:145-152 | raises exactly when a non-empty local path meets a location or an API key; otherwise returns the settings unchanged |
| McpServer.ChooseProvider | src/mcp_server_qdrant/mcp_server.py:44-64 | both or neither provider argument is refused with the source's message; otherwise the one given is used |
| McpServer.NoteMetadata | src/mcp_server_qdrant/mcp_server.py:179-193 | "context", "type" and "created_at" always, with the given values; each optional field exactly when it is not None; no other keys |
| McpServer.IdText | src/mcp_server_qdrant/mcp_server.py:86 | the id, or "" when it is None or empty |
| McpServer.MetadataText | src/mcp_server_qdrant/mcp_server.py:85 | "" for None or empty metadata, otherwise its serialisation |
| McpServer.FormatEntry | src/mcp_server_qdrant/mcp_server.py:81-87 | the rendering's length is the three field texts plus the 64 characters of tags |
| McpServer.FormatEntryFields | src/mcp_server_qdrant/mcp_server.py:87 | the id, the content and the metadata text can be read back at fixed offsets between their tags |
| McpServer.ShapeResults | src/mcp_server_qdrant/mcp_server.py:326-333 | None for no entries; otherwise the header followed by one rendered entry per result, in order |
| McpServer.FindContent | src/mcp_server_qdrant/mcp_server.py:326-333 | `find`'s answer: None exactly when there are no entries; otherwise the line "Results for the query '<query>'" followed by one rendered entry per result, in order |
| McpServer.HybridFindContent | src/mcp_server_qdrant/mcp_server.py:387-395 | `hybrid_find`'s answer: None exactly when there are no entries; otherwise the line "Hybrid search results for '<query>' (fusion: <method>)" followed by one rendered entry per result, in order |
| McpServer.ParseFilter | src/mcp_server_qdrant/mcp_server.py:316 | an absent or empty filter is no filter; otherwise the filter is built from the given object |
| McpServer.RegisteredTools | src/mcp_server_qdrant/mcp_server.py:429-452 | the search tool always comes first; the three note tools appear exactly when the server is not read-only; no "qdrant-store" and no duplicate |
| McpServer.ReadOnlyToolsPrefix | src/mcp_server_qdrant/mcp_server.py:435-452 | a read-only server offers only the search tool, a prefix of what a writable server offers |

Design choices:

- **Fusion matching.** The code lower-cases the fusion method before comparing it with "rrf" (qdrant.py:414), so "RRF" selects reciprocal-rank fusion. The model follows the code.
- **Helpers without their own row.** Some helpers and specification functions have no row: `Get`, `IdfArgument`, `TermWeight`, `AddTerm`, `AddTerms`, `ScoreTerms`, `Decrement`, `Uncounted`, `Counted`, `DfMap`, `SumLens`, `Reindexed`, `Removed`, `DocVector`, `QueryVector`, `FindHeader`, `HybridFindHeader`, `IsRun`, `WordChars`, `TotalLength`, `FirstIndex` and `InFirstOrder`, and the small proof steps beside them. The members in the table are stated in their terms.

## Left out

What is not modelled:

- Floating point and `math.log`. Weights are the symbolic `Weight(a, p, q)`, and `k1`, `b` and the average length are reals.
- Unicode. `\w` and `str.lower()` are modelled for ASCII only.
- A negative `max_vocab`. It is a `nat` here; in the source a negative cap would refuse every term.
- Every network and embedding call: `collection_exists`, `create_collection`, `retrieve`, `query_points`, `upsert`, `delete`, `embed_query` and `embed_documents`. Each is an outcome of a `Backend` value, read as "answered" or "raised".
- Exceptions that `collection_exists` (qdrant.py:360) and `retrieve` (qdrant.py:232, 273) raise themselves. They propagate out of `find_hybrid`, `update` and `delete` in the source; here those calls only answer yes or no.
- The body of `_ensure_collection_exists` (qdrant.py:446-481). It is collection set-up; only whether it raised is modelled.
- `uuid.uuid4().hex` in `store`. The point id is a parameter.
- `str(result.id)`. The point id is taken as already a string.
- `embeddings[0]` on an empty embedding list. The provider's answer is the first embedding.
- `search` (qdrant.py:285-331). It checks that the collection exists (returning `[]` otherwise), embeds the query, runs a dense `query_points` and builds entries from `payload["document"]`, raising when a point has no document. These are client and embedding-provider calls. `find_hybrid` calls it from its exception handler (qdrant.py:439-444), so a raise there leaves `find_hybrid`. The model records only the request of that fallback (`DenseFallback(SearchQuery(...))`), not its answer and not that it can fail.
- `get_collection_names`. It is a single client call.
- Bm25Index.BM25Indexer.Transform: the `except` around `transform` in `find_hybrid` (qdrant.py:399-409) cannot fire in the model, because `transform` cannot raise here.
- Logging, and async scheduling. The model is sequential.
- `json.dumps` in `format_entry`. It is a parameter `dumps`.
- The messages that `add_note`, `update_note` and `delete_note` return, and their calls into the connector (mcp_server.py:195-198, 271-274, 291-293). They are string formatting and the connector calls modelled above.
- FastMCP registration, `wrap_filters`, `make_partial_function` and `make_indexes` (mcp_server.py:397-427). They are library glue. Only the set of registered tool names is modelled.
- `create_embedding_provider`. The chosen provider source is returned instead of a provider object.
- Pydantic and `BaseSettings` environment loading and field validation, and the `qdrant_url.rstrip("/")` in the connector's constructor.
