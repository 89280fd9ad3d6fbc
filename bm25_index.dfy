/** `BM25Indexer` (qdrant.py:32-140): the in-memory term-statistics index
    whose `add_or_update`, `remove` and `_ensure_term` update its fields in
    place, and whose `transform` scores a query without changing anything. */
module Bm25Index {
  import opened Wrappers
  import opened Tokenizer
  import opened Bm25
  import opened Collections

  class BM25Indexer {
    const maxVocab: nat
    const k1: real
    const b: real
    var vocab: map<string, nat>
    var df: map<string, int>
    var n: int
    var docLensTotal: int
    var docs: map<string, DocRecord>

    /** The bookkeeping invariant (`Bm25.Consistent`) over the fields. */
    ghost predicate Valid()
      reads this
    {
      Consistent(vocab, maxVocab, docs, df, n, docLensTotal)
    }

    /** The statistics a scoring pass reads right now. */
    function Snapshot(): Scoring
      reads this
    {
      Scoring(vocab, df, n, Avgdl(docLensTotal, n), k1, b)
    }

    /** The sparse vector of a stored document under the current statistics. */
    function DocVector(docId: string): SparseVector
      reads this
      requires Valid() && docId in docs
    {
      ScoreTerms(Snapshot(), docs[docId].tf.keys, docs[docId].tf.freq, docs[docId].len)
    }

    /** What `transform(text)` returns under the current statistics. */
    function QueryVector(text: string): SparseVector
      reads this
    {
      var c := CountTokens(Tokenize(text));
      if n == 0 then SparseVector([], [])
      else ScoreTerms(Snapshot(), c.keys, c.freq, |Tokenize(text)|)
    }

    /** `__init__` (qdrant.py:40-49), with the source's defaults. */
    constructor (maxVocab: nat := 32768, k1: real := 1.5, b: real := 0.75)
      ensures Valid()
      ensures this.maxVocab == maxVocab && this.k1 == k1 && this.b == b
      ensures vocab == map[] && df == map[] && n == 0 && docLensTotal == 0 && docs == map[]
    {
      this.maxVocab := maxVocab;
      this.k1 := k1;
      this.b := b;
      vocab := map[];
      df := map[];
      n := 0;
      docLensTotal := 0;
      docs := map[];
      new;
      assert Terms(map[]) == {};
    }

    /** `_ensure_term` (qdrant.py:58-66): a known term keeps its id and
        changes nothing; a new term below the cap gets the next id
        `len(vocab)`; at the cap the answer is None and nothing changes
        (`Bm25.AddTermValid` shows the vocabulary stays valid). */
    method EnsureTerm(term: string) returns (id: Option<nat>)
      modifies this`vocab
      ensures vocab == AddTerm(old(vocab), maxVocab, term)
      ensures term in old(vocab) ==> id == Some(old(vocab)[term])
      ensures term !in old(vocab) && |old(vocab)| < maxVocab ==> id == Some(|old(vocab)|)
      ensures term !in old(vocab) && |old(vocab)| >= maxVocab ==> id == None
      ensures id.Some? ==> term in vocab && vocab[term] == id.value
    {
      if term in vocab {
        return Some(vocab[term]);
      }
      if |vocab| >= maxVocab {
        return None;
      }
      var idx := |vocab|;
      vocab := vocab[term := idx];
      return Some(idx);
    }

    /** The decrement loops of qdrant.py:77-80 and 135-138, one key after
        the other (`Bm25.UncountedShifted` says what they amount to). */
    method Uncount(keys: seq<string>)
      modifies this`df
      ensures df == Uncounted(old(df), keys)
    {
      var i := 0;
      while i < |keys|
        invariant 0 <= i <= |keys|
        invariant df == Uncounted(old(df), keys[..i])
      {
        var term := keys[i];
        PrefixOfPrefix(keys, i);
        var count := Get(df, term) - 1;
        if count <= 0 {
          df := df - {term};
        } else {
          df := df[term := count];
        }
        i := i + 1;
      }
      PrefixAll(keys);
    }

    /** The counting loop of qdrant.py:86-89: every key gains one document
        and is offered to `_ensure_term` (`Bm25.CountedShifted`). */
    method Count(keys: seq<string>)
      modifies this`df, this`vocab
      ensures df == Counted(old(df), keys)
      ensures vocab == AddTerms(old(vocab), maxVocab, keys)
    {
      var j := 0;
      while j < |keys|
        invariant 0 <= j <= |keys|
        invariant df == Counted(old(df), keys[..j])
        invariant vocab == AddTerms(old(vocab), maxVocab, keys[..j])
      {
        var term := keys[j];
        PrefixOfPrefix(keys, j);
        df := df[term := Get(df, term) + 1];
        var unusedId := EnsureTerm(term);
        j := j + 1;
      }
      PrefixAll(keys);
    }

    /** The scoring loop of qdrant.py:94-106 (repeated at 115-128): for each
        term of the counter that has a vocabulary id, append that id and the
        term's weight under the current statistics. */
    method Score(tf: Counter, docLen: nat) returns (ids: seq<nat>, values: seq<Weight>)
      requires tf.Valid()
      ensures SparseVector(ids, values) == ScoreTerms(Snapshot(), tf.keys, tf.freq, docLen)
    {
      ids, values := [], [];
      ghost var sc := Snapshot();
      var i := 0;
      while i < |tf.keys|
        invariant 0 <= i <= |tf.keys|
        invariant SparseVector(ids, values) == ScoreTerms(sc, tf.keys[..i], tf.freq, docLen)
      {
        var term := tf.keys[i];
        ghost var prefix := tf.keys[..i + 1];
        PrefixOfPrefix(tf.keys, i);
        ghost var before := ScoreTerms(sc, tf.keys[..i], tf.freq, docLen);
        if term in vocab {
          var idx := vocab[term];
          var dfT := Get(df, term);
          var w := Weight(
            1.0 + ((n - dfT) as real + 0.5) / (dfT as real + 0.5),
            tf.freq[term] as real * (k1 + 1.0),
            tf.freq[term] as real + k1 * (1.0 - b + b * (docLen as real / AtLeastOne(Avgdl(docLensTotal, n)))));
          assert w == TermWeight(sc, term, tf.freq[term], docLen);
          assert ScoreTerms(sc, prefix, tf.freq, docLen) == SparseVector(before.ids + [idx], before.values + [w]);
          ids := ids + [idx];
          values := values + [w];
        } else {
          assert ScoreTerms(sc, prefix, tf.freq, docLen) == before;
        }
        i := i + 1;
      }
      PrefixAll(tf.keys);
    }

    /** The counter updates of `add_or_update` (qdrant.py:73-91): a stored
        record's keys each lose one document and its length leaves the
        total, a new id instead counts one more document; then the new
        record's keys each gain one and the record is stored. */
    method Reindex(docId: string, r: DocRecord)
      modifies this`vocab, this`df, this`n, this`docLensTotal, this`docs
      ensures vocab == AddTerms(old(vocab), maxVocab, r.tf.keys)
      ensures docs == old(docs)[docId := r]
      ensures df == Counted(Uncounted(old(df), PrevKeys(old(docs), docId)), r.tf.keys)
      ensures n == old(n) + (if docId in old(docs) then 0 else 1)
      ensures docLensTotal == old(docLensTotal) - (if docId in old(docs) then old(docs)[docId].len else 0) + r.len
    {
      if docId in docs {
        var prev := docs[docId];
        Uncount(prev.tf.keys);
        docLensTotal := docLensTotal - prev.len;
      } else {
        n := n + 1;
      }
      Count(r.tf.keys);
      docLensTotal := docLensTotal + r.len;
      docs := docs[docId := r];
    }

    /** `add_or_update` (qdrant.py:68-108): re-indexes the document, first
        taking out the old record's contribution, and returns the document's
        sparse vector under the updated statistics. The new vocabulary and
        documents are those of `Reindexed` on the old ones. */
    method AddOrUpdate(docId: string, text: string) returns (ids: seq<nat>, values: seq<Weight>)
      requires Valid()
      modifies this
      ensures Valid()
      ensures vocab == AddTerms(old(vocab), maxVocab, RecordOf(text).tf.keys)
      ensures docs == old(docs)[docId := RecordOf(text)]
      ensures df == Counted(Uncounted(old(df), PrevKeys(old(docs), docId)), RecordOf(text).tf.keys)
      ensures n == old(n) + (if docId in old(docs) then 0 else 1)
      ensures docLensTotal == old(docLensTotal) - (if docId in old(docs) then old(docs)[docId].len else 0) + |Tokenize(text)|
      ensures SparseVector(ids, values) == DocVector(docId)
      ensures |ids| == |values|
      ensures forall k, l | 0 <= k < l < |ids| :: ids[k] != ids[l]
      ensures forall k | 0 <= k < |ids| :: ids[k] < maxVocab && ids[k] in vocab.Values
      ensures forall t | t in Tokenize(text) && t in vocab :: vocab[t] in ids
      ensures forall k | 0 <= k < |values| :: values[k].idfArgument > 1.0
      ensures k1 > 0.0 && 0.0 <= b <= 1.0 ==>
                forall k | 0 <= k < |values| :: values[k].tfNumerator > 0.0 && values[k].tfDenominator > 0.0
    {
      var r := RecordOf(text);
      ghost var vocab0, docs0, df0, n0, total0 := vocab, docs, df, n, docLensTotal;
      Reindex(docId, r);
      ReindexKeepsConsistent(vocab0, maxVocab, docs0, df0, n0, total0, docId, r, vocab, docs, df, n, docLensTotal);
      ids, values := Score(r.tf, r.len);
      ScoreTermsFacts(vocab, maxVocab, docs, df, n, docLensTotal, k1, b, r.tf, r.len);
    }

    /** `transform` (qdrant.py:110-129): scores a query against the current
        statistics. It changes nothing (it has no `modifies` clause), returns
        `([], [])` whenever `N == 0`, and otherwise returns one entry per
        distinct query token that has a vocabulary id. */
    method Transform(text: string) returns (ids: seq<nat>, values: seq<Weight>)
      requires Valid()
      ensures SparseVector(ids, values) == QueryVector(text)
      ensures n == 0 ==> ids == [] && values == []
      ensures |ids| == |values|
      ensures forall k, l | 0 <= k < l < |ids| :: ids[k] != ids[l]
      ensures forall k | 0 <= k < |ids| :: ids[k] < maxVocab
      ensures n != 0 ==> forall t | t in Tokenize(text) && t in vocab :: vocab[t] in ids
      ensures forall k | 0 <= k < |ids| :: ids[k] in vocab.Values
      ensures forall k | 0 <= k < |values| :: values[k].idfArgument > 1.0
      ensures k1 > 0.0 && 0.0 <= b <= 1.0 ==>
                forall k | 0 <= k < |values| :: values[k].tfNumerator > 0.0 && values[k].tfDenominator > 0.0
    {
      var tokens := Tokenize(text);
      var tf := CountTokens(tokens);
      var docLen := |tokens|;
      if n == 0 {
        return [], [];
      }
      ids, values := Score(tf, docLen);
      ScoreTermsFacts(vocab, maxVocab, docs, df, n, docLensTotal, k1, b, tf, docLen);
    }

    /** `remove` (qdrant.py:131-140): an unknown id is a no-op; otherwise the
        record is deleted, its `df` and length contribution reversed and `N`
        set to `max(0, N - 1)`. The vocabulary never changes. The new
        vocabulary and documents are those of `Removed` on the old ones. */
    method Remove(docId: string)
      requires Valid()
      modifies this
      ensures Valid()
      ensures vocab == old(vocab) && docs == old(docs) - {docId}
      ensures df == (if docId in old(docs) then Uncounted(old(df), old(docs)[docId].tf.keys) else old(df))
      ensures n == old(n) - (if docId in old(docs) then 1 else 0)
      ensures docLensTotal == old(docLensTotal) - (if docId in old(docs) then old(docs)[docId].len else 0)
    {
      if docId !in docs {
        SubtractAbsent(docs, docId);
        return;
      }
      ghost var docs0, df0, n0, total0 := docs, df, n, docLensTotal;
      Pop(docId);
      RemoveKeepsConsistent(vocab, maxVocab, docs0, df0, n0, total0, docId, docs, df, n, docLensTotal);
    }

    /** The body of `remove` for a stored id (qdrant.py:134-140): the record
        is popped, its keys each lose one document, its length leaves the
        total and `N` becomes `max(0, N - 1)`. */
    method Pop(docId: string)
      requires docId in docs
      modifies this`docs, this`df, this`docLensTotal, this`n
      ensures docs == old(docs) - {docId}
      ensures df == Uncounted(old(df), old(docs)[docId].tf.keys)
      ensures docLensTotal == old(docLensTotal) - old(docs)[docId].len
      ensures n == (if old(n) - 1 < 0 then 0 else old(n) - 1)
    {
      var prev := docs[docId];
      docs := docs - {docId};
      Uncount(prev.tf.keys);
      docLensTotal := docLensTotal - prev.len;
      n := if n - 1 < 0 then 0 else n - 1;
    }
  }
}
