/** The value-level part of `BM25Indexer` (qdrant.py:32-140): the BM25
    weight, the vocabulary fold of `_ensure_term`, the per-document records
    and the corpus aggregates they determine.

    The indexer keeps `df`, `N` and `doc_lens_total` as running counters;
    here they are also given as functions of the document map (`DfMap`,
    `|docs|`, `SumLens`), and the class invariant ties the counters to them.
    The weight is kept symbolic: `Weight(a, p, q)` stands for the float
    `ln(a) * p / q` that the source computes (qdrant.py:102-104), so no
    logarithm and no division by the BM25 denominator appear in the model. */
module Bm25 {
  import opened Tokenizer
  import opened Collections

  // ---------------------------------------------------------------------
  // Weights
  // ---------------------------------------------------------------------

  /** One emitted weight: ln(idfArgument) * tfNumerator / tfDenominator. */
  datatype Weight = Weight(idfArgument: real, tfNumerator: real, tfDenominator: real)

  /** Parallel id and weight lists (`tuple[list[int], list[float]]`). */
  datatype SparseVector = SparseVector(ids: seq<nat>, values: seq<Weight>)

  /** The corpus statistics one scoring pass reads. */
  datatype Scoring = Scoring(
    vocab: map<string, nat>, df: map<string, int>, n: int, avgdl: real, k1: real, b: real)

  /** `dict.get(key, 0)` on a counter. */
  function Get(m: map<string, int>, t: string): int {
    if t in m then m[t] else 0
  }

  /** `BM25Indexer.avgdl` (qdrant.py:54-56). */
  function Avgdl(total: int, n: int): (a: real)
    ensures n > 0 ==> a * n as real == total as real
    ensures n <= 0 ==> a == 1.0
  {
    if n > 0 then total as real / n as real else 1.0
  }

  /** `max(1.0, x)`. */
  function AtLeastOne(x: real): (r: real)
    ensures r >= 1.0 && r >= x && (r == 1.0 || r == x)
  {
    if 1.0 >= x then 1.0 else x
  }

  /** The argument of `math.log` in the idf (qdrant.py:102, 124). */
  function IdfArgument(n: int, dfT: int): real {
    1.0 + ((n - dfT) as real + 0.5) / (dfT as real + 0.5)
  }

  /** The weight of a term of frequency `freq` in a text of `docLen` tokens
      (qdrant.py:100-104 and 123-126). */
  function TermWeight(sc: Scoring, t: string, freq: nat, docLen: nat): Weight {
    Weight(
      IdfArgument(sc.n, Get(sc.df, t)),
      freq as real * (sc.k1 + 1.0),
      freq as real + sc.k1 * (1.0 - sc.b + sc.b * (docLen as real / AtLeastOne(sc.avgdl))))
  }

  /** With `df <= N` the log argument exceeds 1, so the idf is positive
      (the comment at qdrant.py:101). */
  lemma IdfArgumentAboveOne(n: int, dfT: int)
    requires 0 <= dfT <= n
    ensures IdfArgument(n, dfT) > 1.0
  {
    var num := (n - dfT) as real + 0.5;
    var den := dfT as real + 0.5;
    assert num > 0.0 && den > 0.0;
    assert num / den > 0.0;
  }

  /** With `freq >= 1`, `k1 > 0` and `0 <= b <= 1` both the numerator and the
      denominator of the term-frequency factor are positive. */
  lemma TermFactorPositive(sc: Scoring, t: string, freq: nat, docLen: nat)
    requires freq >= 1 && sc.k1 > 0.0 && 0.0 <= sc.b <= 1.0
    ensures TermWeight(sc, t, freq, docLen).tfNumerator > 0.0
    ensures TermWeight(sc, t, freq, docLen).tfDenominator >= freq as real
  {
    var ratio := docLen as real / AtLeastOne(sc.avgdl);
    assert ratio >= 0.0;
    var inner := 1.0 - sc.b + sc.b * ratio;
    assert sc.b * ratio >= 0.0;
    assert inner >= 0.0;
    assert sc.k1 * inner >= 0.0;
  }

  // ---------------------------------------------------------------------
  // The vocabulary (`_ensure_term`, qdrant.py:58-66)
  // ---------------------------------------------------------------------

  /** A vocabulary within its cap whose ids are distinct and are exactly
      0 .. |vocab|-1. */
  ghost predicate ValidVocab(vocab: map<string, nat>, cap: nat) {
    && |vocab| <= cap
    && (forall t | t in vocab :: vocab[t] < |vocab|)
    && (forall t, u | t in vocab && u in vocab && t != u :: vocab[t] != vocab[u])
    && (forall i | 0 <= i < |vocab| :: i in vocab.Values)
  }

  /** The vocabulary after `_ensure_term(t)`. */
  function AddTerm(vocab: map<string, nat>, cap: nat, t: string): map<string, nat> {
    if t in vocab || |vocab| >= cap then vocab else vocab[t := |vocab|]
  }

  /** The vocabulary after `_ensure_term` on each of `ts` in turn. */
  function AddTerms(vocab: map<string, nat>, cap: nat, ts: seq<string>): map<string, nat>
    decreases |ts|
  {
    if ts == [] then vocab
    else AddTerm(AddTerms(vocab, cap, ts[..|ts| - 1]), cap, ts[|ts| - 1])
  }

  /** `_ensure_term` keeps the vocabulary valid, never changes an existing
      id, and adds at most the one term it was given. */
  lemma AddTermValid(vocab: map<string, nat>, cap: nat, t: string)
    requires ValidVocab(vocab, cap)
    ensures ValidVocab(AddTerm(vocab, cap, t), cap)
    ensures forall u | u in vocab :: u in AddTerm(vocab, cap, t) && AddTerm(vocab, cap, t)[u] == vocab[u]
    ensures AddTerm(vocab, cap, t).Keys <= vocab.Keys + {t}
    ensures t in AddTerm(vocab, cap, t) || |vocab| == cap
  {
    if t !in vocab && |vocab| < cap {
      var w := vocab[t := |vocab|];
      assert |w| == |vocab| + 1;
      forall i | 0 <= i < |w| ensures i in w.Values {
        if i == |vocab| {
          assert w[t] == i;
        } else {
          assert i in vocab.Values;
          var u :| u in vocab && vocab[u] == i;
          assert w[u] == i;
        }
      }
    }
  }

  /** Folding `_ensure_term` over many terms keeps the vocabulary valid and
      never reassigns an id. */
  lemma {:induction false} AddTermsValid(vocab: map<string, nat>, cap: nat, ts: seq<string>)
    requires ValidVocab(vocab, cap)
    ensures ValidVocab(AddTerms(vocab, cap, ts), cap)
    ensures forall u | u in vocab :: u in AddTerms(vocab, cap, ts) && AddTerms(vocab, cap, ts)[u] == vocab[u]
    ensures forall u | u in AddTerms(vocab, cap, ts) :: u in vocab || u in ts
    decreases |ts|
  {
    if ts != [] {
      var init := ts[..|ts| - 1];
      var t := ts[|ts| - 1];
      var w := AddTerms(vocab, cap, init);
      AddTermsValid(vocab, cap, init);
      AddTermValid(w, cap, t);
      assert AddTerms(vocab, cap, ts) == AddTerm(w, cap, t);
      assert ts == init + [t];
      assert forall u | u in init :: u in ts;
    }
  }

  /** After the fold every term has an id, unless the vocabulary is full;
      the vocabulary only grows. */
  lemma {:induction false} AddTermsCovers(vocab: map<string, nat>, cap: nat, ts: seq<string>)
    ensures vocab.Keys <= AddTerms(vocab, cap, ts).Keys
    ensures forall t | t in ts :: t in AddTerms(vocab, cap, ts) || |AddTerms(vocab, cap, ts)| >= cap
    decreases |ts|
  {
    if ts != [] {
      var init := ts[..|ts| - 1];
      AddTermsCovers(vocab, cap, init);
      var w := AddTerms(vocab, cap, init);
      assert ts == init + [ts[|ts| - 1]];
      assert w.Keys <= AddTerm(w, cap, ts[|ts| - 1]).Keys;
      assert |w| <= |AddTerm(w, cap, ts[|ts| - 1])|;
    }
  }

  /** When every term already has an id or the vocabulary is full, the fold
      changes nothing. */
  lemma {:induction false} AddTermsStable(vocab: map<string, nat>, cap: nat, ts: seq<string>)
    requires forall t | t in ts :: t in vocab || |vocab| >= cap
    ensures AddTerms(vocab, cap, ts) == vocab
    decreases |ts|
  {
    if ts != [] {
      AddTermsStable(vocab, cap, ts[..|ts| - 1]);
    }
  }

  /** Ensuring the same terms twice assigns nothing new the second time. */
  lemma AddTermsIdempotent(vocab: map<string, nat>, cap: nat, ts: seq<string>)
    ensures AddTerms(AddTerms(vocab, cap, ts), cap, ts) == AddTerms(vocab, cap, ts)
  {
    AddTermsCovers(vocab, cap, ts);
    AddTermsStable(AddTerms(vocab, cap, ts), cap, ts);
  }

  // ---------------------------------------------------------------------
  // Scoring (the loops at qdrant.py:96-106 and 119-128)
  // ---------------------------------------------------------------------

  /** The keys that have a vocabulary id, in order: the others are skipped
      (`if idx is None: continue`). */
  function Scored(keys: seq<string>, vocab: map<string, nat>): (s: seq<string>)
    ensures forall t :: t in s <==> t in keys && t in vocab
    ensures |s| <= |keys|
    ensures (forall i, j | 0 <= i < j < |keys| :: keys[i] != keys[j]) ==>
              forall i, j | 0 <= i < j < |s| :: s[i] != s[j]
    decreases |keys|
  {
    if keys == [] then []
    else
      var init := keys[..|keys| - 1];
      var t := keys[|keys| - 1];
      assert keys == init + [t];
      Scored(init, vocab) + (if t in vocab then [t] else [])
  }

  /** Skipping the keys without an id keeps the others in their order:
      `Scored` of a concatenation is the concatenation of the parts. */
  lemma {:induction false} ScoredAppend(a: seq<string>, b: seq<string>, vocab: map<string, nat>)
    ensures Scored(a + b, vocab) == Scored(a, vocab) + Scored(b, vocab)
    decreases |b|
  {
    if b == [] {
      assert a + b == a;
    } else {
      var init := b[..|b| - 1];
      var t := b[|b| - 1];
      assert (a + b)[..|a + b| - 1] == a + init;
      assert (a + b)[|a + b| - 1] == t;
      ScoredAppend(a, init, vocab);
    }
  }

  /** The vector that the scoring loop appends, term by term. */
  function ScoreTerms(sc: Scoring, keys: seq<string>, freq: map<string, nat>, docLen: nat): (v: SparseVector)
    requires forall t | t in keys :: t in freq
    decreases |keys|
  {
    if keys == [] then SparseVector([], [])
    else
      var init := keys[..|keys| - 1];
      var t := keys[|keys| - 1];
      var v := ScoreTerms(sc, init, freq, docLen);
      if t in sc.vocab then SparseVector(v.ids + [sc.vocab[t]], v.values + [TermWeight(sc, t, freq[t], docLen)])
      else v
  }

  /** The emitted vector holds, in key order, one id and one weight for each
      key that has a vocabulary id: the id is that key's id and the weight
      the key's BM25 weight. */
  lemma {:induction false} ScoreTermsAt(sc: Scoring, keys: seq<string>, freq: map<string, nat>, docLen: nat)
    requires forall t | t in keys :: t in freq
    ensures |ScoreTerms(sc, keys, freq, docLen).ids| == |ScoreTerms(sc, keys, freq, docLen).values| == |Scored(keys, sc.vocab)|
    ensures forall k | 0 <= k < |Scored(keys, sc.vocab)| ::
              Scored(keys, sc.vocab)[k] in freq
              && ScoreTerms(sc, keys, freq, docLen).ids[k] == sc.vocab[Scored(keys, sc.vocab)[k]]
              && ScoreTerms(sc, keys, freq, docLen).values[k]
                 == TermWeight(sc, Scored(keys, sc.vocab)[k], freq[Scored(keys, sc.vocab)[k]], docLen)
    decreases |keys|
  {
    if keys != [] {
      var init := keys[..|keys| - 1];
      var t := keys[|keys| - 1];
      assert keys == init + [t];
      ScoreTermsAt(sc, init, freq, docLen);
      var s := Scored(keys, sc.vocab);
      forall k | 0 <= k < |s| ensures s[k] in freq {
        assert s[k] in s;
      }
    }
  }

  /** Ids of the emitted vector are distinct and below the vocabulary cap;
      every term of the text that has an id is emitted. */
  lemma ScoreTermsIds(sc: Scoring, cap: nat, c: Counter, docLen: nat)
    requires c.Valid() && ValidVocab(sc.vocab, cap)
    ensures forall k, l | 0 <= k < l < |ScoreTerms(sc, c.keys, c.freq, docLen).ids| ::
              ScoreTerms(sc, c.keys, c.freq, docLen).ids[k] != ScoreTerms(sc, c.keys, c.freq, docLen).ids[l]
    ensures forall k | 0 <= k < |ScoreTerms(sc, c.keys, c.freq, docLen).ids| ::
              ScoreTerms(sc, c.keys, c.freq, docLen).ids[k] < cap
    ensures forall t | t in c.freq && t in sc.vocab :: sc.vocab[t] in ScoreTerms(sc, c.keys, c.freq, docLen).ids
  {
    var v := ScoreTerms(sc, c.keys, c.freq, docLen);
    var s := Scored(c.keys, sc.vocab);
    ScoreTermsAt(sc, c.keys, c.freq, docLen);
    forall t | t in c.freq && t in sc.vocab ensures sc.vocab[t] in v.ids {
      assert t in s;
      var k :| 0 <= k < |s| && s[k] == t;
      assert v.ids[k] == sc.vocab[t];
    }
  }

  /** Every emitted weight has a log argument above 1 when each term's
      document frequency lies in 0..N, and a positive term-frequency factor
      when `k1 > 0` and `0 <= b <= 1`. */
  lemma ScoreTermsPositive(sc: Scoring, c: Counter, docLen: nat)
    requires c.Valid()
    requires forall t | t in c.freq :: 0 <= Get(sc.df, t) <= sc.n
    ensures forall k | 0 <= k < |ScoreTerms(sc, c.keys, c.freq, docLen).values| ::
              ScoreTerms(sc, c.keys, c.freq, docLen).values[k].idfArgument > 1.0
    ensures sc.k1 > 0.0 && 0.0 <= sc.b <= 1.0 ==>
              forall k | 0 <= k < |ScoreTerms(sc, c.keys, c.freq, docLen).values| ::
                ScoreTerms(sc, c.keys, c.freq, docLen).values[k].tfNumerator > 0.0
                && ScoreTerms(sc, c.keys, c.freq, docLen).values[k].tfDenominator > 0.0
  {
    var v := ScoreTerms(sc, c.keys, c.freq, docLen);
    var s := Scored(c.keys, sc.vocab);
    ScoreTermsAt(sc, c.keys, c.freq, docLen);
    forall k | 0 <= k < |v.values| ensures v.values[k].idfArgument > 1.0 {
      assert s[k] in s;
      IdfArgumentAboveOne(sc.n, Get(sc.df, s[k]));
    }
    if sc.k1 > 0.0 && 0.0 <= sc.b <= 1.0 {
      forall k | 0 <= k < |v.values|
        ensures v.values[k].tfNumerator > 0.0 && v.values[k].tfDenominator > 0.0
      {
        assert s[k] in s;
        TermFactorPositive(sc, s[k], c.freq[s[k]], docLen);
      }
    }
  }

  /** What a scoring pass over a consistent index emits for a counter: as
      many weights as ids, distinct ids below the cap that are ids of the
      vocabulary, every term with an id present, and positive weights. */
  lemma ScoreTermsFacts(vocab: map<string, nat>, cap: nat, docs: Docs, df: map<string, int>, n: int, total: int,
                        k1: real, b: real, c: Counter, docLen: nat)
    requires Consistent(vocab, cap, docs, df, n, total) && c.Valid()
    ensures var v := ScoreTerms(Scoring(vocab, df, n, Avgdl(total, n), k1, b), c.keys, c.freq, docLen);
      && |v.ids| == |v.values|
      && (forall k, l | 0 <= k < l < |v.ids| :: v.ids[k] != v.ids[l])
      && (forall k | 0 <= k < |v.ids| :: v.ids[k] < cap && v.ids[k] in vocab.Values)
      && (forall t | t in c.freq && t in vocab :: vocab[t] in v.ids)
      && (forall k | 0 <= k < |v.values| :: v.values[k].idfArgument > 1.0)
      && (k1 > 0.0 && 0.0 <= b <= 1.0 ==>
            forall k | 0 <= k < |v.values| :: v.values[k].tfNumerator > 0.0 && v.values[k].tfDenominator > 0.0)
  {
    var sc := Scoring(vocab, df, n, Avgdl(total, n), k1, b);
    var v := ScoreTerms(sc, c.keys, c.freq, docLen);
    ScoreTermsAt(sc, c.keys, c.freq, docLen);
    ScoreTermsIds(sc, cap, c, docLen);
    forall t | t in c.freq ensures 0 <= Get(df, t) <= n {
      DfMapAt(docs, t);
      DocFreqBounded(docs, t);
    }
    ScoreTermsPositive(sc, c, docLen);
    forall k | 0 <= k < |v.ids| ensures v.ids[k] in vocab.Values {
      var s := Scored(c.keys, vocab);
      assert s[k] in s;
    }
  }

  // ---------------------------------------------------------------------
  // Documents and corpus aggregates
  // ---------------------------------------------------------------------

  /** A value of `_docs`: the document's term counter and its token count. */
  datatype DocRecord = DocRecord(tf: Counter, len: nat)

  type Docs = map<string, DocRecord>

  /** The record `add_or_update` stores for a text (qdrant.py:69-71, 91). */
  function RecordOf(text: string): (r: DocRecord)
    ensures r.tf.Valid()
    ensures forall t :: t in r.tf.freq <==> t in Tokenize(text)
    ensures r.len == |Tokenize(text)|
  {
    var tokens := Tokenize(text);
    DocRecord(CountTokens(tokens), |tokens|)
  }

  /** The indexed documents whose counter contains `t`. */
  ghost function Containing(docs: Docs, t: string): set<string> {
    set d | d in docs && t in docs[d].tf.freq
  }

  /** The number of indexed documents containing `t`. */
  ghost function DocFreq(docs: Docs, t: string): nat {
    |Containing(docs, t)|
  }

  /** Every term occurring in some indexed document. */
  ghost function Terms(docs: Docs): set<string> {
    set d, t | d in docs && t in docs[d].tf.freq :: t
  }

  /** The document-frequency counter the documents determine: one entry per
      term that occurs, holding the number of documents containing it. */
  ghost function DfMap(docs: Docs): map<string, int> {
    map t | t in Terms(docs) :: DocFreq(docs, t)
  }

  /** The sum of the stored document lengths. */
  ghost function SumLens(docs: Docs): int
    decreases |docs|
  {
    if docs == map[] then 0
    else
      var d :| d in docs;
      docs[d].len + SumLens(docs - {d})
  }

  /** `DfMap` holds exactly the terms of positive document frequency, with
      that frequency: no entry at or below zero is kept. */
  lemma DfMapAt(docs: Docs, t: string)
    ensures t in DfMap(docs) <==> DocFreq(docs, t) > 0
    ensures Get(DfMap(docs), t) == DocFreq(docs, t)
  {
    if t in Terms(docs) {
      var d :| d in docs && t in docs[d].tf.freq;
      assert d in Containing(docs, t);
    } else {
      assert Containing(docs, t) == {};
    }
  }

  /** A counter agreeing with the document frequencies everywhere and
      holding no non-positive entry is `DfMap`. */
  lemma DfMapUnique(df: map<string, int>, docs: Docs)
    requires forall t :: Get(df, t) == DocFreq(docs, t)
    requires Positive(df)
    ensures df == DfMap(docs)
  {
    forall t ensures (t in df <==> t in DfMap(docs)) && Get(df, t) == Get(DfMap(docs), t) {
      DfMapAt(docs, t);
    }
    assert df.Keys == DfMap(docs).Keys;
  }

  /** Pointwise reading of `df == DfMap(docs)`. */
  lemma DfMapGet(docs: Docs)
    ensures forall t :: Get(DfMap(docs), t) == DocFreq(docs, t)
    ensures forall t | t in DfMap(docs) :: DfMap(docs)[t] > 0
  {
    forall t ensures Get(DfMap(docs), t) == DocFreq(docs, t) && (t in DfMap(docs) ==> DfMap(docs)[t] > 0) {
      DfMapAt(docs, t);
    }
  }

  /** A subset is no larger than its superset. */
  lemma {:induction false} SubsetCard(a: set<string>, b: set<string>)
    requires a <= b
    ensures |a| <= |b|
    decreases |b|
  {
    if a != {} {
      var x :| x in a;
      SubsetCard(a - {x}, b - {x});
    }
  }

  /** No term occurs in more documents than are indexed (`df <= N`). */
  lemma DocFreqBounded(docs: Docs, t: string)
    ensures DocFreq(docs, t) <= |docs|
  {
    SubsetCard(Containing(docs, t), docs.Keys);
  }

  /** A document containing `t` makes its document frequency positive. */
  lemma DocFreqPositive(docs: Docs, d: string, t: string)
    requires d in docs && t in docs[d].tf.freq
    ensures DocFreq(docs, t) >= 1
  {
    assert d in Containing(docs, t);
  }

  /** Every key of a stored record has a positive count in `DfMap`. */
  lemma StoredKeysCounted(docs: Docs, df: map<string, int>, d: string)
    requires df == DfMap(docs) && d in docs && docs[d].tf.Valid()
    ensures forall t | t in docs[d].tf.keys :: Get(df, t) >= 1
  {
    forall t | t in docs[d].tf.keys ensures Get(df, t) >= 1 {
      DfMapAt(docs, t);
      DocFreqPositive(docs, d, t);
    }
  }

  /** Removing the record of `d` takes its contribution out. */
  lemma DocFreqRemove(docs: Docs, d: string, t: string)
    ensures DocFreq(docs - {d}, t) ==
              DocFreq(docs, t) - (if d in docs && t in docs[d].tf.freq then 1 else 0)
  {
    var before := Containing(docs, t);
    var rest := docs - {d};
    var after := Containing(rest, t);
    assert after == before - {d} by {
      forall e ensures e in after <==> e in before && e != d {
        if e in rest { assert rest[e] == docs[e]; }
      }
    }
    if d in before {
      assert d !in after;
      assert before == after + {d};
    } else {
      assert after == before;
    }
  }

  /** Inserting a record for `d` adds `d` to the documents containing each
      of its terms and leaves the others' containing sets alone. */
  lemma ContainingInsert(docs: Docs, d: string, r: DocRecord, t: string)
    requires d !in docs
    ensures Containing(docs[d := r], t) == Containing(docs, t) + (if t in r.tf.freq then {d} else {})
  {
    var after := Containing(docs[d := r], t);
    forall e ensures e in after <==> e in Containing(docs, t) || (e == d && t in r.tf.freq) {
      if e != d && e in docs {
        assert docs[d := r][e] == docs[e];
      }
    }
  }

  /** Inserting a record for a new id `d` adds its contribution. */
  lemma DocFreqInsert(docs: Docs, d: string, r: DocRecord, t: string)
    requires d !in docs
    ensures DocFreq(docs[d := r], t) == DocFreq(docs, t) + (if t in r.tf.freq then 1 else 0)
  {
    ContainingInsert(docs, d, r, t);
    assert d !in Containing(docs, t);
  }

  /** Replacing or inserting the record of `d` moves each term's document
      frequency by the old record's contribution out and the new one's in. */
  lemma DocFreqUpdate(docs: Docs, d: string, r: DocRecord, t: string)
    ensures DocFreq(docs[d := r], t) ==
              DocFreq(docs, t)
              - (if d in docs && t in docs[d].tf.freq then 1 else 0)
              + (if t in r.tf.freq then 1 else 0)
  {
    SubtractThenUpdate(docs, d, r);
    DocFreqRemove(docs, d, t);
    DocFreqInsert(docs - {d}, d, r, t);
  }

  /** The length sum, with any one document taken out first. */
  lemma {:induction false} SumLensRemove(docs: Docs, d: string)
    requires d in docs
    ensures SumLens(docs) == docs[d].len + SumLens(docs - {d})
    decreases |docs|
  {
    var e :| e in docs && SumLens(docs) == docs[e].len + SumLens(docs - {e});
    if e != d {
      SubtractCommutes(docs, e, d);
      SumLensRemove(docs - {e}, d);
      SumLensRemove(docs - {d}, e);
    }
  }

  /** Replacing or inserting a record moves the length sum by the old
      length out and the new one in. */
  lemma SumLensUpdate(docs: Docs, d: string, r: DocRecord)
    ensures SumLens(docs[d := r]) == SumLens(docs) - (if d in docs then docs[d].len else 0) + r.len
  {
    SumLensRemove(docs[d := r], d);
    UpdateThenSubtract(docs, d, r);
    if d in docs {
      SumLensRemove(docs, d);
    } else {
      SubtractAbsent(docs, d);
    }
  }

  // ---------------------------------------------------------------------
  // The abstract index and its transitions
  // ---------------------------------------------------------------------

  /** What the indexer's state amounts to: the vocabulary and the document
      records. The counters `df`, `N` and `doc_lens_total` are functions of
      `docs` (`DfMap`, `|docs|`, `SumLens`). */
  datatype IndexState = IndexState(vocab: map<string, nat>, docs: Docs)

  /** The state after `add_or_update(docId, text)` (qdrant.py:68-91). */
  function Reindexed(s: IndexState, cap: nat, docId: string, text: string): IndexState {
    var r := RecordOf(text);
    IndexState(AddTerms(s.vocab, cap, r.tf.keys), s.docs[docId := r])
  }

  /** The state after `remove(docId)` (qdrant.py:131-140). */
  function Removed(s: IndexState, docId: string): IndexState {
    IndexState(s.vocab, s.docs - {docId})
  }

  /** No counter entry at or below zero is kept. */
  ghost predicate Positive(df: map<string, int>) {
    forall t | t in df :: df[t] > 0
  }

  /** `after` is `before` with every key's count moved by `delta`. */
  ghost predicate Shifted(after: map<string, int>, before: map<string, int>, keys: seq<string>, delta: int) {
    forall t :: Get(after, t) == Get(before, t) + (if t in keys then delta else 0)
  }

  /** The keys whose counts re-indexing `docId` first takes out. */
  function PrevKeys(docs: Docs, docId: string): seq<string> {
    if docId in docs then docs[docId].tf.keys else []
  }

  /** One pass of the decrement loops (qdrant.py:78-80, 136-138): the count
      drops by one and an entry at or below zero is deleted. */
  function Decrement(df: map<string, int>, t: string): map<string, int> {
    var count := Get(df, t) - 1;
    if count <= 0 then df - {t} else df[t := count]
  }

  /** `df` after the decrement loop over `keys`, in order. */
  function Uncounted(df: map<string, int>, keys: seq<string>): map<string, int>
    decreases |keys|
  {
    if keys == [] then df
    else Decrement(Uncounted(df, keys[..|keys| - 1]), keys[|keys| - 1])
  }

  /** `df` after the increment loop of qdrant.py:87-89 over `keys`. */
  function Counted(df: map<string, int>, keys: seq<string>): map<string, int>
    decreases |keys|
  {
    if keys == [] then df
    else
      var before := Counted(df, keys[..|keys| - 1]);
      var t := keys[|keys| - 1];
      before[t := Get(before, t) + 1]
  }

  /** No key occurs twice. */
  ghost predicate Distinct(keys: seq<string>) {
    forall i, j | 0 <= i < j < |keys| :: keys[i] != keys[j]
  }

  /** The last key of a distinct sequence is not among the others, and the
      others are again distinct. */
  lemma DistinctLast(keys: seq<string>)
    requires Distinct(keys) && keys != []
    ensures Distinct(keys[..|keys| - 1]) && keys[|keys| - 1] !in keys[..|keys| - 1]
    ensures forall t :: t in keys <==> t in keys[..|keys| - 1] || t == keys[|keys| - 1]
  {
    SplitLast(keys);
  }

  /** When every one of the distinct keys has a positive count, the
      decrement loop lowers exactly those counts by one and keeps no entry
      at or below zero. */
  lemma {:induction false} UncountedShifted(df: map<string, int>, keys: seq<string>)
    requires Distinct(keys) && Positive(df)
    requires forall t | t in keys :: Get(df, t) >= 1
    ensures Shifted(Uncounted(df, keys), df, keys, -1) && Positive(Uncounted(df, keys))
    decreases |keys|
  {
    if keys != [] {
      var init := keys[..|keys| - 1];
      DistinctLast(keys);
      UncountedShifted(df, init);
    }
  }

  /** The increment loop over distinct keys raises exactly those counts by
      one and keeps every entry positive. */
  lemma {:induction false} CountedShifted(df: map<string, int>, keys: seq<string>)
    requires Distinct(keys) && Positive(df)
    ensures Shifted(Counted(df, keys), df, keys, 1) && Positive(Counted(df, keys))
    decreases |keys|
  {
    if keys != [] {
      var init := keys[..|keys| - 1];
      DistinctLast(keys);
      CountedShifted(df, init);
    }
  }

  /** The bookkeeping invariant of `BM25Indexer`: the vocabulary is within
      its cap with ids 0..|vocab|-1, every stored counter is well formed,
      `df` is the per-term document frequency with no entry at or below zero,
      `n` the number of documents and `total` their summed lengths. */
  ghost predicate Consistent(vocab: map<string, nat>, cap: nat, docs: Docs, df: map<string, int>, n: int, total: int) {
    && ValidVocab(vocab, cap)
    && (forall d | d in docs :: docs[d].tf.Valid())
    && df == DfMap(docs)
    && Positive(df)
    && n == |docs|
    && total == SumLens(docs)
  }

  /** The counters `remove` leaves (qdrant.py:131-140) are again consistent:
      the decrement loop over the removed record's keys gives the document
      frequencies of the rest, `N` drops by one (so `max(0, N - 1)` is
      `N - 1`) and the record's length leaves the total. */
  lemma RemoveKeepsConsistent(vocab: map<string, nat>, cap: nat, docs: Docs, df: map<string, int>, n: int, total: int,
                              docId: string, docs1: Docs, df1: map<string, int>, n1: int, total1: int)
    requires Consistent(vocab, cap, docs, df, n, total) && docId in docs
    requires docs1 == docs - {docId} && df1 == Uncounted(df, docs[docId].tf.keys)
    requires n1 == (if n - 1 < 0 then 0 else n - 1) && total1 == total - docs[docId].len
    ensures n1 == n - 1
    ensures Consistent(vocab, cap, docs1, df1, n1, total1)
  {
    var keys := docs[docId].tf.keys;
    StoredKeysCounted(docs, df, docId);
    UncountedShifted(df, keys);
    RemoveDf(docs, df, docId, df1);
    RemoveRecords(docs, docId, docs1);
    SumLensRemove(docs, docId);
  }

  /** `df` after removing a record is the document frequency of the rest. */
  lemma RemoveDf(docs: Docs, df: map<string, int>, docId: string, df1: map<string, int>)
    requires df == DfMap(docs) && docId in docs && docs[docId].tf.Valid()
    requires Shifted(df1, df, docs[docId].tf.keys, -1) && Positive(df1)
    ensures df1 == DfMap(docs - {docId})
  {
    DfMapGet(docs);
    forall t ensures Get(df1, t) == DocFreq(docs - {docId}, t) {
      DocFreqRemove(docs, docId, t);
    }
    DfMapUnique(df1, docs - {docId});
  }

  /** Removing a record keeps the others well formed and the count drops
      by one. */
  lemma RemoveRecords(docs: Docs, docId: string, rest: Docs)
    requires docId in docs && rest == docs - {docId}
    requires forall d | d in docs :: docs[d].tf.Valid()
    ensures forall d | d in rest :: rest[d].tf.Valid()
    ensures |rest| == |docs| - 1
  {
    forall d | d in rest ensures rest[d].tf.Valid() {
      assert rest[d] == docs[d];
    }
    SubtractCard(docs, docId);
  }

  /** The counters `add_or_update` leaves (qdrant.py:68-91) are again
      consistent: the decrement loop over the old record's keys and then
      the increment loop over the new record's keys give the document
      frequencies of the new documents, `N` grows only for a new id and the
      length total swaps the old length for the new one. */
  lemma ReindexKeepsConsistent(vocab: map<string, nat>, cap: nat, docs: Docs, df: map<string, int>, n: int, total: int,
                               docId: string, r: DocRecord,
                               vocab1: map<string, nat>, docs1: Docs, df1: map<string, int>, n1: int, total1: int)
    requires Consistent(vocab, cap, docs, df, n, total) && r.tf.Valid()
    requires vocab1 == AddTerms(vocab, cap, r.tf.keys) && docs1 == docs[docId := r]
    requires df1 == Counted(Uncounted(df, PrevKeys(docs, docId)), r.tf.keys)
    requires n1 == n + (if docId in docs then 0 else 1)
    requires total1 == total - (if docId in docs then docs[docId].len else 0) + r.len
    ensures Consistent(vocab1, cap, docs1, df1, n1, total1)
  {
    if docId in docs {
      StoredKeysCounted(docs, df, docId);
    }
    var dfOut := Uncounted(df, PrevKeys(docs, docId));
    UncountedShifted(df, PrevKeys(docs, docId));
    CountedShifted(dfOut, r.tf.keys);
    ReindexDf(docs, df, docId, r, dfOut, df1);
    ReindexRecords(docs, docId, r, docs1);
    SumLensUpdate(docs, docId, r);
    AddTermsValid(vocab, cap, r.tf.keys);
  }

  /** `df` after re-indexing is the document frequency of the new documents. */
  lemma ReindexDf(docs: Docs, df: map<string, int>, docId: string, r: DocRecord, df1: map<string, int>, df2: map<string, int>)
    requires df == DfMap(docs)
    requires Shifted(df1, df, PrevKeys(docs, docId), -1)
    requires Shifted(df2, df1, r.tf.keys, 1) && Positive(df2)
    requires r.tf.Valid() && (docId in docs ==> docs[docId].tf.Valid())
    ensures df2 == DfMap(docs[docId := r])
  {
    DfMapGet(docs);
    forall t ensures Get(df2, t) == DocFreq(docs[docId := r], t) {
      DocFreqUpdate(docs, docId, r, t);
    }
    DfMapUnique(df2, docs[docId := r]);
  }

  /** Storing a well-formed record keeps every record well formed and grows
      the document count only for a new id. */
  lemma ReindexRecords(docs: Docs, docId: string, r: DocRecord, after: Docs)
    requires r.tf.Valid() && forall d | d in docs :: docs[d].tf.Valid()
    requires after == docs[docId := r]
    ensures forall d | d in after :: after[d].tf.Valid()
    ensures |after| == |docs| + (if docId in docs then 0 else 1)
  {
    forall d | d in after ensures after[d].tf.Valid() {
      if d != docId {
        assert after[d] == docs[d];
      }
    }
    UpdateCard(docs, docId, r);
  }

  /** Indexing the same (id, text) twice gives the state of indexing it once,
      and therefore the same `N`, `df` and length total. */
  lemma ReindexIdempotent(s: IndexState, cap: nat, docId: string, text: string)
    ensures Reindexed(Reindexed(s, cap, docId, text), cap, docId, text) == Reindexed(s, cap, docId, text)
  {
    AddTermsIdempotent(s.vocab, cap, RecordOf(text).tf.keys);
  }

  /** Removing a document and indexing it again leaves the statistics that
      indexing it in place would: nothing of the old record lingers. */
  lemma RemoveThenReindex(s: IndexState, cap: nat, docId: string, text: string)
    ensures Reindexed(Removed(s, docId), cap, docId, text) == Reindexed(s, cap, docId, text)
  {
    SubtractThenUpdate(s.docs, docId, RecordOf(text));
  }

  /** After removing a document, a term no other document contains is gone
      from `df`, and `N` is one less. */
  lemma RemoveForgetsUniqueTerms(s: IndexState, docId: string, t: string)
    requires docId in s.docs && t in s.docs[docId].tf.freq
    requires forall e | e in s.docs && e != docId :: t !in s.docs[e].tf.freq
    ensures t in DfMap(s.docs) && t !in DfMap(Removed(s, docId).docs)
    ensures |Removed(s, docId).docs| == |s.docs| - 1
  {
    DfMapAt(s.docs, t);
    DocFreqPositive(s.docs, docId, t);
    DfMapAt(s.docs - {docId}, t);
    assert Containing(s.docs - {docId}, t) == {};
  }

  /** Removing an unknown id changes nothing. */
  lemma RemoveUnknown(s: IndexState, docId: string)
    requires docId !in s.docs
    ensures Removed(s, docId) == s
  {
    SubtractAbsent(s.docs, docId);
  }
}
