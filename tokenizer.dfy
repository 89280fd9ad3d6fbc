/** Tokenisation and term counting of `BM25Indexer` (qdrant.py:51-52, 69-71).

    The source tokenises with `re.findall(r"\w+", text.lower())`. This model
    restricts both steps to ASCII: a word character is a letter, a digit or
    `_`, and lower-casing maps `A`..`Z` to `a`..`z` and leaves every other
    character alone. `Counter(tokens)` becomes the `Counter` datatype: its
    keys in first-occurrence order (the iteration order of a Python
    `Counter`) and the frequency of each key. */
module Tokenizer {
  import opened Collections

  predicate IsWordChar(c: char) {
    ('a' <= c <= 'z') || ('A' <= c <= 'Z') || ('0' <= c <= '9') || c == '_'
  }

  predicate IsUpper(c: char) {
    'A' <= c <= 'Z'
  }

  /** ASCII `str.lower()` on one character. */
  function LowerChar(c: char): (r: char)
    ensures !IsUpper(r)
    ensures IsWordChar(r) <==> IsWordChar(c)
    ensures IsUpper(c) ==> r as int == c as int + 32
    ensures !IsUpper(c) ==> r == c
  {
    if IsUpper(c) then (c as int + 32) as char else c
  }

  /** ASCII `str.lower()`. */
  function Lower(s: string): (r: string)
    ensures |r| == |s|
    ensures forall i | 0 <= i < |s| :: r[i] == LowerChar(s[i])
  {
    seq(|s|, i requires 0 <= i < |s| => LowerChar(s[i]))
  }

  /** Lower-casing twice is lower-casing once. */
  lemma LowerIdempotent(s: string)
    ensures Lower(Lower(s)) == Lower(s)
  {
  }

  /** Length of the run of word characters at the start of `s`. */
  function WordLength(s: string): (k: nat)
    ensures k <= |s|
    ensures forall i | 0 <= i < k :: IsWordChar(s[i])
    ensures k < |s| ==> !IsWordChar(s[k])
  {
    if s == [] || !IsWordChar(s[0]) then 0 else 1 + WordLength(s[1..])
  }

  /** A token as `\w+` matches it in lower-cased text: a non-empty run of
      word characters none of which is upper case. */
  predicate IsToken(w: string) {
    |w| > 0 && forall i | 0 <= i < |w| :: IsWordChar(w[i]) && !IsUpper(w[i])
  }

  /** The maximal runs of word characters of `s`, left to right
      (`re.findall(r"\w+", s)`). */
  function Words(s: string): (ws: seq<string>)
    ensures forall w | w in ws :: |w| > 0 && forall i | 0 <= i < |w| :: IsWordChar(w[i])
    ensures (forall i | 0 <= i < |s| :: !IsWordChar(s[i])) ==> ws == []
    ensures (forall i | 0 <= i < |s| :: !IsUpper(s[i])) ==> forall w | w in ws :: IsToken(w)
    decreases |s|
  {
    if s == [] then []
    else if !IsWordChar(s[0]) then Words(s[1..])
    else
      var k := WordLength(s);
      [s[..k]] + Words(s[k..])
  }

  /** `BM25Indexer._tokenize` (qdrant.py:51-52). */
  function Tokenize(text: string): (tokens: seq<string>)
    ensures forall w | w in tokens :: IsToken(w)
    ensures (forall i | 0 <= i < |text| :: !IsWordChar(text[i])) ==> tokens == []
  {
    Words(Lower(text))
  }

  /** `s[i..j]` is a maximal run of word characters: non-empty, made of
      word characters, and bounded on each side by a non-word character or
      an end of `s`. These are the matches of `\w+`. */
  predicate IsRun(s: string, i: int, j: int) {
    && 0 <= i < j <= |s|
    && (i == 0 || !IsWordChar(s[i - 1]))
    && (j == |s| || !IsWordChar(s[j]))
    && forall k | i <= k < j :: IsWordChar(s[k])
  }

  /** A run stays a run, at shifted positions, in a suffix that starts at
      or before it. */
  lemma RunShift(s: string, p: nat, i: int, j: int)
    requires IsRun(s, i, j) && p <= i
    ensures IsRun(s[p..], i - p, j - p) && s[p..][i - p..j - p] == s[i..j]
  {
    var t := s[p..];
    assert i - p == 0 || t[i - p - 1] == s[i - 1];
    assert j - p == |t| || t[j - p] == s[j];
    assert forall m | i - p <= m < j - p :: t[m] == s[m + p];
  }

  /** `Words` on a string starting with a non-word character. */
  lemma WordsSkip(s: string)
    requires s != [] && !IsWordChar(s[0])
    ensures Words(s) == Words(s[1..])
  {
  }

  /** `Words` on a string starting with a word character. */
  lemma WordsRun(s: string)
    requires s != [] && IsWordChar(s[0])
    ensures Words(s) == [s[..WordLength(s)]] + Words(s[WordLength(s)..])
  {
  }

  /** A run at the start of `s` is the leading run. */
  lemma RunAtStart(s: string, j: int)
    requires IsRun(s, 0, j)
    ensures j == WordLength(s)
  {
  }

  /** A later run starts after the leading run. */
  lemma RunAfterStart(s: string, i: int, j: int)
    requires IsRun(s, i, j) && i > 0
    ensures i > WordLength(s)
  {
  }

  /** Every maximal run of word characters of `s` is one of its words. */
  lemma {:induction false} WordsComplete(s: string, i: int, j: int)
    requires IsRun(s, i, j)
    ensures s[i..j] in Words(s)
    decreases |s|
  {
    if !IsWordChar(s[0]) {
      WordsCompleteSkip(s, i, j);
    } else if i == 0 {
      RunAtStart(s, j);
      WordsRun(s);
    } else {
      WordsCompleteLater(s, i, j);
    }
  }

  /** `WordsComplete` past a leading non-word character. */
  lemma {:induction false} WordsCompleteSkip(s: string, i: int, j: int)
    requires IsRun(s, i, j) && !IsWordChar(s[0])
    ensures s[i..j] in Words(s)
    decreases |s|, 0
  {
    RunShift(s, 1, i, j);
    WordsComplete(s[1..], i - 1, j - 1);
    InEqual(s[1..][i - 1..j - 1], s[i..j], Words(s[1..]));
    WordsSkip(s);
  }

  /** `WordsComplete` for a run after the leading run. */
  lemma {:induction false} WordsCompleteLater(s: string, i: int, j: int)
    requires IsRun(s, i, j) && IsWordChar(s[0]) && i > 0
    ensures s[i..j] in Words(s)
    decreases |s|, 0
  {
    var k := WordLength(s);
    RunAfterStart(s, i, j);
    RunShift(s, k, i, j);
    var t := s[k..];
    WordsComplete(t, i - k, j - k);
    var rest := Words(t);
    InEqual(t[i - k..j - k], s[i..j], rest);
    WordsRun(s);
    assert Words(s) == [s[..k]] + rest;
  }

  /** Membership carries over to an equal string. */
  lemma InEqual(a: string, b: string, ws: seq<string>)
    requires a == b && a in ws
    ensures b in ws
  {
  }

  /** The number of word characters of `s`. */
  function WordChars(s: string): nat
    decreases |s|
  {
    if s == [] then 0 else (if IsWordChar(s[0]) then 1 else 0) + WordChars(s[1..])
  }

  /** The summed length of a list of strings. */
  function TotalLength(ws: seq<string>): nat
    decreases |ws|
  {
    if ws == [] then 0 else |ws[0]| + TotalLength(ws[1..])
  }

  /** A leading run of `k` word characters contributes `k` to the count. */
  lemma {:induction false} WordCharsSplit(s: string, k: nat)
    requires k <= |s|
    requires forall i | 0 <= i < k :: IsWordChar(s[i])
    ensures WordChars(s) == k + WordChars(s[k..])
    decreases k
  {
    if k > 0 {
      WordCharsSplit(s[1..], k - 1);
      assert s[1..][k - 1..] == s[k..];
    }
  }

  /** The words together hold as many characters as `s` has word
      characters. */
  lemma {:induction false} WordsLength(s: string)
    ensures TotalLength(Words(s)) == WordChars(s)
    decreases |s|
  {
    if s != [] {
      if !IsWordChar(s[0]) {
        WordsLength(s[1..]);
      } else {
        var k := WordLength(s);
        var ws := [s[..k]] + Words(s[k..]);
        assert ws[0] == s[..k] && ws[1..] == Words(s[k..]);
        WordsLength(s[k..]);
        WordCharsSplit(s, k);
      }
    }
  }

  /** Lower-casing keeps the number of word characters. */
  lemma {:induction false} WordCharsLower(s: string)
    ensures WordChars(Lower(s)) == WordChars(s)
    decreases |s|
  {
    if s != [] {
      assert Lower(s)[1..] == Lower(s[1..]);
      WordCharsLower(s[1..]);
    }
  }

  /** Every maximal run of word characters of the text is, lower-cased, one
      of its tokens. */
  lemma TokenizeComplete(text: string, i: int, j: int)
    requires IsRun(text, i, j)
    ensures Lower(text)[i..j] in Tokenize(text)
  {
    var l := Lower(text);
    assert IsRun(l, i, j);
    WordsComplete(l, i, j);
  }

  /** The tokens hold every word character of the text exactly once. */
  lemma TokenizeLength(text: string)
    ensures TotalLength(Tokenize(text)) == WordChars(text)
  {
    WordsLength(Lower(text));
    WordCharsLower(text);
  }

  /** The leading run is determined by its two properties. */
  lemma WordLengthUnique(s: string, k: nat)
    requires k <= |s|
    requires forall i | 0 <= i < k :: IsWordChar(s[i])
    requires k < |s| ==> !IsWordChar(s[k])
    ensures WordLength(s) == k
  {
  }

  /** A string made of word characters only is a single word. */
  lemma WordsAllWord(s: string)
    requires s != [] && forall i | 0 <= i < |s| :: IsWordChar(s[i])
    ensures Words(s) == [s]
  {
    WordLengthUnique(s, |s|);
    assert s[..|s|] == s;
    assert s[|s|..] == [];
    WordsRun(s);
  }

  /** The leading run of `a` is the leading run of `a + [c] + b` when `c`
      is not a word character. */
  lemma WordLengthPrefix(a: string, c: char, b: string)
    requires !IsWordChar(c) && a != [] && IsWordChar(a[0])
    ensures WordLength(a + [c] + b) == WordLength(a)
    ensures (a + [c] + b)[..WordLength(a)] == a[..WordLength(a)]
    ensures (a + [c] + b)[WordLength(a)..] == a[WordLength(a)..] + [c] + b
  {
    var s := a + [c] + b;
    var k := WordLength(a);
    assert forall i | 0 <= i < k :: s[i] == a[i];
    assert k < |a| ==> s[k] == a[k];
    assert k == |a| ==> s[k] == c;
    WordLengthUnique(s, k);
  }

  /** A non-word character splits the words: `Words` of `a`, a separator
      and `b` is the words of `a` followed by the words of `b`. With
      `WordsAllWord` and `Words([]) == []` this determines `Words` on every
      string: the maximal runs of word characters, left to right. */
  lemma {:induction false} WordsSplit(a: string, c: char, b: string)
    requires !IsWordChar(c)
    ensures Words(a + [c] + b) == Words(a) + Words(b)
    decreases |a|, 1
  {
    var s := a + [c] + b;
    if a == [] {
      assert s[0] == c && s[1..] == b;
      WordsSkip(s);
    } else if !IsWordChar(a[0]) {
      WordsSplitSkip(a, c, b);
    } else {
      WordsSplitRun(a, c, b);
    }
  }

  /** Equal strings have equal words. */
  lemma WordsEqual(x: string, y: string)
    requires x == y
    ensures Words(x) == Words(y)
  {
  }

  /** `WordsSplit` past a leading non-word character of `a`. */
  lemma {:induction false} WordsSplitSkip(a: string, c: char, b: string)
    requires !IsWordChar(c) && a != [] && !IsWordChar(a[0])
    ensures Words(a + [c] + b) == Words(a) + Words(b)
    decreases |a|, 0
  {
    var s := a + [c] + b;
    var t := a[1..] + [c] + b;
    assert s[0] == a[0] && s[1..] == t;
    WordsSplit(a[1..], c, b);
    WordsSkip(s);
    WordsEqual(s[1..], t);
    WordsSkip(a);
  }

  /** `WordsSplit` past the leading run of `a`. */
  lemma {:induction false} WordsSplitRun(a: string, c: char, b: string)
    requires !IsWordChar(c) && a != [] && IsWordChar(a[0])
    ensures Words(a + [c] + b) == Words(a) + Words(b)
    decreases |a|, 0
  {
    var s := a + [c] + b;
    var k := WordLength(a);
    WordLengthPrefix(a, c, b);
    var t := a[k..] + [c] + b;
    WordsSplit(a[k..], c, b);
    WordsRun(s);
    WordsEqual(s[k..], t);
    WordsRun(a);
  }

  /** Lower-casing works character by character. */
  lemma LowerSplit(a: string, c: char, b: string)
    ensures Lower(a + [c] + b) == Lower(a) + [LowerChar(c)] + Lower(b)
  {
    var l := Lower(a) + [LowerChar(c)] + Lower(b);
    assert forall i | 0 <= i < |a + [c] + b| :: Lower(a + [c] + b)[i] == l[i];
  }

  /** A non-word character splits the tokens of a text. */
  lemma TokenizeSplit(a: string, c: char, b: string)
    requires !IsWordChar(c)
    ensures Tokenize(a + [c] + b) == Tokenize(a) + Tokenize(b)
  {
    LowerSplit(a, c, b);
    WordsSplit(Lower(a), LowerChar(c), Lower(b));
  }

  /** A text of word characters only is one token: itself, lower-cased. */
  lemma TokenizeOneWord(text: string)
    requires text != [] && forall i | 0 <= i < |text| :: IsWordChar(text[i])
    ensures Tokenize(text) == [Lower(text)]
  {
    WordsAllWord(Lower(text));
  }

  /** The position of the first occurrence of `t` in `s`. */
  function FirstIndex(s: seq<string>, t: string): (k: nat)
    requires t in s
    ensures k < |s| && s[k] == t
    ensures forall i | 0 <= i < k :: s[i] != t
    decreases |s|
  {
    if s[0] == t then 0 else 1 + FirstIndex(s[1..], t)
  }

  /** The first occurrence is the only position with no earlier match. */
  lemma FirstIndexUnique(s: seq<string>, t: string, k: nat)
    requires k < |s| && s[k] == t
    requires forall i | 0 <= i < k :: s[i] != t
    ensures FirstIndex(s, t) == k
  {
  }

  /** A Python `Counter`: distinct keys in insertion order, each with a
      positive count. */
  datatype Counter = Counter(keys: seq<string>, freq: map<string, nat>) {
    ghost predicate Valid() {
      && (forall i, j | 0 <= i < j < |keys| :: keys[i] != keys[j])
      && (forall t :: t in freq <==> t in keys)
      && (forall t | t in freq :: freq[t] >= 1)
    }
  }

  /** `Counter(tokens)`: every token is a key, keys in the order of their
      first occurrence (`CountTokensCounts` gives the counts). */
  function CountTokens(tokens: seq<string>): (c: Counter)
    ensures c.Valid()
    ensures forall t :: t in c.freq <==> t in tokens
    ensures |c.keys| <= |tokens|
    decreases |tokens|
  {
    if tokens == [] then Counter([], map[])
    else
      var init := tokens[..|tokens| - 1];
      var t := tokens[|tokens| - 1];
      SplitLast(tokens);
      var c := CountTokens(init);
      if t in c.freq then Counter(c.keys, c.freq[t := c.freq[t] + 1])
      else Counter(c.keys + [t], c.freq[t := 1])
  }

  /** Each key of `Counter(tokens)` is counted as often as it occurs. */
  lemma {:induction false} CountTokensCounts(tokens: seq<string>)
    ensures forall t | t in CountTokens(tokens).freq :: CountTokens(tokens).freq[t] == multiset(tokens)[t]
    decreases |tokens|
  {
    if tokens != [] {
      var init := tokens[..|tokens| - 1];
      var last := tokens[|tokens| - 1];
      SplitLast(tokens);
      CountTokensCounts(init);
      assert multiset(tokens) == multiset(init) + multiset{last};
    }
  }

  /** `ks` holds tokens of `s`, in the order of their first occurrences. */
  ghost predicate InFirstOrder(s: seq<string>, ks: seq<string>) {
    && (forall t | t in ks :: t in s)
    && forall i, j | 0 <= i < j < |ks| :: FirstIndex(s, ks[i]) < FirstIndex(s, ks[j])
  }

  /** Appending a token keeps the first occurrences of the earlier ones and
      puts a new token's first occurrence last. */
  lemma InFirstOrderSnoc(init: seq<string>, last: string, ks: seq<string>, ks1: seq<string>)
    requires InFirstOrder(init, ks)
    requires ks1 == (if last in init then ks else ks + [last])
    ensures InFirstOrder(init + [last], ks1)
  {
    var s := init + [last];
    forall t | t in init ensures t in s && FirstIndex(s, t) == FirstIndex(init, t) {
      FirstIndexUnique(s, t, FirstIndex(init, t));
    }
    if last !in init {
      FirstIndexUnique(s, last, |init|);
      forall i | 0 <= i < |ks| ensures FirstIndex(s, ks1[i]) < FirstIndex(s, ks1[|ks|]) {
        assert ks1[i] == ks[i] && ks[i] in init;
      }
    }
    forall i, j | 0 <= i < j < |ks| ensures FirstIndex(s, ks1[i]) < FirstIndex(s, ks1[j]) {
      assert ks1[i] == ks[i] && ks1[j] == ks[j];
      assert ks[i] in init && ks[j] in init;
    }
  }

  /** The keys of `Counter(tokens)` are in the order of the tokens' first
      occurrences, the order in which `_ensure_term` hands out ids and the
      scoring loop emits them. */
  lemma {:induction false} CountTokensOrder(tokens: seq<string>)
    ensures InFirstOrder(tokens, CountTokens(tokens).keys)
    decreases |tokens|
  {
    if tokens != [] {
      var init := tokens[..|tokens| - 1];
      var last := tokens[|tokens| - 1];
      SplitLast(tokens);
      CountTokensOrder(init);
      InFirstOrderSnoc(init, last, CountTokens(init).keys, CountTokens(tokens).keys);
    }
  }
}
