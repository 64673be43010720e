/** `create_tfidf_matrix` of code_editor/utils.py: a vocabulary over the
    lower-cased, whitespace-split documents in first-seen order, and one
    L2-normalised TF-IDF vector per document. */
module TfIdf {
  import opened Common
  import opened Text
  import opened Numeric

  // ---------------------------------------------------------------------
  // Specification
  // ---------------------------------------------------------------------

  /** The tokens of one document: `doc.lower().split()`. */
  function Words(doc: string): seq<string> {
    PySplit(PyLower(doc))
  }

  /** The tokens of all documents, document after document. */
  function AllWords(docs: seq<string>): seq<string> {
    if docs == [] then [] else AllWords(docs[..|docs| - 1]) + Words(docs[|docs| - 1])
  }

  /** The vocabulary's words in the order they are given indices. */
  function VocabularyOrder(docs: seq<string>): (order: seq<string>)
    ensures Distinct(order)
  {
    Dedup(AllWords(docs))
  }

  /** Number of documents that contain `w` at least once. */
  function DocFreq(docs: seq<string>, w: string): (n: nat)
    ensures n <= |docs|
  {
    if docs == [] then 0
    else DocFreq(docs[..|docs| - 1], w) + (if w in Words(docs[|docs| - 1]) then 1 else 0)
  }

  /** Occurrences of `w` divided by `max(len(words), 1)`. */
  function TermFrequency(words: seq<string>, w: string): real {
    Count(words, w) as real / (if |words| > 1 then |words| else 1) as real
  }

  /** Smoothed inverse document frequency `log((N + 1) / (df + 1)) + 1`. */
  function InverseDocFreq(docs: seq<string>, w: string, log: real -> real): real {
    log((|docs| + 1) as real / (DocFreq(docs, w) + 1) as real) + 1.0
  }

  /** The unnormalised entry for `w` in document `d`: zero for a word the
      document does not contain. */
  function Weight(docs: seq<string>, d: nat, w: string, log: real -> real): real
    requires d < |docs|
  {
    if w in Words(docs[d]) then Product(TermFrequency(Words(docs[d]), w), InverseDocFreq(docs, w, log))
    else 0.0
  }

  function RawVector(docs: seq<string>, d: nat, log: real -> real): (v: seq<real>)
    requires d < |docs|
    ensures |v| == |VocabularyOrder(docs)|
  {
    var order := VocabularyOrder(docs);
    seq(|order|, i requires 0 <= i < |order| => Weight(docs, d, order[i], log))
  }

  /** `sum(x**2 for x in v)`. */
  function SumSquares(v: seq<real>): real {
    if v == [] then 0.0 else SumSquares(v[..|v| - 1]) + Square(v[|v| - 1])
  }

  function Divide(v: seq<real>, divisor: real): (r: seq<real>)
    requires divisor != 0.0
    ensures |r| == |v|
  {
    seq(|v|, i requires 0 <= i < |v| => v[i] / divisor)
  }

  /** Divide by the Euclidean norm, but only when it is positive. */
  function Normalise(v: seq<real>, sqrt: real -> real): (r: seq<real>)
    ensures |r| == |v|
  {
    var magnitude := sqrt(SumSquares(v));
    if magnitude > 0.0 then Divide(v, magnitude) else v
  }

  /** The row of the TF-IDF matrix for document `d`. */
  function TfIdfVector(docs: seq<string>, d: nat, m: MathLib): (v: seq<real>)
    requires d < |docs|
    ensures |v| == |VocabularyOrder(docs)|
  {
    Normalise(RawVector(docs, d, m.log), m.sqrt)
  }

  // ---------------------------------------------------------------------
  // The computation, as the source performs it
  // ---------------------------------------------------------------------

  /** `vocab` gives the i-th word of `order` the index i and holds no other
      word. */
  ghost predicate Indexes(vocab: map<string, nat>, order: seq<string>) {
    && |vocab| == |order|
    && (forall i :: 0 <= i < |order| ==> order[i] in vocab && vocab[order[i]] == i)
    && (forall w :: w in vocab ==> w in order)
  }

  lemma IndexesExtend(vocab: map<string, nat>, order: seq<string>, w: string)
    requires Indexes(vocab, order) && w !in vocab
    ensures Indexes(vocab[w := |order|], order + [w])
  {
    var order' := order + [w];
    forall i | 0 <= i < |order'|
      ensures order'[i] in vocab[w := |order|] && vocab[w := |order|][order'[i]] == i
    {
      if i < |order| {
        assert order'[i] == order[i] != w;
      }
    }
  }

  /** One step of the first loop: the new word gets the next index when it
      has none yet. */
  lemma VocabularyStep(vocab: map<string, nat>, seen: seq<string>, w: string)
    requires Indexes(vocab, Dedup(seen))
    ensures w in vocab ==> Dedup(seen + [w]) == Dedup(seen)
    ensures w !in vocab ==> Dedup(seen + [w]) == Dedup(seen) + [w]
    ensures w !in vocab ==> Indexes(vocab[w := |Dedup(seen)|], Dedup(seen + [w]))
  {
    DedupSnoc(seen, w);
    if w !in vocab {
      IndexesExtend(vocab, Dedup(seen), w);
    }
  }

  lemma AllWordsStep(docs: seq<string>, d: nat)
    requires d < |docs|
    ensures AllWords(docs[..d + 1]) == AllWords(docs[..d]) + Words(docs[d])
  {
    assert docs[..d + 1][..d] == docs[..d];
  }

  lemma IndexStep(vocab: map<string, nat>, seen: seq<string>, words: seq<string>, k: nat)
    requires k < |words| && Indexes(vocab, Dedup(seen + words[..k]))
    ensures words[k] in vocab ==> Indexes(vocab, Dedup(seen + words[..k + 1]))
    ensures words[k] !in vocab ==> Indexes(vocab[words[k] := |vocab|], Dedup(seen + words[..k + 1]))
  {
    assert seen + words[..k + 1] == (seen + words[..k]) + [words[k]];
    VocabularyStep(vocab, seen + words[..k], words[k]);
  }

  /** The inner loop of the vocabulary pass over one document's tokens:
      `vocabulary[word] = word_index; word_index += 1` for each new word. */
  method IndexWords(vocab0: map<string, nat>, words: seq<string>, ghost seen: seq<string>)
    returns (vocab: map<string, nat>)
    requires Indexes(vocab0, Dedup(seen))
    ensures Indexes(vocab, Dedup(seen + words))
  {
    vocab := vocab0;
    var wordIndex := |vocab0|;
    assert seen + words[..0] == seen;
    for k := 0 to |words|
      invariant wordIndex == |vocab|
      invariant Indexes(vocab, Dedup(seen + words[..k]))
    {
      var w := words[k];
      IndexStep(vocab, seen, words, k);
      if w !in vocab {
        vocab := vocab[w := wordIndex];
        wordIndex := wordIndex + 1;
      }
    }
    assert words[..|words|] == words;
  }

  /** The first loop of `create_tfidf_matrix`: every new word gets the next
      index, scanning the documents in order. */
  method BuildVocabulary(docs: seq<string>) returns (vocab: map<string, nat>)
    ensures |vocab| == |VocabularyOrder(docs)|
    ensures forall i :: 0 <= i < |VocabularyOrder(docs)| ==>
              VocabularyOrder(docs)[i] in vocab && vocab[VocabularyOrder(docs)[i]] == i
    ensures forall w :: w in vocab ==> w in VocabularyOrder(docs)
  {
    vocab := map[];
    for d := 0 to |docs|
      invariant Indexes(vocab, Dedup(AllWords(docs[..d])))
    {
      AllWordsStep(docs, d);
      vocab := IndexWords(vocab, Words(docs[d]), AllWords(docs[..d]));
    }
    assert docs[..|docs|] == docs;
  }

  /** The dict `tf` after counting `words` one after the other. */
  function Counts(words: seq<string>): map<string, nat> {
    if words == [] then map[]
    else
      var tf := Counts(words[..|words| - 1]);
      var w := words[|words| - 1];
      tf[w := (if w in tf then tf[w] else 0) + 1]
  }

  /** The dict holds exactly the words that occur, each with its number of
      occurrences. */
  lemma {:induction false} CountsAreCounts(words: seq<string>)
    ensures forall w :: w in Counts(words) <==> w in words
    ensures forall w :: w in Counts(words) ==> Counts(words)[w] == Count(words, w)
  {
    if words != [] {
      var prefix := words[..|words| - 1];
      CountsAreCounts(prefix);
      assert words == prefix + [words[|words| - 1]];
      CountSnoc(prefix, words[|words| - 1]);
    }
  }

  /** Counting one more word: its count goes up by one. */
  lemma CountStep(words: seq<string>, k: nat)
    requires k < |words|
    ensures var tf := Counts(words[..k]);
      Counts(words[..k + 1]) == tf[words[k] := (if words[k] in tf then tf[words[k]] else 0) + 1]
  {
    assert words[..k + 1][..k] == words[..k];
  }

  /** Counting one more word: it joins the keys when it is new. */
  lemma KeyStep(words: seq<string>, k: nat)
    requires k < |words|
    ensures Dedup(words[..k + 1])
      == if words[k] in Dedup(words[..k]) then Dedup(words[..k]) else Dedup(words[..k]) + [words[k]]
  {
    assert words[..k + 1] == words[..k] + [words[k]];
    DedupSnoc(words[..k], words[k]);
  }

  /** The term-count loop: `tf[word] = tf.get(word, 0) + 1`. The dict is
      returned with the insertion order of its keys, which `tf.items()`
      follows. */
  method CountTerms(words: seq<string>) returns (tf: map<string, nat>, keys: seq<string>)
    ensures keys == Dedup(words)
    ensures tf == Counts(words)
    ensures forall w :: w in tf <==> w in words
    ensures forall w :: w in tf ==> tf[w] == Count(words, w)
  {
    tf := map[];
    keys := [];
    for k := 0 to |words|
      invariant keys == Dedup(words[..k])
      invariant tf == Counts(words[..k])
    {
      var w := words[k];
      CountStep(words, k);
      KeyStep(words, k);
      tf := tf[w := (if w in tf then tf[w] else 0) + 1];
      if w !in keys {
        keys := keys + [w];
      }
    }
    assert words[..|words|] == words;
    CountsAreCounts(words);
  }

  /** The vector after the words of `done` have been weighted. */
  function PartialVector(docs: seq<string>, d: nat, log: real -> real, done: seq<string>): (v: seq<real>)
    requires d < |docs|
    ensures |v| == |VocabularyOrder(docs)|
  {
    var order := VocabularyOrder(docs);
    seq(|order|, i requires 0 <= i < |order| =>
      if order[i] in done then Weight(docs, d, order[i], log) else 0.0)
  }

  lemma PartialVectorStep(docs: seq<string>, d: nat, log: real -> real, done: seq<string>, w: string)
    requires d < |docs|
    ensures w in VocabularyOrder(docs) ==>
      PartialVector(docs, d, log, done + [w])
      == PartialVector(docs, d, log, done)[FirstIndex(VocabularyOrder(docs), w) := Weight(docs, d, w, log)]
    ensures w !in VocabularyOrder(docs) ==>
      PartialVector(docs, d, log, done + [w]) == PartialVector(docs, d, log, done)
  {
  }

  lemma WeightStep(docs: seq<string>, d: nat, log: real -> real, keys: seq<string>, t: nat)
    requires d < |docs| && t < |keys|
    ensures keys[t] in VocabularyOrder(docs) ==>
      PartialVector(docs, d, log, keys[..t + 1])
      == PartialVector(docs, d, log, keys[..t])[FirstIndex(VocabularyOrder(docs), keys[t]) := Weight(docs, d, keys[t], log)]
    ensures keys[t] !in VocabularyOrder(docs) ==>
      PartialVector(docs, d, log, keys[..t + 1]) == PartialVector(docs, d, log, keys[..t])
  {
    assert keys[..t + 1] == keys[..t] + [keys[t]];
    PartialVectorStep(docs, d, log, keys[..t], keys[t]);
  }

  /** Once every word of the document is weighted, the vector is complete. */
  lemma PartialVectorComplete(docs: seq<string>, d: nat, log: real -> real, keys: seq<string>)
    requires d < |docs| && keys == Dedup(Words(docs[d]))
    ensures PartialVector(docs, d, log, keys) == RawVector(docs, d, log)
  {
    var order := VocabularyOrder(docs);
    assert forall i :: 0 <= i < |order| ==> (order[i] in keys <==> order[i] in Words(docs[d]));
  }

  /** One iteration of the loop over `tf.items()`: the weight of a counted
      word is stored at its vocabulary index. */
  method StoreWeight(docs: seq<string>, d: nat, vocab: map<string, nat>, m: MathLib,
                     count: nat, w: string, vec: array<real>)
    requires d < |docs|
    requires w in VocabularyOrder(docs) && w in Words(docs[d])
    requires w in vocab && vocab[w] == FirstIndex(VocabularyOrder(docs), w)
    requires vec.Length == |VocabularyOrder(docs)|
    requires count == Count(Words(docs[d]), w)
    modifies vec
    ensures vec[..] == old(vec[..])[FirstIndex(VocabularyOrder(docs), w) := Weight(docs, d, w, m.log)]
  {
    var docLen := |Words(docs[d])|;
    var tfValue := count as real / (if docLen > 1 then docLen else 1) as real;
    var df := DocFreq(docs, w);
    assert tfValue == TermFrequency(Words(docs[d]), w);
    var idf := m.log((|docs| + 1) as real / (df + 1) as real) + 1.0;
    assert idf == InverseDocFreq(docs, w, m.log);
    assert tfValue * idf == Product(tfValue, idf);
    vec[vocab[w]] := tfValue * idf;
  }

  /** The loop over `tf.items()`: each counted word's weight is stored at its
      vocabulary index; every other entry stays 0. */
  method WeightedVector(docs: seq<string>, d: nat, vocab: map<string, nat>, m: MathLib,
                        tf: map<string, nat>, keys: seq<string>)
    returns (raw: seq<real>)
    requires d < |docs|
    requires Indexes(vocab, VocabularyOrder(docs))
    requires keys == Dedup(Words(docs[d]))
    requires forall w :: w in tf <==> w in Words(docs[d])
    requires forall w :: w in tf ==> tf[w] == Count(Words(docs[d]), w)
    ensures raw == RawVector(docs, d, m.log)
  {
    var vec := new real[|vocab|](_ => 0.0);
    assert vec[..] == PartialVector(docs, d, m.log, keys[..0]);
    for t := 0 to |keys|
      invariant vec[..] == PartialVector(docs, d, m.log, keys[..t])
    {
      var w := keys[t];
      WeightStep(docs, d, m.log, keys, t);
      if w in vocab {
        StoreWeight(docs, d, vocab, m, tf[w], w, vec);
      }
    }
    raw := vec[..];
    assert keys[..|keys|] == keys;
    PartialVectorComplete(docs, d, m.log, keys);
  }

  /** The body of the second loop of `create_tfidf_matrix` for document `d`:
      term counts, the weighted vector, then the division by the magnitude
      when it is positive. */
  method DocumentVector(docs: seq<string>, d: nat, vocab: map<string, nat>, m: MathLib)
    returns (v: seq<real>)
    requires d < |docs|
    requires Indexes(vocab, VocabularyOrder(docs))
    ensures v == TfIdfVector(docs, d, m)
  {
    var tf, keys := CountTerms(Words(docs[d]));
    var raw := WeightedVector(docs, d, vocab, m, tf, keys);
    var magnitude := m.sqrt(SumSquares(raw));
    if magnitude > 0.0 {
      v := seq(|raw|, i requires 0 <= i < |raw| => raw[i] / magnitude);
    } else {
      v := raw;
    }
  }

  /** `create_tfidf_matrix`: the vocabulary and one vector per document, in
      input order. */
  method CreateTfIdfMatrix(docs: seq<string>, m: MathLib)
    returns (vocab: map<string, nat>, matrix: seq<seq<real>>)
    ensures Indexes(vocab, VocabularyOrder(docs))
    ensures |matrix| == |docs|
    ensures forall d :: 0 <= d < |docs| ==> |matrix[d]| == |vocab|
    ensures forall d :: 0 <= d < |docs| ==> matrix[d] == TfIdfVector(docs, d, m)
  {
    vocab := BuildVocabulary(docs);
    matrix := [];
    for d := 0 to |docs|
      invariant |matrix| == d
      invariant forall e :: 0 <= e < d ==> matrix[e] == TfIdfVector(docs, e, m)
    {
      var v := DocumentVector(docs, d, vocab, m);
      matrix := matrix + [v];
    }
  }

  // ---------------------------------------------------------------------
  // Properties
  // ---------------------------------------------------------------------

  lemma {:induction false} AllWordsCovers(docs: seq<string>, d: nat, w: string)
    requires d < |docs| && w in Words(docs[d])
    ensures w in AllWords(docs)
  {
    if d < |docs| - 1 {
      AllWordsCovers(docs[..|docs| - 1], d, w);
    }
  }

  /** Every word of every document has an index, and vocabulary words are
      lower-case. */
  lemma VocabularyCoversDocuments(docs: seq<string>, d: nat, w: string)
    requires d < |docs| && w in Words(docs[d])
    ensures w in VocabularyOrder(docs)
    ensures forall j :: 0 <= j < |w| ==> !IsUpperAscii(w[j])
  {
    AllWordsCovers(docs, d, w);
    var i :| 0 <= i < |Words(docs[d])| && Words(docs[d])[i] == w;
    forall j | 0 <= j < |w|
      ensures !IsUpperAscii(w[j])
    {
      SplitLowerIsLower(docs[d], i, j);
    }
  }

  /** Indices follow first appearance: a word with a smaller index first
      occurs earlier in the scan of the documents. */
  lemma VocabularyFirstSeen(docs: seq<string>, i: nat, j: nat)
    requires i < j < |VocabularyOrder(docs)|
    ensures FirstIndex(AllWords(docs), VocabularyOrder(docs)[i])
            < FirstIndex(AllWords(docs), VocabularyOrder(docs)[j])
  {
    DedupFirstSeenOrder(AllWords(docs), i, j);
  }

  lemma RatioAtLeastOne(a: real, b: real)
    requires 0.0 < b <= a
    ensures a / b >= 1.0
  {
  }

  lemma DivideSign(x: real, divisor: real)
    requires divisor > 0.0
    ensures x / divisor > 0.0 <==> x > 0.0
    ensures x / divisor == 0.0 <==> x == 0.0
  {
  }

  /** The idf weight is at least 1 because a word occurs in at most all
      `N` documents. */
  lemma InverseDocFreqAtLeastOne(docs: seq<string>, w: string, m: MathLib)
    requires Sound(m)
    ensures InverseDocFreq(docs, w, m.log) >= 1.0
  {
    RatioAtLeastOne((|docs| + 1) as real, (DocFreq(docs, w) + 1) as real);
  }

  /** A word of the document has a positive term frequency. */
  lemma TermFrequencyPositive(words: seq<string>, w: string)
    requires w in words
    ensures TermFrequency(words, w) > 0.0
  {
    DivideSign(Count(words, w) as real, (if |words| > 1 then |words| else 1) as real);
  }

  lemma RawEntrySign(docs: seq<string>, d: nat, i: nat, m: MathLib)
    requires Sound(m) && d < |docs| && i < |VocabularyOrder(docs)|
    ensures RawVector(docs, d, m.log)[i] >= 0.0
    ensures RawVector(docs, d, m.log)[i] > 0.0 <==> VocabularyOrder(docs)[i] in Words(docs[d])
  {
    var w := VocabularyOrder(docs)[i];
    var words := Words(docs[d]);
    if w in words {
      TermFrequencyPositive(words, w);
      InverseDocFreqAtLeastOne(docs, w, m);
      ProductSign(TermFrequency(words, w), InverseDocFreq(docs, w, m.log));
    }
  }

  /** An entry is positive exactly when the document contains the word, and
      zero otherwise. */
  lemma EntrySign(docs: seq<string>, d: nat, i: nat, m: MathLib)
    requires Sound(m) && d < |docs| && i < |VocabularyOrder(docs)|
    ensures TfIdfVector(docs, d, m)[i] >= 0.0
    ensures TfIdfVector(docs, d, m)[i] > 0.0 <==> VocabularyOrder(docs)[i] in Words(docs[d])
    ensures TfIdfVector(docs, d, m)[i] == 0.0 <==> VocabularyOrder(docs)[i] !in Words(docs[d])
  {
    var raw := RawVector(docs, d, m.log);
    RawEntrySign(docs, d, i, m);
    var magnitude := m.sqrt(SumSquares(raw));
    if magnitude > 0.0 {
      DivideSign(raw[i], magnitude);
    }
  }

  lemma ProductSign(a: real, b: real)
    ensures a > 0.0 && b > 0.0 ==> Product(a, b) > 0.0
    ensures a < 0.0 && b < 0.0 ==> Product(a, b) > 0.0
  {
  }

  lemma SquarePositive(x: real)
    ensures Square(x) >= 0.0
    ensures x != 0.0 ==> Square(x) > 0.0
  {
    ProductSign(x, x);
  }

  lemma {:induction false} SumSquaresNonNegative(v: seq<real>)
    ensures SumSquares(v) >= 0.0
  {
    if v != [] {
      SumSquaresNonNegative(v[..|v| - 1]);
      SquarePositive(v[|v| - 1]);
    }
  }

  /** One non-zero entry makes the sum of squares positive. */
  lemma {:induction false} SumSquaresPositive(v: seq<real>, i: nat)
    requires i < |v| && v[i] != 0.0
    ensures SumSquares(v) > 0.0
  {
    var p := v[..|v| - 1];
    SquarePositive(v[|v| - 1]);
    if i < |v| - 1 {
      assert p[i] == v[i];
      SumSquaresPositive(p, i);
    } else {
      SumSquaresNonNegative(p);
    }
  }

  lemma {:induction false} SumSquaresOfZeros(v: seq<real>)
    requires forall i :: 0 <= i < |v| ==> v[i] == 0.0
    ensures SumSquares(v) == 0.0
  {
    if v != [] {
      SumSquaresOfZeros(v[..|v| - 1]);
    }
  }

  /** The magnitude is positive exactly for a document with at least one
      token, so only an empty document keeps its all-zero vector. */
  lemma MagnitudePositiveIffNonEmpty(docs: seq<string>, d: nat, m: MathLib)
    requires Sound(m) && d < |docs|
    ensures m.sqrt(SumSquares(RawVector(docs, d, m.log))) > 0.0 <==> Words(docs[d]) != []
    ensures Words(docs[d]) == [] ==>
              forall i :: 0 <= i < |VocabularyOrder(docs)| ==> TfIdfVector(docs, d, m)[i] == 0.0
  {
    var raw := RawVector(docs, d, m.log);
    var order := VocabularyOrder(docs);
    if Words(docs[d]) != [] {
      var w := Words(docs[d])[0];
      VocabularyCoversDocuments(docs, d, w);
      var i := FirstIndex(order, w);
      RawEntrySign(docs, d, i, m);
      SumSquaresPositive(raw, i);
    } else {
      forall i | 0 <= i < |order|
        ensures raw[i] == 0.0
      {
        RawEntrySign(docs, d, i, m);
      }
      SumSquaresOfZeros(raw);
      assert m.sqrt(SumSquares(raw)) == 0.0;
    }
  }

  lemma ProductOfProducts(a: real, b: real, c: real, e: real)
    ensures Product(a, b) * Product(c, e) == Product(a * c, b * e)
  {
  }

  lemma ScaledSquare(x: real, divisor: real)
    requires divisor > 0.0
    ensures Square(x / divisor) * Square(divisor) == Square(x)
  {
    var y := x / divisor;
    assert y * divisor == x;
    ProductOfProducts(y, y, divisor, divisor);
  }

  lemma Distribute(a: real, b: real, c: real)
    ensures (a + b) * c == a * c + b * c
  {
  }

  /** Dividing every entry by `divisor` divides the sum of squares by the
      square of `divisor`. */
  lemma {:induction false} SumSquaresDivide(v: seq<real>, divisor: real)
    requires divisor > 0.0
    ensures SumSquares(Divide(v, divisor)) * Square(divisor) == SumSquares(v)
  {
    if v != [] {
      var n := |v| - 1;
      var dd := Square(divisor);
      var scaled := Divide(v, divisor);
      assert scaled[..n] == Divide(v[..n], divisor);
      assert scaled[n] == v[n] / divisor;
      SumSquaresDivide(v[..n], divisor);
      Distribute(SumSquares(scaled[..n]), Square(scaled[n]), dd);
      ScaledSquare(v[n], divisor);
    }
  }

  lemma UnitRatio(p: real, q: real, r: real)
    requires q != 0.0 && r == q && p * r == q
    ensures p == 1.0
  {
    assert (p - 1.0) * q == 0.0;
  }

  /** A non-empty document's vector has Euclidean norm 1 (with exact
      arithmetic). */
  lemma UnitLength(docs: seq<string>, d: nat, m: MathLib)
    requires Sound(m) && d < |docs| && Words(docs[d]) != []
    ensures SumSquares(TfIdfVector(docs, d, m)) == 1.0
  {
    var raw := RawVector(docs, d, m.log);
    var total := SumSquares(raw);
    var magnitude := m.sqrt(total);
    MagnitudePositiveIffNonEmpty(docs, d, m);
    SumSquaresNonNegative(raw);
    assert Square(magnitude) == total;
    assert total != 0.0;
    assert TfIdfVector(docs, d, m) == Divide(raw, magnitude);
    SumSquaresDivide(raw, magnitude);
    UnitRatio(SumSquares(Divide(raw, magnitude)), total, Square(magnitude));
  }
}
