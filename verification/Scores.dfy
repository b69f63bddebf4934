/** Sparse scores, resolved through the vocabulary, under both stored shapes. */
module Scores {
  import opened ChunkIds
  import opened Ranks
  import opened Vectors

  datatype Shape = VChord | Posting | Arrays

  /** One query term's effect on a running `vchord` score: the score so far, the
      term's count in the document, its document frequency, the number of
      documents, the document's length and the total length of all documents.
      Nothing else reaches the scorer, and it need not be commutative. */
  type Scorer = (real, real, nat, nat, real, real) -> real

  function AddWeight(acc: real, weight: real, df: nat, docs: nat, len: real, total: real): real {
    acc + weight
  }

  function WeightOf(v: Vector, id: int): real {
    if v == [] then 0.0 else if v[0].id == id then v[0].weight else WeightOf(v[1..], id)
  }

  function Length(v: Vector): real {
    if v == [] then 0.0 else v[0].weight + Length(v[1..])
  }

  function TotalLength(chunks: set<ChunkId>, vectors: map<ChunkId, Vector>): real
    requires chunks <= vectors.Keys
  {
    if chunks == {} then 0.0 else
      var c := Min(chunks);
      Length(vectors[c]) + TotalLength(chunks - {c}, vectors)
  }

  function Holders(vectors: map<ChunkId, Vector>, id: int): set<ChunkId> {
    set c | c in vectors && id in Ids(vectors[c])
  }

  function Fold(step: Scorer, ids: seq<int>, v: Vector, vectors: map<ChunkId, Vector>): real {
    if ids == [] then 0.0 else
      var last := ids[|ids| - 1];
      step(Fold(step, ids[..|ids| - 1], v, vectors),
           WeightOf(v, last), |Holders(vectors, last)|, |vectors|,
           Length(v), TotalLength(vectors.Keys, vectors))
  }

  /** The ids the vocabulary gives a query now, in id order. */
  function QueryIds(query: set<Term>, vocab: Vocabulary): set<int> {
    set t | t in query && t in vocab :: vocab[t]
  }

  /** `vchord`: a (negative) score for every indexed document; `posting`: minus
      the sum of the matching weights, for documents with a matching row. */
  function ScoreOf(shape: Shape, step: Scorer, ids: seq<int>, vectors: map<ChunkId, Vector>, c: ChunkId): real
    requires c in vectors
  {
    if shape.Posting? then -Fold(AddWeight, ids, vectors[c], vectors) else Fold(step, ids, vectors[c], vectors)
  }

  predicate Matches(ids: seq<int>, v: Vector) {
    exists i :: 0 <= i < |ids| && ids[i] in Ids(v)
  }

  /** Every scored document of a query, before the page is cut. */
  function ScoredIds(shape: Shape, step: Scorer, ids: seq<int>, vectors: map<ChunkId, Vector>): map<ChunkId, real> {
    map c | c in vectors && ids != [] && (shape.Posting? ==> Matches(ids, vectors[c])) ::
      ScoreOf(shape, step, ids, vectors, c)
  }

  function Scored(shape: Shape, step: Scorer, query: set<Term>, vocab: Vocabulary,
                        vectors: map<ChunkId, Vector>): map<ChunkId, real>
  {
    ScoredIds(shape, step, Sorted(QueryIds(query, vocab)), vectors)
  }

  // ── Relabelling changes none of it ───────────────────────────────

  lemma {:induction false} RelabelWeight(v: Vector, m: map<int, int>, id: int)
    requires Ids(v) <= m.Keys && Monotone(m) && id in m
    ensures WeightOf(MapEntries(v, m), m[id]) == WeightOf(v, id)
  {
    if v != [] {
      IdOf(v, 0);
      forall e | e in v[1..] ensures e.id in Ids(v) { assert e in v; }
      MonotoneInjective(m);
      assert v[0].id != id ==> m[v[0].id] != m[id];
      RelabelWeight(v[1..], m, id);
      MapEntriesTail(v, m);
    }
  }

  lemma MapEntriesTail(v: Vector, m: map<int, int>)
    requires v != [] && Ids(v) <= m.Keys
    ensures Ids(v[1..]) <= m.Keys && MapEntries(v, m)[1..] == MapEntries(v[1..], m)
  {
    forall e | e in v[1..] ensures e.id in m { assert e in v; assert e.id in Ids(v); }
  }

  lemma {:induction false} RelabelLength(v: Vector, m: map<int, int>)
    requires Ids(v) <= m.Keys
    ensures Length(MapEntries(v, m)) == Length(v)
  {
    if v != [] {
      MapEntriesTail(v, m);
      RelabelLength(v[1..], m);
    }
  }

  ghost predicate Labelled(vectors: map<ChunkId, Vector>, m: map<int, int>) {
    forall c | c in vectors :: Ids(vectors[c]) <= m.Keys
  }

  lemma {:induction false} RelabelTotal(chunks: set<ChunkId>, vectors: map<ChunkId, Vector>, m: map<int, int>)
    requires chunks <= vectors.Keys && Labelled(vectors, m)
    ensures TotalLength(chunks, RelabelAll(vectors, m)) == TotalLength(chunks, vectors)
  {
    if chunks != {} {
      var c := Min(chunks);
      RelabelLength(vectors[c], m);
      RelabelTotal(chunks - {c}, vectors, m);
    }
  }

  lemma RelabelHolders(vectors: map<ChunkId, Vector>, m: map<int, int>, id: int)
    requires Labelled(vectors, m) && Monotone(m) && id in m
    ensures Holders(RelabelAll(vectors, m), m[id]) == Holders(vectors, id)
  {
    forall c | c in vectors ensures m[id] in Ids(MapEntries(vectors[c], m)) <==> id in Ids(vectors[c]) {
      RelabelIds(vectors[c], m, id);
    }
  }

  lemma {:induction false} RelabelFold(step: Scorer, ids: seq<int>, c: ChunkId, vectors: map<ChunkId, Vector>,
                                       m: map<int, int>)
    requires c in vectors && Labelled(vectors, m) && Monotone(m)
    requires forall i | 0 <= i < |ids| :: ids[i] in m
    ensures Fold(step, MapSeq(ids, m), RelabelAll(vectors, m)[c], RelabelAll(vectors, m))
         == Fold(step, ids, vectors[c], vectors)
  {
    hide WeightOf, Length, TotalLength, Holders, Monotone;
    if ids != [] {
      var k := |ids| - 1;
      RelabelFold(step, ids[..k], c, vectors, m);
      assert MapSeq(ids, m)[..k] == MapSeq(ids[..k], m);
      RelabelArguments(c, vectors, m, ids[k]);
    }
  }

  /** Everything the scorer is given about one query id. */
  lemma RelabelArguments(c: ChunkId, vectors: map<ChunkId, Vector>, m: map<int, int>, id: int)
    requires c in vectors && Labelled(vectors, m) && Monotone(m) && id in m
    ensures var after := RelabelAll(vectors, m);
      && WeightOf(after[c], m[id]) == WeightOf(vectors[c], id)
      && |Holders(after, m[id])| == |Holders(vectors, id)| && |after| == |vectors|
      && Length(after[c]) == Length(vectors[c])
      && TotalLength(after.Keys, after) == TotalLength(vectors.Keys, vectors)
  {
    RelabelWeight(vectors[c], m, id);
    RelabelHolders(vectors, m, id);
    RelabelLength(vectors[c], m);
    RelabelTotal(vectors.Keys, vectors, m);
    assert RelabelAll(vectors, m).Keys == vectors.Keys;
    assert |RelabelAll(vectors, m)| == |vectors|;
  }

  lemma RelabelQuery(query: set<Term>, vocab: Vocabulary, m: map<int, int>)
    requires vocab.Values <= m.Keys
    ensures QueryIds(query, vocab) <= m.Keys
    ensures QueryIds(query, RelabelVocabulary(vocab, m)) == Image(QueryIds(query, vocab), m)
  {
    forall t | t in vocab ensures vocab[t] in m { assert vocab[t] in vocab.Values; }
    var ids := QueryIds(query, vocab);
    var vocab' := RelabelVocabulary(vocab, m);
    var after := QueryIds(query, vocab');
    forall y | y in after ensures y in Image(ids, m) {
      var t :| t in query && t in vocab' && vocab'[t] == y;
      var x := vocab[t];
      assert x in ids;
      InImage(ids, m, x);
    }
    forall y | y in Image(ids, m) ensures y in after {
      var x :| x in ids && m[x] == y;
      var t :| t in query && t in vocab && vocab[t] == x;
      assert RelabelVocabulary(vocab, m)[t] == y;
    }
  }

  lemma RelabelMatches(ids: seq<int>, v: Vector, m: map<int, int>)
    requires Ids(v) <= m.Keys && Monotone(m)
    requires forall i | 0 <= i < |ids| :: ids[i] in m
    ensures Matches(MapSeq(ids, m), MapEntries(v, m)) <==> Matches(ids, v)
  {
    forall i | 0 <= i < |ids| ensures MapSeq(ids, m)[i] in Ids(MapEntries(v, m)) <==> ids[i] in Ids(v) {
      RelabelIds(v, m, ids[i]);
    }
  }

  lemma RelabelScoredAt(shape: Shape, step: Scorer, ids: seq<int>, vectors: map<ChunkId, Vector>, m: map<int, int>,
                        c: ChunkId)
    requires Labelled(vectors, m) && Monotone(m)
    requires forall i | 0 <= i < |ids| :: ids[i] in m
    ensures var before := ScoredIds(shape, step, ids, vectors);
            var after := ScoredIds(shape, step, MapSeq(ids, m), RelabelAll(vectors, m));
            (c in after <==> c in before) && (c in before ==> after[c] == before[c])
  {
    if c in vectors {
      RelabelMatches(ids, vectors[c], m);
      RelabelScore(shape, step, ids, vectors, m, c);
    }
  }

  lemma RelabelScore(shape: Shape, step: Scorer, ids: seq<int>, vectors: map<ChunkId, Vector>, m: map<int, int>,
                     c: ChunkId)
    requires c in vectors && Labelled(vectors, m) && Monotone(m)
    requires forall i | 0 <= i < |ids| :: ids[i] in m
    ensures ScoreOf(shape, step, MapSeq(ids, m), RelabelAll(vectors, m), c) == ScoreOf(shape, step, ids, vectors, c)
  {
    RelabelFold(if shape.Posting? then AddWeight else step, ids, c, vectors, m);
  }

  lemma SameMap<K, V>(a: map<K, V>, b: map<K, V>)
    requires forall c :: c in a <==> c in b
    requires forall c | c in a :: a[c] == b[c]
    ensures a == b
  {
  }

  lemma RelabelScored(shape: Shape, step: Scorer, ids: seq<int>, vectors: map<ChunkId, Vector>, m: map<int, int>)
    requires Labelled(vectors, m) && Monotone(m)
    requires forall i | 0 <= i < |ids| :: ids[i] in m
    ensures ScoredIds(shape, step, MapSeq(ids, m), RelabelAll(vectors, m)) == ScoredIds(shape, step, ids, vectors)
  {
    var before := ScoredIds(shape, step, ids, vectors);
    var after := ScoredIds(shape, step, MapSeq(ids, m), RelabelAll(vectors, m));
    forall c: ChunkId ensures (c in after <==> c in before) && (c in before ==> after[c] == before[c]) {
      RelabelScoredAt(shape, step, ids, vectors, m, c);
    }
    SameMap(before, after);
  }

  /** Renumbering changes no score: every query, sampled or not, scores the same
      documents the same, under either shape and for any scorer. */
  lemma RelabelKeepsScores(shape: Shape, step: Scorer, query: set<Term>, vocab: Vocabulary,
                           vectors: map<ChunkId, Vector>, m: map<int, int>)
    requires vocab.Values <= m.Keys && Labelled(vectors, m) && Monotone(m)
    ensures Scored(shape, step, query, RelabelVocabulary(vocab, m), RelabelAll(vectors, m))
         == Scored(shape, step, query, vocab, vectors)
  {
    RelabelQuery(query, vocab, m);
    var ids := QueryIds(query, vocab);
    SortedMonotone(ids, m);
    RelabelScored(shape, step, Sorted(ids), vectors, m);
  }

  // ── What a score is, on terms ────────────────────────────────────

  lemma {:induction false} WeightAt(v: Vector, i: nat)
    requires Increasing(v) && i < |v|
    ensures WeightOf(v, v[i].id) == v[i].weight
  {
    if i > 0 {
      assert v[0].id < v[i].id;
      WeightAt(v[1..], i - 1);
    }
  }

  lemma {:induction false} NoWeight(v: Vector, id: int)
    requires id !in Ids(v)
    ensures WeightOf(v, id) == 0.0
  {
    if v != [] {
      IdOf(v, 0);
      forall e | e in v[1..] ensures e in v {}
      NoWeight(v[1..], id);
    }
  }

  /** Through the vocabulary, a document's weight for a term is what its text gave it. */
  lemma WeightDenoted(v: Vector, vocab: Vocabulary, bag: Bag, t: Term)
    requires Injective(vocab) && Denotes(v, vocab, bag) && t in vocab
    ensures vocab[t] in Ids(v) <==> t in bag
    ensures WeightOf(v, vocab[t]) == if t in bag then bag[t] else 0.0
  {
    if t in bag {
      var i :| 0 <= i < |v| && v[i] == Entry(vocab[t], bag[t]);
      IdOf(v, i);
      WeightAt(v, i);
    } else {
      forall e | e in v ensures e.id != vocab[t] {
        assert Explained(e, vocab, bag);
        var u :| u in bag && vocab[u] == e.id && bag[u] == e.weight;
      }
      NoWeight(v, vocab[t]);
    }
  }

  /** The documents whose text has the term. */
  function Having(bags: map<ChunkId, Bag>, t: Term): set<ChunkId> {
    set c | c in bags && t in bags[c]
  }

  ghost predicate AllDenote(vectors: map<ChunkId, Vector>, vocab: Vocabulary, bags: map<ChunkId, Bag>) {
    bags.Keys == vectors.Keys && forall c | c in vectors :: Denotes(vectors[c], vocab, bags[c])
  }

  lemma HoldersHave(vectors: map<ChunkId, Vector>, vocab: Vocabulary, bags: map<ChunkId, Bag>, t: Term)
    requires Injective(vocab) && AllDenote(vectors, vocab, bags) && t in vocab
    ensures Holders(vectors, vocab[t]) == Having(bags, t)
  {
    forall c | c in vectors ensures vocab[t] in Ids(vectors[c]) <==> t in bags[c] {
      WeightDenoted(vectors[c], vocab, bags[c], t);
    }
  }

  /** One term after another, by its count in the document and the number of documents
      that have it. */
  ghost predicate Accumulates(step: Scorer, terms: seq<Term>, accs: seq<real>, bags: map<ChunkId, Bag>, c: ChunkId,
                              len: real, total: real)
    requires c in bags
  {
    && |accs| == |terms| + 1 && accs[0] == 0.0
    && forall n | 0 <= n < |terms| ::
         accs[n + 1] == step(accs[n], if terms[n] in bags[c] then bags[c][terms[n]] else 0.0,
                             |Having(bags, terms[n])|, |bags|, len, total)
  }

  lemma {:induction false} FoldAccumulates(step: Scorer, ids: seq<int>, vocab: Vocabulary,
                                           vectors: map<ChunkId, Vector>, bags: map<ChunkId, Bag>, c: ChunkId)
    returns (terms: seq<Term>, accs: seq<real>)
    requires Injective(vocab) && AllDenote(vectors, vocab, bags) && c in vectors && c in bags
    requires forall n | 0 <= n < |ids| :: ids[n] in vocab.Values
    ensures |terms| == |ids| && forall n | 0 <= n < |ids| :: terms[n] in vocab && vocab[terms[n]] == ids[n]
    ensures Accumulates(step, terms, accs, bags, c, Length(vectors[c]), TotalLength(vectors.Keys, vectors))
    ensures |accs| == |ids| + 1 && accs[|ids|] == Fold(step, ids, vectors[c], vectors)
  {
    hide *;
    if ids == [] {
      terms, accs := [], [0.0];
      NothingAccumulated(step, bags, c, vectors);
    } else {
      var k := |ids| - 1;
      assert ids[k] in vocab.Values;
      terms, accs := FoldAccumulates(step, ids[..k], vocab, vectors, bags, c);
      var t :| t in vocab && vocab[t] == ids[k];
      FoldLast(step, ids, vocab, vectors, bags, c, t);
      AccumulatesMore(step, terms, accs, bags, c, Length(vectors[c]), TotalLength(vectors.Keys, vectors), t,
                      Fold(step, ids, vectors[c], vectors));
      TermsMore(terms, ids, vocab, t);
      terms, accs := terms + [t], accs + [Fold(step, ids, vectors[c], vectors)];
    }
  }

  lemma NothingAccumulated(step: Scorer, bags: map<ChunkId, Bag>, c: ChunkId, vectors: map<ChunkId, Vector>)
    requires c in bags && c in vectors
    ensures Accumulates(step, [], [0.0], bags, c, Length(vectors[c]), TotalLength(vectors.Keys, vectors))
    ensures Fold(step, [], vectors[c], vectors) == 0.0
  {
  }

  lemma TermsMore(terms: seq<Term>, ids: seq<int>, vocab: Vocabulary, t: Term)
    requires ids != [] && |terms| == |ids| - 1 && t in vocab && vocab[t] == ids[|ids| - 1]
    requires forall n | 0 <= n < |terms| :: terms[n] in vocab && vocab[terms[n]] == ids[..|ids| - 1][n]
    ensures forall n | 0 <= n < |ids| :: (terms + [t])[n] in vocab && vocab[(terms + [t])[n]] == ids[n]
  {
  }

  lemma FoldLast(step: Scorer, ids: seq<int>, vocab: Vocabulary, vectors: map<ChunkId, Vector>,
                 bags: map<ChunkId, Bag>, c: ChunkId, t: Term)
    requires Injective(vocab) && AllDenote(vectors, vocab, bags) && c in vectors
    requires ids != [] && t in vocab && vocab[t] == ids[|ids| - 1]
    ensures c in bags
    ensures Fold(step, ids, vectors[c], vectors) ==
      step(Fold(step, ids[..|ids| - 1], vectors[c], vectors), if t in bags[c] then bags[c][t] else 0.0,
           |Having(bags, t)|, |bags|, Length(vectors[c]), TotalLength(vectors.Keys, vectors))
  {
    WeightDenoted(vectors[c], vocab, bags[c], t);
    HoldersHave(vectors, vocab, bags, t);
    assert |bags.Keys| == |vectors.Keys|;
  }

  lemma AccumulatesMore(step: Scorer, terms: seq<Term>, accs: seq<real>, bags: map<ChunkId, Bag>, c: ChunkId,
                        len: real, total: real, t: Term, next: real)
    requires c in bags && Accumulates(step, terms, accs, bags, c, len, total)
    requires next ==
      step(accs[|terms|], if t in bags[c] then bags[c][t] else 0.0, |Having(bags, t)|, |bags|, len, total)
    ensures Accumulates(step, terms + [t], accs + [next], bags, c, len, total)
  {
    hide Having;
  }

  /** A score is a matter of what the texts say: the query's known terms, in the order
      of their ids, each entered once, by its count in the document and the number of
      documents that have it; `posting` scores the documents with a matching term. */
  lemma ScoreMeans(shape: Shape, step: Scorer, query: set<Term>, vocab: Vocabulary, vectors: map<ChunkId, Vector>,
                   bags: map<ChunkId, Bag>, c: ChunkId) returns (terms: seq<Term>, accs: seq<real>)
    requires Injective(vocab) && AllDenote(vectors, vocab, bags) && c in vectors
    ensures c in bags && |accs| == |terms| + 1
    ensures forall t :: t in terms <==> t in query && t in vocab
    ensures forall m, n | 0 <= m < n < |terms| :: vocab[terms[m]] < vocab[terms[n]]
    ensures c in Scored(shape, step, query, vocab, vectors) <==>
      terms != [] && (shape.Posting? ==> exists t :: t in terms && t in bags[c])
    ensures var add := if shape.Posting? then AddWeight else step;
      Accumulates(add, terms, accs, bags, c, Length(vectors[c]), TotalLength(vectors.Keys, vectors))
    ensures shape.Posting? ==> forall n | 0 <= n < |terms| ::
      accs[n + 1] == accs[n] + if terms[n] in bags[c] then bags[c][terms[n]] else 0.0
    ensures c in Scored(shape, step, query, vocab, vectors) ==>
      Scored(shape, step, query, vocab, vectors)[c] == if shape.Posting? then -accs[|terms|] else accs[|terms|]
  {
    hide *;
    var ids := Sorted(QueryIds(query, vocab));
    SortedAscends(QueryIds(query, vocab));
    QueryIdsKnown(query, vocab, ids);
    ScoredAt(shape, step, query, vocab, vectors, c);
    OneDenotes(vectors, vocab, bags, c);
    var add := if shape.Posting? then AddWeight else step;
    terms, accs := FoldAccumulates(add, ids, vocab, vectors, bags, c);
    TermsOfQuery(query, vocab, ids, terms);
    MatchesTerms(ids, terms, vectors[c], vocab, bags[c]);
    if shape.Posting? { AddsUp(terms, accs, bags, c, Length(vectors[c]), TotalLength(vectors.Keys, vectors)); }
  }

  lemma AddsUp(terms: seq<Term>, accs: seq<real>, bags: map<ChunkId, Bag>, c: ChunkId, len: real, total: real)
    requires c in bags && Accumulates(AddWeight, terms, accs, bags, c, len, total)
    ensures |accs| == |terms| + 1
    ensures forall n | 0 <= n < |terms| ::
      accs[n + 1] == accs[n] + if terms[n] in bags[c] then bags[c][terms[n]] else 0.0
  {
  }

  lemma OneDenotes(vectors: map<ChunkId, Vector>, vocab: Vocabulary, bags: map<ChunkId, Bag>, c: ChunkId)
    requires AllDenote(vectors, vocab, bags) && c in vectors
    ensures c in bags && Denotes(vectors[c], vocab, bags[c])
  {
  }

  lemma QueryIdsKnown(query: set<Term>, vocab: Vocabulary, ids: seq<int>)
    requires ids == Sorted(QueryIds(query, vocab))
    ensures forall n | 0 <= n < |ids| :: ids[n] in vocab.Values
  {
    forall n | 0 <= n < |ids| ensures ids[n] in vocab.Values {
      assert ids[n] in ids;
      var t :| t in query && t in vocab && vocab[t] == ids[n];
      assert vocab[t] in vocab.Values;
    }
  }

  lemma ScoredAt(shape: Shape, step: Scorer, query: set<Term>, vocab: Vocabulary, vectors: map<ChunkId, Vector>,
                 c: ChunkId)
    requires c in vectors
    ensures var ids := Sorted(QueryIds(query, vocab));
      && (c in Scored(shape, step, query, vocab, vectors) <==>
            ids != [] && (shape.Posting? ==> Matches(ids, vectors[c])))
      && (c in Scored(shape, step, query, vocab, vectors) ==>
            Scored(shape, step, query, vocab, vectors)[c] ==
              if shape.Posting? then -Fold(AddWeight, ids, vectors[c], vectors)
              else Fold(step, ids, vectors[c], vectors))
  {
  }

  lemma TermsOfQuery(query: set<Term>, vocab: Vocabulary, ids: seq<int>, terms: seq<Term>)
    requires Injective(vocab) && ids == Sorted(QueryIds(query, vocab)) && |terms| == |ids|
    requires forall n | 0 <= n < |ids| :: terms[n] in vocab && vocab[terms[n]] == ids[n]
    ensures forall t :: t in terms <==> t in query && t in vocab
  {
    forall t | t in terms ensures t in query && t in vocab {
      var n :| 0 <= n < |terms| && terms[n] == t;
      assert ids[n] in ids;
      var u :| u in query && u in vocab && vocab[u] == ids[n];
    }
    forall t | t in query && t in vocab ensures t in terms {
      assert vocab[t] in ids;
      var n :| 0 <= n < |ids| && ids[n] == vocab[t];
    }
  }

  lemma MatchesTerms(ids: seq<int>, terms: seq<Term>, v: Vector, vocab: Vocabulary, bag: Bag)
    requires Injective(vocab) && Denotes(v, vocab, bag) && |terms| == |ids|
    requires forall n | 0 <= n < |ids| :: terms[n] in vocab && vocab[terms[n]] == ids[n]
    ensures Matches(ids, v) <==> exists t :: t in terms && t in bag
  {
    forall n | 0 <= n < |ids| ensures ids[n] in Ids(v) <==> terms[n] in bag {
      WeightDenoted(v, vocab, bag, terms[n]);
    }
    if n :| 0 <= n < |ids| && ids[n] in Ids(v) { assert terms[n] in terms && terms[n] in bag; }
    if t :| t in terms && t in bag {
      var n :| 0 <= n < |terms| && terms[n] == t;
      assert ids[n] in Ids(v);
    }
  }
}
