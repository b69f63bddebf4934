/** Stored term vectors, and what they mean through the vocabulary. */
module Vectors {
  import opened ChunkIds
  import opened Ranks

  // A vector lists (term id, weight) pairs in strictly increasing id order: a
  // `bm25vector` holds raw counts, the `posting` rows of one chunk hold weights.

  type Term = string
  datatype Entry = Entry(id: int, weight: real)
  type Vector = seq<Entry>
  type Vocabulary = map<Term, int>
  /** What a text was encoded to: its terms, each with its count or weight. */
  type Bag = map<Term, real>

  predicate Increasing(v: Vector) {
    forall i, j | 0 <= i < j < |v| :: v[i].id < v[j].id
  }

  function Ids(v: Vector): set<int> {
    set e | e in v :: e.id
  }

  /** The vector is exactly this bag, with each term written as its id. */
  ghost predicate Denotes(v: Vector, vocab: Vocabulary, bag: Bag) {
    && Increasing(v)
    && bag.Keys <= vocab.Keys
    && (forall t | t in bag :: Entry(vocab[t], bag[t]) in v)
    && (forall e | e in v :: Explained(e, vocab, bag))
  }

  ghost predicate Explained(e: Entry, vocab: Vocabulary, bag: Bag)
    requires bag.Keys <= vocab.Keys
  {
    exists t :: t in bag && vocab[t] == e.id && bag[t] == e.weight
  }

  /** Through an injective vocabulary a vector means one bag only. */
  lemma DenotesOneBag(v: Vector, vocab: Vocabulary, a: Bag, b: Bag)
    requires Injective(vocab) && Denotes(v, vocab, a) && Denotes(v, vocab, b)
    ensures a == b
  {
    DenotesIncluded(v, vocab, a, b);
    DenotesIncluded(v, vocab, b, a);
  }

  lemma DenotesIncluded(v: Vector, vocab: Vocabulary, a: Bag, b: Bag)
    requires Injective(vocab) && Denotes(v, vocab, a) && Denotes(v, vocab, b)
    ensures forall t | t in a :: t in b && a[t] == b[t]
  {
    forall t | t in a ensures t in b && a[t] == b[t] {
      var e := Entry(vocab[t], a[t]);
      assert e in v;
      assert Explained(e, vocab, b);
      var u :| u in b && vocab[u] == e.id && b[u] == e.weight;
      assert vocab[t] == vocab[u];
    }
  }

  // ── Relabelling ──────────────────────────────────────────────────

  ghost predicate Monotone(m: map<int, int>) {
    forall x, y {:trigger m[x], m[y]} | x in m && y in m && x < y :: m[x] < m[y]
  }

  lemma MonotoneInjective(m: map<int, int>)
    requires Monotone(m)
    ensures Injective(m)
  {
    forall x, y | x in m && y in m ensures m[x] == m[y] ==> x == y {
      assert x < y ==> m[x] < m[y];
      assert y < x ==> m[y] < m[x];
    }
  }

  function MapEntries(v: Vector, m: map<int, int>): (r: Vector)
    requires Ids(v) <= m.Keys
    ensures |r| == |v|
    ensures forall i | 0 <= i < |v| :: r[i] == Entry(m[v[i].id], v[i].weight)
  {
    if v == [] then [] else
      assert v[0].id in Ids(v);
      assert forall e | e in v[1..] :: e in v && e.id in Ids(v);
      [Entry(m[v[0].id], v[0].weight)] + MapEntries(v[1..], m)
  }

  function RelabelVocabulary(vocab: Vocabulary, m: map<int, int>): Vocabulary
    requires vocab.Values <= m.Keys
  {
    map t | t in vocab :: assert vocab[t] in vocab.Values; m[vocab[t]]
  }

  lemma IdOf(v: Vector, i: nat)
    requires i < |v|
    ensures v[i].id in Ids(v)
  {
    assert v[i] in v;
  }

  /** A monotone relabelling keeps a vector strictly increasing, with every weight in place. */
  lemma RelabelKeepsOrder(v: Vector, m: map<int, int>)
    requires Increasing(v) && Ids(v) <= m.Keys && Monotone(m)
    ensures Increasing(MapEntries(v, m))
  {
    forall i, j | 0 <= i < j < |v| ensures MapEntries(v, m)[i].id < MapEntries(v, m)[j].id {
      IdOf(v, i);
      IdOf(v, j);
    }
  }

  /** Relabelling vector and vocabulary together changes no meaning: a vector
      denotes a bag afterwards exactly when it did before. */
  lemma RelabelKeepsMeaning(v: Vector, vocab: Vocabulary, m: map<int, int>, bag: Bag)
    requires Increasing(v) && Ids(v) <= m.Keys && vocab.Values <= m.Keys && Monotone(m)
    ensures Denotes(MapEntries(v, m), RelabelVocabulary(vocab, m), bag) <==> Denotes(v, vocab, bag)
  {
    MonotoneInjective(m);
    RelabelKeepsOrder(v, m);
    if Denotes(v, vocab, bag) {
      RelabelDenotes(v, vocab, m, bag);
    }
    if Denotes(MapEntries(v, m), RelabelVocabulary(vocab, m), bag) {
      UnlabelDenotes(v, vocab, m, bag);
    }
  }

  /** Each term's entry moves to its new id. */
  lemma RelabelEntry(v: Vector, vocab: Vocabulary, m: map<int, int>, bag: Bag, t: Term)
    requires Denotes(v, vocab, bag) && Ids(v) <= m.Keys && vocab.Values <= m.Keys && t in bag
    ensures Entry(RelabelVocabulary(vocab, m)[t], bag[t]) in MapEntries(v, m)
  {
    var i :| 0 <= i < |v| && v[i] == Entry(vocab[t], bag[t]);
    assert MapEntries(v, m)[i] == Entry(RelabelVocabulary(vocab, m)[t], bag[t]);
  }

  /** Each moved entry is still some term's. */
  lemma RelabelExplained(v: Vector, vocab: Vocabulary, m: map<int, int>, bag: Bag, i: nat)
    requires Denotes(v, vocab, bag) && Ids(v) <= m.Keys && vocab.Values <= m.Keys && i < |v|
    ensures Explained(MapEntries(v, m)[i], RelabelVocabulary(vocab, m), bag)
  {
    assert Explained(v[i], vocab, bag);
    var t :| t in bag && vocab[t] == v[i].id && bag[t] == v[i].weight;
    assert RelabelVocabulary(vocab, m)[t] == MapEntries(v, m)[i].id;
  }

  lemma RelabelDenotes(v: Vector, vocab: Vocabulary, m: map<int, int>, bag: Bag)
    requires Denotes(v, vocab, bag) && Ids(v) <= m.Keys && vocab.Values <= m.Keys && Monotone(m)
    ensures Denotes(MapEntries(v, m), RelabelVocabulary(vocab, m), bag)
  {
    var w, vocab' := MapEntries(v, m), RelabelVocabulary(vocab, m);
    RelabelKeepsOrder(v, m);
    forall t | t in bag ensures Entry(vocab'[t], bag[t]) in w { RelabelEntry(v, vocab, m, bag, t); }
    forall e | e in w ensures Explained(e, vocab', bag) {
      var i :| 0 <= i < |w| && w[i] == e;
      RelabelExplained(v, vocab, m, bag, i);
    }
  }

  lemma UnlabelEntry(v: Vector, vocab: Vocabulary, m: map<int, int>, bag: Bag, t: Term)
    requires Ids(v) <= m.Keys && vocab.Values <= m.Keys && Injective(m)
    requires Denotes(MapEntries(v, m), RelabelVocabulary(vocab, m), bag) && t in bag
    ensures Entry(vocab[t], bag[t]) in v
  {
    var w := MapEntries(v, m);
    assert vocab[t] in vocab.Values;
    var i :| 0 <= i < |w| && w[i] == Entry(RelabelVocabulary(vocab, m)[t], bag[t]);
    IdOf(v, i);
    assert v[i] == Entry(vocab[t], bag[t]);
  }

  lemma UnlabelExplained(v: Vector, vocab: Vocabulary, m: map<int, int>, bag: Bag, i: nat)
    requires Ids(v) <= m.Keys && vocab.Values <= m.Keys && Injective(m)
    requires Denotes(MapEntries(v, m), RelabelVocabulary(vocab, m), bag) && i < |v|
    ensures Explained(v[i], vocab, bag)
  {
    var w := MapEntries(v, m);
    IdOf(v, i);
    assert Explained(w[i], RelabelVocabulary(vocab, m), bag);
    var t :| t in bag && RelabelVocabulary(vocab, m)[t] == w[i].id && bag[t] == w[i].weight;
    assert vocab[t] in vocab.Values;
    assert m[vocab[t]] == m[v[i].id];
  }

  lemma UnlabelDenotes(v: Vector, vocab: Vocabulary, m: map<int, int>, bag: Bag)
    requires Increasing(v) && Ids(v) <= m.Keys && vocab.Values <= m.Keys && Injective(m)
    requires Denotes(MapEntries(v, m), RelabelVocabulary(vocab, m), bag)
    ensures Denotes(v, vocab, bag)
  {
    forall t | t in bag ensures Entry(vocab[t], bag[t]) in v { UnlabelEntry(v, vocab, m, bag, t); }
    forall e | e in v ensures Explained(e, vocab, bag) {
      var i :| 0 <= i < |v| && v[i] == e;
      UnlabelExplained(v, vocab, m, bag, i);
    }
  }

  /** Ids of a vector that means something are ids of the vocabulary. */
  lemma DenotesKnownIds(v: Vector, vocab: Vocabulary, bag: Bag)
    requires Denotes(v, vocab, bag)
    ensures Ids(v) <= vocab.Values
  {
    forall x | x in Ids(v) ensures x in vocab.Values {
      var e :| e in v && e.id == x;
      assert Explained(e, vocab, bag);
      var t :| t in bag && vocab[t] == e.id && bag[t] == e.weight;
      assert vocab[t] in vocab.Values;
    }
  }

  function RelabelAll(vectors: map<ChunkId, Vector>, m: map<int, int>): (r: map<ChunkId, Vector>)
    requires forall c | c in vectors :: Ids(vectors[c]) <= m.Keys
  {
    map c | c in vectors :: MapEntries(vectors[c], m)
  }

  lemma RelabelIds(v: Vector, m: map<int, int>, id: int)
    requires Ids(v) <= m.Keys && Monotone(m) && id in m
    ensures m[id] in Ids(MapEntries(v, m)) <==> id in Ids(v)
    ensures forall x | x in Ids(MapEntries(v, m)) :: x in m.Values
  {
    var w := MapEntries(v, m);
    MonotoneInjective(m);
    if id in Ids(v) {
      var i :| 0 <= i < |v| && v[i].id == id;
      IdOf(w, i);
    }
    forall x | x in Ids(w) ensures exists y :: y in Ids(v) && m[y] == x {
      var i :| 0 <= i < |w| && w[i].id == x;
      IdOf(v, i);
      assert m[v[i].id] == x;
    }
  }

  // ── Sorted ids ───────────────────────────────────────────────────

  /** `ORDER BY term_id`. */
  function Sorted(s: set<int>): (r: seq<int>)
    ensures forall x :: x in r <==> x in s
    ensures |r| == |s|
  {
    if s == {} then [] else [Min(s)] + Sorted(s - {Min(s)})
  }

  lemma {:induction false} SortedAscends(s: set<int>)
    ensures forall i, j | 0 <= i < j < |s| :: Sorted(s)[i] < Sorted(s)[j]
  {
    if s != {} {
      var rest := Sorted(s - {Min(s)});
      SortedAscends(s - {Min(s)});
      assert Sorted(s) == [Min(s)] + rest;
      forall j | 0 <= j < |rest| ensures Min(s) < rest[j] { assert rest[j] in rest; }
    }
  }

  function Image(s: set<int>, m: map<int, int>): set<int>
    requires s <= m.Keys
  {
    set x | x in s :: m[x]
  }

  lemma InImage(s: set<int>, m: map<int, int>, x: int)
    requires s <= m.Keys && x in s
    ensures m[x] in Image(s, m)
  {
  }

  function MapSeq(s: seq<int>, m: map<int, int>): (r: seq<int>)
    requires forall i | 0 <= i < |s| :: s[i] in m
    ensures |r| == |s|
    ensures forall i | 0 <= i < |s| :: r[i] == m[s[i]]
  {
    if s == [] then [] else
      [m[s[0]]] + MapSeq(s[1..], m)
  }

  lemma {:induction false} SortedMonotone(s: set<int>, m: map<int, int>)
    requires s <= m.Keys && Monotone(m)
    ensures Sorted(Image(s, m)) == MapSeq(Sorted(s), m)
  {
    if s == {} {
      assert Image(s, m) == {};
    } else {
      var least := Min(s);
      assert m[least] in Image(s, m);
      ImageMin(s, m);
      ImageWithout(s, m, least);
      SortedMonotone(s - {least}, m);
      var rest := Sorted(s - {least});
      assert Sorted(s) == [least] + rest;
      assert Sorted(s)[1..] == rest;
      assert Sorted(Image(s, m)) == [m[least]] + Sorted(Image(s, m) - {m[least]});
    }
  }

  lemma ImageMin(s: set<int>, m: map<int, int>)
    requires s != {} && s <= m.Keys && Monotone(m)
    ensures Image(s, m) != {} && Min(Image(s, m)) == m[Min(s)]
  {
    assert m[Min(s)] in Image(s, m);
    forall y | y in Image(s, m) ensures m[Min(s)] <= y {
      var x :| x in s && m[x] == y;
      if x != Min(s) { assert Min(s) < x; }
    }
  }

  lemma ImageWithout(s: set<int>, m: map<int, int>, x: int)
    requires x in s && s <= m.Keys && Monotone(m)
    ensures Image(s, m) - {m[x]} == Image(s - {x}, m)
  {
    MonotoneInjective(m);
  }
}
