/** A numbering of the vocabulary with the vectors stored under it, and the two
    maps that replace it: the dense one, and the one that puts it back. */
module Numberings {
  import opened ChunkIds
  import opened Ranks
  import opened Vectors
  import opened Scores

  datatype Numbering = Numbering(
    vocab: Vocabulary,
    next: int,                        // what bm25_term_id_seq hands out next
    epoch: nat,                       // bm25_vocab_epoch
    vectors: map<ChunkId, Vector>     // the active shape's copies of the ids
  )

  /** What the unique index and the vector type keep: ids are unique, and a
      stored vector lists its own in order. */
  ghost predicate Typed(n: Numbering) {
    && Injective(n.vocab) && (forall t | t in n.vocab :: 0 <= n.vocab[t])
    && (forall c | c in n.vectors :: Increasing(n.vectors[c]))
  }

  /** Stored vectors name ids of the vocabulary. */
  ghost predicate Known(n: Numbering) {
    forall c | c in n.vectors :: Ids(n.vectors[c]) <= n.vocab.Values
  }

  /** And every id has been handed out. */
  ghost predicate WellFormed(n: Numbering) {
    Typed(n) && Known(n) && 0 <= n.next && forall t | t in n.vocab :: n.vocab[t] < n.next
  }

  /** The largest id in use, -1 when there is none. */
  function Largest(vocab: Vocabulary): (m: int)
    ensures vocab == map[] ==> m == -1
    ensures forall t | t in vocab :: vocab[t] <= m
    ensures vocab != map[] ==> exists t :: t in vocab && vocab[t] == m
  {
    assert forall t | t in vocab :: vocab[t] in vocab.Values;
    if vocab.Values == {} then -1 else Max(vocab.Values)
  }

  /** The mapping tables: each term's id before and after, and the run's facts. */
  datatype Receipt = Receipt(
    was: Vocabulary,
    became: Vocabulary,
    shape: Shape,
    schema: string,
    epochBefore: nat,
    epochAfter: nat,
    largestOld: int,
    nextBefore: int
  )

  function Relabelled(n: Numbering, m: map<int, int>, next: int): Numbering
    requires n.vocab.Values <= m.Keys && Labelled(n.vectors, m)
  {
    Numbering(RelabelVocabulary(n.vocab, m), next, n.epoch + 1, RelabelAll(n.vectors, m))
  }

  // ── Apply ────────────────────────────────────────────────────────

  function ReceiptOf(n: Numbering, shape: Shape, schema: string): Receipt
    requires n.vocab != map[]
  {
    assert exists t :: t in n.vocab;
    assert n.vocab.Values != {} by {
      var t :| t in n.vocab;
      assert n.vocab[t] in n.vocab.Values;
    }
    Receipt(n.vocab, RelabelVocabulary(n.vocab, DenseMap(n.vocab.Values)), shape, schema,
            n.epoch, n.epoch + 1, Max(n.vocab.Values), n.next)
  }

  function Renumbered(n: Numbering): Numbering
    requires Labelled(n.vectors, DenseMap(n.vocab.Values))
  {
    Relabelled(n, DenseMap(n.vocab.Values), |n.vocab|)
  }

  lemma DenseMapMonotone(ids: set<int>)
    ensures Monotone(DenseMap(ids))
  {
    var m := DenseMap(ids);
    forall x, y | x in m && y in m && x < y ensures m[x] < m[y] { RankMonotone(ids, x, y); }
  }

  lemma RelabelVocabularyInjective(vocab: Vocabulary, m: map<int, int>)
    requires vocab.Values <= m.Keys && Injective(vocab) && Injective(m)
    ensures Injective(RelabelVocabulary(vocab, m))
  {
    forall s, t | s in vocab && t in vocab && m[vocab[s]] == m[vocab[t]] ensures s == t {
      assert vocab[s] in vocab.Values && vocab[t] in vocab.Values;
    }
  }

  /** Any monotone relabelling into fresh room keeps the numbering well formed. */
  lemma RelabelledWellFormed(n: Numbering, m: map<int, int>, next: int)
    requires Typed(n) && Known(n) && n.vocab.Values <= m.Keys && Labelled(n.vectors, m) && Monotone(m)
    requires 0 <= next && forall t | t in n.vocab :: 0 <= m[n.vocab[t]] < next
    ensures WellFormed(Relabelled(n, m, next))
  {
    MonotoneInjective(m);
    RelabelVocabularyInjective(n.vocab, m);
    var n' := Relabelled(n, m, next);
    forall c | c in n.vectors
      ensures Increasing(n'.vectors[c]) && Ids(n'.vectors[c]) <= n'.vocab.Values
    {
      RelabelKeepsOrder(n.vectors[c], m);
      RelabelKnown(n.vectors[c], n.vocab, m);
    }
  }

  lemma RelabelKnown(v: Vector, vocab: Vocabulary, m: map<int, int>)
    requires vocab.Values <= m.Keys && Ids(v) <= vocab.Values
    ensures Ids(MapEntries(v, m)) <= RelabelVocabulary(vocab, m).Values
  {
    var vocab' := RelabelVocabulary(vocab, m);
    forall x | x in Ids(MapEntries(v, m)) ensures x in vocab'.Values {
      var i :| 0 <= i < |v| && MapEntries(v, m)[i].id == x;
      IdOf(v, i);
      var t :| t in vocab && vocab[t] == v[i].id;
      assert vocab'[t] == x;
    }
  }

  lemma VectorsLabelled(n: Numbering, m: map<int, int>)
    requires Typed(n) && Known(n) && n.vocab.Values <= m.Keys
    ensures Labelled(n.vectors, m)
  {
  }

  lemma RenumberedTerm(n: Numbering, t: Term)
    requires Typed(n) && t in n.vocab
    ensures n.vocab[t] in n.vocab.Values
    ensures 0 <= DenseMap(n.vocab.Values)[n.vocab[t]] < |n.vocab|
    ensures DenseMap(n.vocab.Values)[n.vocab[t]] <= n.vocab[t]
  {
    assert n.vocab[t] in n.vocab.Values;
    InjectiveSize(n.vocab);
    RankInRange(n.vocab.Values, n.vocab[t]);
    RankNeverRaises(n.vocab.Values, n.vocab[t]);
  }

  lemma RenumberedWellFormed(n: Numbering)
    requires Typed(n) && Known(n)
    ensures Labelled(n.vectors, DenseMap(n.vocab.Values)) && WellFormed(Renumbered(n))
  {
    var m := DenseMap(n.vocab.Values);
    VectorsLabelled(n, m);
    DenseMapMonotone(n.vocab.Values);
    forall t | t in n.vocab ensures 0 <= m[n.vocab[t]] < |n.vocab| { RenumberedTerm(n, t); }
    RelabelledWellFormed(n, m, |n.vocab|);
  }

  lemma RenumberedOrder(n: Numbering, s: Term, t: Term)
    requires Typed(n) && Labelled(n.vectors, DenseMap(n.vocab.Values)) && s in n.vocab && t in n.vocab
    ensures n.vocab[s] < n.vocab[t] <==> Renumbered(n).vocab[s] < Renumbered(n).vocab[t]
  {
    var ids := n.vocab.Values;
    assert n.vocab[s] in ids && n.vocab[t] in ids;
    if n.vocab[s] < n.vocab[t] {
      RankMonotone(ids, n.vocab[s], n.vocab[t]);
    } else if n.vocab[t] < n.vocab[s] {
      RankMonotone(ids, n.vocab[t], n.vocab[s]);
    }
  }

  /** Apply: the ids become exactly 0 .. terms-1, in their present order, none
      of them larger than before, and the sequence continues after them. */
  lemma RenumberedIsDense(n: Numbering)
    requires Typed(n) && Known(n)
    ensures Labelled(n.vectors, DenseMap(n.vocab.Values)) && WellFormed(Renumbered(n))
    ensures Renumbered(n).vocab.Values == Upto(|n.vocab|) && Renumbered(n).next == |n.vocab|
    ensures forall s, t | s in n.vocab && t in n.vocab ::
              n.vocab[s] < n.vocab[t] <==> Renumbered(n).vocab[s] < Renumbered(n).vocab[t]
    ensures forall t | t in n.vocab :: Renumbered(n).vocab[t] <= n.vocab[t]
  {
    RenumberedWellFormed(n);
    RenumberedOnto(n);
    forall s, t | s in n.vocab && t in n.vocab
      ensures n.vocab[s] < n.vocab[t] <==> Renumbered(n).vocab[s] < Renumbered(n).vocab[t]
    {
      RenumberedOrder(n, s, t);
    }
    forall t | t in n.vocab ensures Renumbered(n).vocab[t] <= n.vocab[t] { RenumberedTerm(n, t); }
  }

  lemma RenumberedOnto(n: Numbering)
    requires Typed(n) && Labelled(n.vectors, DenseMap(n.vocab.Values))
    ensures Renumbered(n).vocab.Values == Upto(|n.vocab|)
  {
    var ids := n.vocab.Values;
    var m := DenseMap(ids);
    InjectiveSize(n.vocab);
    RankBijection(ids);
    var vocab' := RelabelVocabulary(n.vocab, m);
    forall i | i in m.Values ensures i in vocab'.Values {
      var x :| x in m && m[x] == i;
      var t :| t in n.vocab && n.vocab[t] == x;
      assert vocab'[t] == i;
    }
    forall i | i in vocab'.Values ensures i in m.Values {
      var t :| t in vocab' && vocab'[t] == i;
      assert n.vocab[t] in m;
    }
    assert vocab'.Values == m.Values;
  }

  /** A second apply has nothing to do: dense ids are a fixed point. */
  lemma RenumberTwice(n: Numbering)
    requires Typed(n) && Known(n) && SurveyDense(n.vocab.Values)
    ensures Labelled(n.vectors, DenseMap(n.vocab.Values))
    ensures Renumbered(n).vocab == n.vocab && Renumbered(n).vectors == n.vectors
  {
    var m := DenseMap(n.vocab.Values);
    VectorsLabelled(n, m);
    forall x | x in m ensures m[x] == x { DenseRankIsIdentity(n.vocab.Values, x); }
    forall t | t in n.vocab ensures n.vocab[t] in m { assert n.vocab[t] in n.vocab.Values; }
    assert Renumbered(n).vocab == n.vocab;
    forall c | c in n.vectors ensures MapEntries(n.vectors[c], m) == n.vectors[c] {
      var v := n.vectors[c];
      forall i | 0 <= i < |v| ensures MapEntries(v, m)[i] == v[i] { IdOf(v, i); }
    }
    SameMap(Renumbered(n).vectors, n.vectors);
  }

  // ── Meaning and scores, under any monotone relabelling ───────────

  ghost predicate SameMeaning(n: Numbering, n': Numbering) {
    && n'.vectors.Keys == n.vectors.Keys
    && n'.vocab.Keys == n.vocab.Keys
    && (forall c, bag | c in n.vectors ::
          Denotes(n'.vectors[c], n'.vocab, bag) <==> Denotes(n.vectors[c], n.vocab, bag))
  }

  ghost predicate SameScores(n: Numbering, n': Numbering) {
    forall shape: Shape, step: Scorer, query: set<Term> ::
      Scored(shape, step, query, n'.vocab, n'.vectors) == Scored(shape, step, query, n.vocab, n.vectors)
  }

  lemma RelabelledSame(n: Numbering, m: map<int, int>, next: int)
    requires Typed(n) && n.vocab.Values <= m.Keys && Labelled(n.vectors, m) && Monotone(m)
    ensures SameMeaning(n, Relabelled(n, m, next))
    ensures SameScores(n, Relabelled(n, m, next))
  {
    var n' := Relabelled(n, m, next);
    forall c, bag | c in n.vectors
      ensures Denotes(n'.vectors[c], n'.vocab, bag) <==> Denotes(n.vectors[c], n.vocab, bag)
    {
      RelabelKeepsMeaning(n.vectors[c], n.vocab, m, bag);
    }
    forall shape: Shape, step: Scorer, query: set<Term>
      ensures Scored(shape, step, query, n'.vocab, n'.vectors) == Scored(shape, step, query, n.vocab, n.vectors)
    {
      RelabelKeepsScores(shape, step, query, n.vocab, n.vectors, m);
    }
  }

  /** Renumbering preserves meaning: every stored vector denotes what it denoted,
      and every query scores every document as before. */
  lemma RenumberPreservesMeaning(n: Numbering)
    requires Typed(n) && Known(n)
    ensures Labelled(n.vectors, DenseMap(n.vocab.Values))
    ensures SameMeaning(n, Renumbered(n)) && SameScores(n, Renumbered(n))
  {
    VectorsLabelled(n, DenseMap(n.vocab.Values));
    DenseMapMonotone(n.vocab.Values);
    RelabelledSame(n, DenseMap(n.vocab.Values), |n.vocab|);
  }

  // ── Revert ───────────────────────────────────────────────────────

  /** What apply wrote down, whatever has happened since. */
  ghost predicate ValidReceipt(r: Receipt) {
    && r.was != map[] && Injective(r.was)
    && r.became == RelabelVocabulary(r.was, DenseMap(r.was.Values))
    && (forall t | t in r.was :: 0 <= r.was[t] <= r.largestOld)
    && r.largestOld in r.was.Values
  }

  /** Neither of the two refusals that look at the numbering itself applies. */
  predicate Revertible(n: Numbering, r: Receipt) {
    && r.epochAfter == n.epoch
    && (forall t | t in r.became :: t in n.vocab && n.vocab[t] == r.became[t])
  }

  /** The ids of terms registered since. */
  function NewIds(n: Numbering, r: Receipt): set<int> {
    set t | t in n.vocab && t !in r.became :: n.vocab[t]
  }

  function RevertTarget(n: Numbering, r: Receipt, t: Term): int
    requires t in n.vocab && r.was.Keys == r.became.Keys
  {
    if t in r.became then r.was[t] else r.largestOld + 1 + Rank(NewIds(n, r), n.vocab[t])
  }

  function RevertMap(n: Numbering, r: Receipt): (m: map<int, int>)
    requires Injective(n.vocab) && r.was.Keys == r.became.Keys
    ensures m.Keys == n.vocab.Values
    ensures forall t | t in n.vocab :: n.vocab[t] in m && m[n.vocab[t]] == RevertTarget(n, r, t)
  {
    var m := map t | t in n.vocab :: n.vocab[t] := RevertTarget(n, r, t);
    assert forall t | t in n.vocab :: n.vocab[t] in m && m[n.vocab[t]] == RevertTarget(n, r, t);
    m
  }

  function RevertNext(n: Numbering, r: Receipt): int {
    var after := r.largestOld + 1 + |n.vocab.Keys - r.became.Keys|;
    if r.nextBefore < after then after else r.nextBefore
  }

  function Reverted(n: Numbering, r: Receipt): Numbering
    requires Injective(n.vocab) && r.was.Keys == r.became.Keys
    requires Labelled(n.vectors, RevertMap(n, r))
  {
    Relabelled(n, RevertMap(n, r), RevertNext(n, r))
  }

  lemma ReceiptKeys(r: Receipt)
    requires ValidReceipt(r)
    ensures r.was.Keys == r.became.Keys
    ensures r.became.Values == Upto(|r.was|)
  {
    var n := Numbering(r.was, r.nextBefore, 0, map[]);
    RenumberedWellFormed(n);
    RenumberedOnto(n);
  }

  lemma ReceiptOrder(r: Receipt, s: Term, t: Term)
    requires ValidReceipt(r) && s in r.was && t in r.was
    ensures s in r.became && t in r.became
    ensures r.was[s] < r.was[t] <==> r.became[s] < r.became[t]
  {
    var n := Numbering(r.was, r.nextBefore, 0, map[]);
    RenumberedOrder(n, s, t);
  }

  lemma NewIdsAbove(n: Numbering, r: Receipt, t: Term)
    requires Typed(n) && ValidReceipt(r) && Revertible(n, r)
    requires t in n.vocab && t !in r.became
    ensures |r.was| <= n.vocab[t]
  {
    ReceiptKeys(r);
    forall u | u in r.became ensures r.became[u] != n.vocab[t] { assert n.vocab[u] == r.became[u]; }
    assert n.vocab[t] !in r.became.Values;
  }

  /** Old ids for the recorded terms and new ones above them all: one monotone map. */
  lemma RevertMonotone(n: Numbering, r: Receipt)
    requires Typed(n) && ValidReceipt(r) && Revertible(n, r)
    ensures r.was.Keys == r.became.Keys && Monotone(RevertMap(n, r))
  {
    ReceiptKeys(r);
    var m := RevertMap(n, r);
    forall x, y | x in m && y in m && x < y ensures m[x] < m[y] {
      var s :| s in n.vocab && n.vocab[s] == x;
      var t :| t in n.vocab && n.vocab[t] == y;
      RevertOrder(n, r, s, t);
    }
  }

  lemma RevertOrder(n: Numbering, r: Receipt, s: Term, t: Term)
    requires Typed(n) && ValidReceipt(r) && Revertible(n, r) && r.was.Keys == r.became.Keys
    requires s in n.vocab && t in n.vocab && n.vocab[s] < n.vocab[t]
    ensures RevertTarget(n, r, s) < RevertTarget(n, r, t)
  {
    ReceiptKeys(r);
    if s !in r.became { NewIdsAbove(n, r, s); }
    if t in r.became { assert r.became[t] in r.became.Values; }
    if s in r.became && t in r.became { ReceiptOrder(r, s, t); }
    if s !in r.became && t !in r.became {
      assert n.vocab[s] in NewIds(n, r);
      RankMonotone(NewIds(n, r), n.vocab[s], n.vocab[t]);
    }
  }

  lemma NewIdsSize(n: Numbering, r: Receipt)
    requires Injective(n.vocab)
    ensures |NewIds(n, r)| == |n.vocab.Keys - r.became.Keys|
  {
    var newer := map t | t in n.vocab && t !in r.became :: n.vocab[t];
    assert newer.Keys == n.vocab.Keys - r.became.Keys;
    forall x | x in NewIds(n, r) ensures x in newer.Values {
      var t :| t in n.vocab && t !in r.became && n.vocab[t] == x;
      assert newer[t] == x;
    }
    assert newer.Values == NewIds(n, r);
    InjectiveSize(newer);
  }

  lemma RevertWellFormed(n: Numbering, r: Receipt)
    requires Typed(n) && Known(n) && ValidReceipt(r) && Revertible(n, r)
    ensures r.was.Keys == r.became.Keys && Labelled(n.vectors, RevertMap(n, r))
    ensures WellFormed(Reverted(n, r))
  {
    ReceiptKeys(r);
    RevertMonotone(n, r);
    var m := RevertMap(n, r);
    VectorsLabelled(n, m);
    forall t | t in n.vocab ensures 0 <= m[n.vocab[t]] < RevertNext(n, r) { RevertInRange(n, r, t); }
    RelabelledWellFormed(n, m, RevertNext(n, r));
  }

  /** Every recorded term at its exact old id, newer terms above the old largest
      id, and all terms in the order they have now. */
  ghost predicate RestoresIds(n: Numbering, r: Receipt, vocab': Vocabulary) {
    && vocab'.Keys == n.vocab.Keys
    && (forall t | t in r.was :: t in vocab' && vocab'[t] == r.was[t])
    && (forall t | t in vocab' && t !in r.was :: vocab'[t] > r.largestOld)
    && (forall s, t | s in vocab' && t in vocab' && n.vocab[s] < n.vocab[t] :: vocab'[s] < vocab'[t])
  }

  function RevertVocabulary(n: Numbering, r: Receipt): Vocabulary
    requires r.was.Keys == r.became.Keys
  {
    map t | t in n.vocab :: RevertTarget(n, r, t)
  }

  lemma RevertedVocabulary(n: Numbering, r: Receipt)
    requires Injective(n.vocab) && r.was.Keys == r.became.Keys && Labelled(n.vectors, RevertMap(n, r))
    ensures Reverted(n, r).vocab == RevertVocabulary(n, r)
  {
  }

  lemma RevertVocabularyRestores(n: Numbering, r: Receipt)
    requires Typed(n) && ValidReceipt(r) && Revertible(n, r) && r.was.Keys == r.became.Keys
    ensures RestoresIds(n, r, RevertVocabulary(n, r))
  {
    forall t | t in n.vocab && t !in r.was ensures RevertTarget(n, r, t) > r.largestOld {
      RevertInRange(n, r, t);
    }
    forall s, t | s in n.vocab && t in n.vocab && n.vocab[s] < n.vocab[t]
      ensures RevertTarget(n, r, s) < RevertTarget(n, r, t)
    {
      RevertOrder(n, r, s, t);
    }
  }

  lemma RevertNextKept(r: Receipt, n: Numbering)
    requires Injective(n.vocab) && r.was.Keys == r.became.Keys && Labelled(n.vectors, RevertMap(n, r))
    ensures Reverted(n, r).next >= r.nextBefore
  {
  }

  /** Revert undoes apply, and the sequence does not fall back below where it stood. */
  lemma RevertRestores(n: Numbering, r: Receipt)
    requires Typed(n) && ValidReceipt(r) && Revertible(n, r)
    requires r.was.Keys == r.became.Keys && Labelled(n.vectors, RevertMap(n, r))
    ensures RestoresIds(n, r, Reverted(n, r).vocab) && Reverted(n, r).next >= r.nextBefore
  {
    RevertNextKept(r, n);
    var restored := Reverted(n, r).vocab;
    assert restored == RevertVocabulary(n, r) by { RevertedVocabulary(n, r); }
    assert RestoresIds(n, r, restored) by { RevertVocabularyRestores(n, r); }
  }

  /** How a numbering that was replaced comes back: `before` it was replaced, `now`
      with terms registered since, and `after`.  Every old term has its exact old id;
      the newer ones take the ids right after the old largest, as many as they are; all
      terms keep the order they have now; and the sequence goes on where it stood, or
      after the last id given if that is later. */
  ghost predicate Restored(before: Numbering, now: Numbering, after: Numbering)
    requires before.vocab != map[]
  {
    var newer := now.vocab.Keys - before.vocab.Keys;
    var top := Largest(before.vocab);
    && after.vocab.Keys == now.vocab.Keys
    && (forall t | t in before.vocab :: t in after.vocab && after.vocab[t] == before.vocab[t])
    && (forall t | t in newer :: top < after.vocab[t] <= top + |newer|)
    && (forall s, t | s in now.vocab && t in now.vocab && now.vocab[s] < now.vocab[t] ::
          after.vocab[s] < after.vocab[t])
    && after.next == (if before.next < top + 1 + |newer| then top + 1 + |newer| else before.next)
  }

  /** Terms registered since take the ids right after the recorded largest. */
  lemma NewerFollow(n: Numbering, r: Receipt, t: Term)
    requires Typed(n) && ValidReceipt(r) && Revertible(n, r) && r.was.Keys == r.became.Keys
    requires t in n.vocab && t !in r.was
    ensures r.largestOld < RevertTarget(n, r, t) <= r.largestOld + |n.vocab.Keys - r.became.Keys|
  {
    NewIdsSize(n, r);
    assert n.vocab[t] in NewIds(n, r);
    RankInRange(NewIds(n, r), n.vocab[t]);
  }

  /** A record of `before`, as apply writes it. */
  ghost predicate Records(r: Receipt, before: Numbering, after: Numbering, shape: Shape, schema: string) {
    && r.was == before.vocab && r.became == after.vocab
    && r.shape == shape && r.schema == schema
    && r.epochBefore == before.epoch && r.epochAfter == after.epoch && r.nextBefore == before.next
    && r.largestOld in before.vocab.Values && forall x | x in before.vocab.Values :: x <= r.largestOld
  }

  lemma ReceiptRecords(n: Numbering, shape: Shape, schema: string)
    requires n.vocab != map[] && Labelled(n.vectors, DenseMap(n.vocab.Values))
    ensures Records(ReceiptOf(n, shape, schema), n, Renumbered(n), shape, schema)
  {
  }

  lemma LargestRecorded(r: Receipt, before: Numbering, after: Numbering, shape: Shape, schema: string)
    requires before.vocab != map[] && Records(r, before, after, shape, schema)
    ensures r.largestOld == Largest(before.vocab)
  {
    var t :| t in before.vocab && before.vocab[t] == Largest(before.vocab);
    assert before.vocab[t] in before.vocab.Values;
    var u :| u in before.vocab && before.vocab[u] == r.largestOld;
  }

  lemma RestoredBy(before: Numbering, now: Numbering, after: Numbering, r: Receipt)
    requires before.vocab != map[] && r.was == before.vocab && r.largestOld == Largest(before.vocab)
    requires r.nextBefore == before.next && r.became.Keys == r.was.Keys
    requires RestoresIds(now, r, after.vocab) && after.next == RevertNext(now, r)
    requires forall t | t in now.vocab && t !in r.was ::
      after.vocab[t] <= r.largestOld + |now.vocab.Keys - r.became.Keys|
    ensures Restored(before, now, after)
  {
    assert now.vocab.Keys - r.became.Keys == now.vocab.Keys - before.vocab.Keys;
  }

  /** From what apply recorded, revert puts the numbering back. */
  lemma RecordedComesBack(before: Numbering, applied: Numbering, now: Numbering, r: Receipt, shape: Shape,
                          schema: string)
    requires before.vocab != map[] && Records(r, before, applied, shape, schema)
    requires Typed(now) && ValidReceipt(r) && Revertible(now, r)
    requires r.was.Keys == r.became.Keys && Labelled(now.vectors, RevertMap(now, r))
    ensures Restored(before, now, Reverted(now, r))
  {
    LargestRecorded(r, before, applied, shape, schema);
    RevertedVocabulary(now, r);
    RevertVocabularyRestores(now, r);
    forall t | t in now.vocab && t !in r.was
      ensures RevertTarget(now, r, t) <= r.largestOld + |now.vocab.Keys - r.became.Keys|
    {
      NewerFollow(now, r, t);
    }
    hide ValidReceipt, Revertible, RevertMap, RevertTarget, Restored, RestoresIds, RevertNext;
    RestoredBy(before, now, Reverted(now, r), r);
  }

  /** Relabelled there and back, a vector is what it was. */
  lemma MapBack(v: Vector, m: map<int, int>, back: map<int, int>)
    requires Ids(v) <= m.Keys && forall x | x in m :: m[x] in back && back[m[x]] == x
    ensures Ids(MapEntries(v, m)) <= back.Keys && MapEntries(MapEntries(v, m), back) == v
  {
    forall x | x in Ids(MapEntries(v, m)) ensures x in back {
      var i :| 0 <= i < |v| && MapEntries(v, m)[i].id == x;
      IdOf(v, i);
    }
    forall i | 0 <= i < |v| ensures MapEntries(MapEntries(v, m), back)[i] == v[i] { IdOf(v, i); }
  }

  /** With nothing registered in between, the revert map is apply's, backwards. */
  lemma RevertMapBack(n: Numbering, r: Receipt, x: int)
    requires Typed(n) && ValidReceipt(r) && r.was == n.vocab
    requires Labelled(n.vectors, DenseMap(n.vocab.Values)) && x in DenseMap(n.vocab.Values)
    requires r.became == Renumbered(n).vocab && Injective(r.became) && r.was.Keys == r.became.Keys
    ensures DenseMap(n.vocab.Values)[x] in RevertMap(Renumbered(n), r)
    ensures RevertMap(Renumbered(n), r)[DenseMap(n.vocab.Values)[x]] == x
  {
    var t :| t in n.vocab && n.vocab[t] == x;
    var after := Renumbered(n);
    assert after.vocab[t] == DenseMap(n.vocab.Values)[x];
    assert RevertTarget(after, r, t) == x;
  }

  lemma NothingNew(n: Numbering, r: Receipt)
    requires r.was.Keys == r.became.Keys && n.vocab == r.became
    ensures RevertVocabulary(n, r) == r.was
  {
    hide NewIds, Rank;
    assert forall t | t in n.vocab :: t in r.was && RevertTarget(n, r, t) == r.was[t];
  }

  lemma VocabularyBack(n: Numbering, r: Receipt)
    requires ValidReceipt(r) && r.was == n.vocab && Labelled(n.vectors, DenseMap(n.vocab.Values))
    requires r.became == Renumbered(n).vocab && Injective(r.became) && r.was.Keys == r.became.Keys
    requires Labelled(Renumbered(n).vectors, RevertMap(Renumbered(n), r))
    ensures Reverted(Renumbered(n), r).vocab == n.vocab
  {
    hide RevertMap, RevertVocabulary, RevertNext, ValidReceipt, DenseMap, Injective, Labelled;
    NothingNew(Renumbered(n), r);
    RevertedVocabulary(Renumbered(n), r);
  }

  /** Apply and then revert, with nothing in between, is no change of id or vector. */
  lemma ThereAndBack(n: Numbering, r: Receipt)
    requires Typed(n) && Known(n) && n.vocab != map[] && ValidReceipt(r) && r.was == n.vocab
    requires Labelled(n.vectors, DenseMap(n.vocab.Values))
    requires r.became == Renumbered(n).vocab && Injective(r.became) && r.was.Keys == r.became.Keys
    requires Labelled(Renumbered(n).vectors, RevertMap(Renumbered(n), r))
    ensures Reverted(Renumbered(n), r).vocab == n.vocab && Reverted(Renumbered(n), r).vectors == n.vectors
  {
    var applied := Renumbered(n);
    var m, back := DenseMap(n.vocab.Values), RevertMap(applied, r);
    VocabularyBack(n, r);
    forall x | x in m ensures m[x] in back && back[m[x]] == x { RevertMapBack(n, r, x); }
    hide RevertMap, RevertVocabulary, RevertNext, ValidReceipt, Typed, Known, Injective, Rank;
    forall c | c in n.vectors ensures MapEntries(applied.vectors[c], back) == n.vectors[c] {
      MapBack(n.vectors[c], m, back);
    }
    SameMap(Reverted(applied, r).vectors, n.vectors);
  }

  /** Revert changes no meaning and no score either. */
  lemma RevertPreservesMeaning(n: Numbering, r: Receipt)
    requires Typed(n) && Known(n) && ValidReceipt(r) && Revertible(n, r)
    ensures r.was.Keys == r.became.Keys && Labelled(n.vectors, RevertMap(n, r))
    ensures SameMeaning(n, Reverted(n, r)) && SameScores(n, Reverted(n, r))
  {
    RevertMonotone(n, r);
    VectorsLabelled(n, RevertMap(n, r));
    RelabelledSame(n, RevertMap(n, r), RevertNext(n, r));
  }

  lemma RevertInRange(n: Numbering, r: Receipt, t: Term)
    requires Typed(n) && ValidReceipt(r) && r.was.Keys == r.became.Keys && t in n.vocab
    ensures 0 <= RevertTarget(n, r, t) < RevertNext(n, r)
    ensures t !in r.became ==> r.largestOld < RevertTarget(n, r, t)
  {
    NewIdsSize(n, r);
    if t !in r.became {
      assert n.vocab[t] in NewIds(n, r);
      RankInRange(NewIds(n, r), n.vocab[t]);
    }
    var u :| u in r.was && r.was[u] == r.largestOld;
    assert 0 <= r.largestOld;
  }
}
