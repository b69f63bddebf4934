/** `scripts/compact_bm25_term_ids.py`: renumber, verify, commit or roll back. */
module Renumber {
  import opened ChunkIds
  import opened Options
  import opened Ranks
  import opened Vectors
  import opened Scores
  import opened Rankings
  import opened Numberings

  /** From here on an id wraps onto the one 2^30 below it in the `vchord` index. */
  const ALIASING_ID: int := 0x4000_0000
  const TOLERANCE: real := 0.000001

  datatype Refusal =
    | EpochTableMissing | ChunksMissing | ArraysShape | SparseTermsLeft
    | PostingLeft | IndexMissing | IndexInvalid | IndexCountsDeadRows
    | PostingMissing | ChunkVectorsLeft
    | IdsWouldAlias
    | NothingRecorded | OtherShapeRecorded | RenumberedSince | RecordedTermsMoved

  datatype Problem =
    | TermCount | TermsUnmapped | NotDense | DocumentCount | OccurrenceCount | IdSpan
    | PostingCount | PostingIds | RankingMoved(difference: Difference) | SequenceOff | EpochOff

  /** The BM25 index's metapage. */
  datatype Metapage = Metapage(docCnt: nat, docTermCnt: real, termIdCnt: int, recountOwed: bool)
  datatype Index = NoIndex | InvalidIndex | ValidIndex(meta: Metapage)

  datatype Survey = Survey(
    terms: nat, minId: Option<int>, maxId: Option<int>, sequenceNext: int, epoch: nat,
    vectors: nat, docTermCnt: real, refusals: seq<Refusal>)
  {
    /** The ids are exactly 0 .. terms - 1, judged from three aggregates. */
    predicate Dense() {
      terms == 0 || (minId == Some(0) && maxId == Some(terms - 1))
    }
  }

  datatype Relabelling = Done(epoch: nat) | Refuse(refusal: Refusal) | Raised

  datatype Outcome =
    | Refused(reasons: seq<Refusal>)
    | VerificationFailed(problems: seq<Problem>)
    | Aborted                              // the database raised; rolled back
    | AlreadyDense
    | SequenceRepaired(next: int)
    | Committed(epochNow: nat, nextId: int)

  /** Every scored document of every baseline query, through one vocabulary. */
  function Tables(shape: Shape, step: Scorer, queries: seq<set<Term>>, n: Numbering): (r: seq<map<ChunkId, real>>)
    ensures |r| == |queries|
    ensures forall i | 0 <= i < |queries| :: r[i] == Scored(shape, step, queries[i], n.vocab, n.vectors)
  {
    seq(|queries|, i requires 0 <= i < |queries| => Scored(shape, step, queries[i], n.vocab, n.vectors))
  }

  /** `vchord` pages keep matching documents only. */
  function Kept(shape: Shape, scored: map<ChunkId, real>): map<ChunkId, real> {
    if shape.VChord? then Negative(scored) else scored
  }

  /** The exact top-k of one scored query. */
  method Ranking(shape: Shape, scored: map<ChunkId, real>, topK: nat) returns (page: Page)
    ensures IsPage(page, Kept(shape, scored), topK)
  {
    page := TopK(scored, topK);
    if shape.VChord? {
      var n := 0;
      while n < |page| && page[n].score < 0.0
        invariant 0 <= n <= |page|
        invariant forall i | 0 <= i < n :: page[i].score < 0.0
      {
        n := n + 1;
      }
      CutThenFilter(page, scored, topK, n);
      page := page[..n];
    }
  }

  ghost predicate ArePages(shape: Shape, pages: seq<Page>, tables: seq<map<ChunkId, real>>, topK: nat) {
    |pages| == |tables| && forall i | 0 <= i < |tables| :: IsPage(pages[i], Kept(shape, tables[i]), topK)
  }

  method RankAll(shape: Shape, tables: seq<map<ChunkId, real>>, topK: nat) returns (pages: seq<Page>)
    ensures ArePages(shape, pages, tables, topK)
  {
    pages := [];
    while |pages| < |tables|
      invariant |pages| <= |tables| && ArePages(shape, pages, tables[..|pages|], topK)
    {
      var page := Ranking(shape, tables[|pages|], topK);
      pages := pages + [page];
    }
    assert tables == tables[..|tables|];
  }

  /** The query loop of the verification: one problem per ranking that moved. */
  method CompareRankings(before: seq<Page>, after: seq<Page>) returns (problems: seq<Problem>)
    requires |before| == |after|
    ensures problems == [] <==> forall i | 0 <= i < |before| :: RankingDifference(before[i], after[i], TOLERANCE).None?
  {
    problems := [];
    for i := 0 to |before|
      invariant problems == [] <==> forall j | 0 <= j < i :: RankingDifference(before[j], after[j], TOLERANCE).None?
    {
      var difference := RankingDifference(before[i], after[i], TOLERANCE);
      if difference.Some? { problems := problems + [RankingMoved(difference.value)]; }
    }
  }

  /** The verification accepts the rankings of every relabelling: whatever ties
      the executor broke, two sets of pages of the same scores never differ. */
  lemma RankingsAccepted(shape: Shape, before: seq<Page>, after: seq<Page>, tables: seq<map<ChunkId, real>>, topK: nat)
    requires ArePages(shape, before, tables, topK) && ArePages(shape, after, tables, topK)
    ensures forall i | 0 <= i < |before| :: RankingDifference(before[i], after[i], TOLERANCE).None?
  {
    forall i | 0 <= i < |before| ensures RankingDifference(before[i], after[i], TOLERANCE).None? {
      PagesAccepted(before[i], after[i], Kept(shape, tables[i]), topK, TOLERANCE);
    }
  }

  /** Each baseline ranking, recomputed, does not differ. */
  ghost predicate RankingsHold(shape: Shape, before: seq<Page>, tables: seq<map<ChunkId, real>>, topK: nat)
    requires |before| == |tables|
  {
    exists after :: ArePages(shape, after, tables, topK)
      && forall i | 0 <= i < |before| :: RankingDifference(before[i], after[i], TOLERANCE).None?
  }

  lemma TablesSame(shape: Shape, step: Scorer, queries: seq<set<Term>>, n: Numbering, n': Numbering)
    requires SameScores(n, n')
    ensures Tables(shape, step, queries, n') == Tables(shape, step, queries, n)
  {
    SameSeq(Tables(shape, step, queries, n'), Tables(shape, step, queries, n));
  }

  lemma SameSeq<T>(a: seq<T>, b: seq<T>)
    requires |a| == |b| && forall i | 0 <= i < |a| :: a[i] == b[i]
    ensures a == b
  {
  }

  function AllIds(vectors: map<ChunkId, Vector>): set<int> {
    set c, x | c in vectors && x in Ids(vectors[c]) :: x
  }

  function Rows(chunks: set<ChunkId>, vectors: map<ChunkId, Vector>): nat
    requires chunks <= vectors.Keys
  {
    if chunks == {} then 0 else
      var c := Min(chunks);
      |vectors[c]| + Rows(chunks - {c}, vectors)
  }

  lemma {:induction false} RelabelRows(chunks: set<ChunkId>, vectors: map<ChunkId, Vector>, m: map<int, int>)
    requires chunks <= vectors.Keys && Labelled(vectors, m)
    ensures Rows(chunks, RelabelAll(vectors, m)) == Rows(chunks, vectors)
  {
    if chunks != {} {
      RelabelRows(chunks - {Min(chunks)}, vectors, m);
    }
  }

  function Built(vectors: map<ChunkId, Vector>): Metapage {
    Metapage(|vectors|, TotalLength(vectors.Keys, vectors),
             if AllIds(vectors) == {} then 0 else Max(AllIds(vectors)) + 1, false)
  }

  datatype Rewrite = Rewritten(vectors: map<ChunkId, Vector>) | UnknownTermId | VectorOutOfOrder

  /** The table rewrite: an id the map lacks raises, and so does a vector the map
      would put out of order; neither is stored. */
  method RewriteVectors(vectors: map<ChunkId, Vector>, m: map<int, int>) returns (r: Rewrite)
    ensures r.UnknownTermId? <==> !Labelled(vectors, m)
    ensures r.Rewritten? ==> r.vectors == RelabelAll(vectors, m)
    ensures Labelled(vectors, m) && Monotone(m) && (forall c | c in vectors :: Increasing(vectors[c])) ==> r.Rewritten?
  {
    if exists c | c in vectors :: !(Ids(vectors[c]) <= m.Keys) { return UnknownTermId; }
    if exists c | c in vectors :: !Increasing(MapEntries(vectors[c], m)) {
      if Monotone(m) && forall c | c in vectors :: Increasing(vectors[c]) {
        forall c | c in vectors ensures Increasing(MapEntries(vectors[c], m)) { RelabelKeepsOrder(vectors[c], m); }
        assert false;
      }
      return VectorOutOfOrder;
    }
    r := Rewritten(RelabelAll(vectors, m));
  }

  /** Rows of the active shape, as the survey counts them. */
  function Counted(shape: Shape, vectors: map<ChunkId, Vector>): nat {
    if shape.VChord? then |vectors| else Rows(vectors.Keys, vectors)
  }

  /** The vocabulary holds the same terms, each at its mapped id, densely if asked. */
  ghost predicate SoundVocabulary(vocab: Vocabulary, terms: nat, before: Vocabulary, m: map<int, int>, dense: bool) {
    && |vocab| == terms
    && (forall t | t in before :: before[t] in m && t in vocab && vocab[t] == m[before[t]])
    && (dense && terms != 0 ==>
          vocab.Values != {} && Min(vocab.Values) == 0 && Max(vocab.Values) == terms - 1)
  }

  method CheckVocabulary(vocab: Vocabulary, terms: nat, before: Vocabulary, m: map<int, int>, dense: bool)
    returns (problems: seq<Problem>)
    requires forall t | t in before :: before[t] in m
    ensures problems == [] <==> SoundVocabulary(vocab, terms, before, m, dense)
  {
    problems := [];
    if |vocab| != terms { problems := problems + [TermCount]; }
    if exists t | t in before :: t !in vocab || vocab[t] != m[before[t]] {
      problems := problems + [TermsUnmapped];
    }
    if dense && terms != 0
       && (vocab.Values == {} || Min(vocab.Values) != 0 || Max(vocab.Values) != terms - 1) {
      problems := problems + [NotDense];
    }
  }

  /** The rewritten copies count what they counted, within the new id range. */
  ghost predicate SoundCopies(shape: Shape, index: Index, posting: map<ChunkId, Vector>, largest: int,
                              vectors: nat, docTermCnt: real) {
    && (shape.VChord? ==>
          && index.ValidIndex? && index.meta.docCnt == vectors
          && index.meta.docTermCnt == docTermCnt && index.meta.termIdCnt <= largest + 1)
    && (!shape.VChord? ==>
          && Rows(posting.Keys, posting) == vectors
          && (AllIds(posting) == {} || (0 <= Min(AllIds(posting)) && Max(AllIds(posting)) <= largest)))
  }

  method CheckCopies(shape: Shape, index: Index, posting: map<ChunkId, Vector>, largest: int,
                     vectors: nat, docTermCnt: real) returns (problems: seq<Problem>)
    requires shape.VChord? ==> index.ValidIndex?
    ensures problems == [] <==> SoundCopies(shape, index, posting, largest, vectors, docTermCnt)
  {
    problems := [];
    if shape.VChord? {
      if index.meta.docCnt != vectors { problems := problems + [DocumentCount]; }
      if index.meta.docTermCnt != docTermCnt { problems := problems + [OccurrenceCount]; }
      if index.meta.termIdCnt > largest + 1 { problems := problems + [IdSpan]; }
    } else {
      if Rows(posting.Keys, posting) != vectors { problems := problems + [PostingCount]; }
      var ids := AllIds(posting);
      if ids != {} && (Min(ids) < 0 || Max(ids) > largest) { problems := problems + [PostingIds]; }
    }
  }

  lemma KnownIdsBounded(vectors: map<ChunkId, Vector>, vocab: Vocabulary)
    requires forall c | c in vectors :: Ids(vectors[c]) <= vocab.Values
    requires forall t | t in vocab :: 0 <= vocab[t]
    ensures AllIds(vectors) == {} || (0 <= Min(AllIds(vectors)) && Max(AllIds(vectors)) <= Largest(vocab))
    ensures -1 <= Largest(vocab)
  {
    forall x | x in vocab.Values ensures 0 <= x <= Largest(vocab) {
      var t :| t in vocab && vocab[t] == x;
    }
    forall x | x in AllIds(vectors) ensures x in vocab.Values {
      var c :| c in vectors && x in Ids(vectors[c]);
    }
  }

  /** Everything the verification counts is the same after a monotone relabelling. */
  lemma RelabelledCopiesSound(shape: Shape, n: Numbering, m: map<int, int>, nextId: int, docTermCnt: real)
    requires n.vocab.Values <= m.Keys && Labelled(n.vectors, m)
    requires WellFormed(Relabelled(n, m, nextId))
    requires shape.VChord? ==> docTermCnt == TotalLength(n.vectors.Keys, n.vectors)
    ensures var n' := Relabelled(n, m, nextId);
            forall index: Index, posting |
              (if shape.VChord? then index == ValidIndex(Built(n'.vectors)) else posting == n'.vectors) ::
              SoundCopies(shape, index, posting, Largest(n'.vocab), Counted(shape, n.vectors), docTermCnt)
  {
    var n' := Relabelled(n, m, nextId);
    forall index: Index, posting |
      (if shape.VChord? then index == ValidIndex(Built(n'.vectors)) else posting == n'.vectors)
      ensures SoundCopies(shape, index, posting, Largest(n'.vocab), Counted(shape, n.vectors), docTermCnt)
    {
      KnownIdsBounded(n'.vectors, n'.vocab);
      if shape.VChord? { RelabelledIndex(n.vectors, m); } else { RelabelRows(n.vectors.Keys, n.vectors, m); }
      assert n'.vectors.Keys == n.vectors.Keys;
    }
  }

  lemma RelabelledIndex(vectors: map<ChunkId, Vector>, m: map<int, int>)
    requires Labelled(vectors, m)
    ensures Built(RelabelAll(vectors, m)).docCnt == |vectors|
    ensures Built(RelabelAll(vectors, m)).docTermCnt == TotalLength(vectors.Keys, vectors)
  {
    RelabelTotal(vectors.Keys, vectors, m);
    assert RelabelAll(vectors, m).Keys == vectors.Keys;
    assert |RelabelAll(vectors, m)| == |vectors|;
  }

  lemma RelabelledVocabularySound(vocab: Vocabulary, m: map<int, int>)
    requires vocab.Values <= m.Keys
    ensures SoundVocabulary(RelabelVocabulary(vocab, m), |vocab|, vocab, m, false)
  {
    assert RelabelVocabulary(vocab, m).Keys == vocab.Keys;
    forall t | t in vocab ensures vocab[t] in m { assert vocab[t] in vocab.Values; }
  }

  lemma RenumberedVocabularySound(n: Numbering)
    requires Typed(n)
    ensures SoundVocabulary(RelabelVocabulary(n.vocab, DenseMap(n.vocab.Values)), |n.vocab|, n.vocab,
                            DenseMap(n.vocab.Values), true)
  {
    RelabelledVocabularySound(n.vocab, DenseMap(n.vocab.Values));
    RenumberedOnto(n.(vectors := map[]));
    var ids := RelabelVocabulary(n.vocab, DenseMap(n.vocab.Values)).Values;
    assert ids == Upto(|n.vocab|);
    if |n.vocab| != 0 {
      assert 0 in ids && |n.vocab| - 1 in ids;
    }
  }

  /** What a transaction of this command can change. */
  datatype Stored = Stored(
    vocab: Vocabulary, next: int, epoch: Option<nat>, sparse: map<ChunkId, Vector>, posting: map<ChunkId, Vector>,
    index: Index, receipt: Option<Receipt>)

  class TermIdDatabase {
    var vocab: Vocabulary
    var next: int
    var epoch: Option<nat>                    // None: migration 113 has not run
    var hasChunks: bool
    var hasPosting: bool
    var arraysLeft: bool                      // chunks.sparse_terms still holds ids
    var sparse: map<ChunkId, Vector>          // chunks.sparse_bm25, where not NULL
    var posting: map<ChunkId, Vector>         // posting rows, listed per chunk
    var index: Index
    var schema: string
    var receipt: Option<Receipt>

    function Active(shape: Shape): map<ChunkId, Vector>
      reads this`sparse, this`posting
    {
      if shape.Posting? then posting else sparse
    }

    function View(shape: Shape): Numbering
      reads this`vocab, this`next, this`epoch, this`sparse, this`posting
      requires epoch.Some?
    {
      Numbering(vocab, next, epoch.value, Active(shape))
    }

    /** What the extension's counters mean: with as many documents as live rows
        and no recount owed, they count exactly the live rows. */
    ghost predicate IndexHonest()
      reads this`index, this`sparse
    {
      index.ValidIndex? && index.meta.docCnt == |sparse| && !index.meta.recountOwed ==>
        index.meta.docTermCnt == TotalLength(sparse.Keys, sparse)
    }

    /** The stored state a renumbering may meet.  A vector may name an id no term
        holds, and the sequence may stand anywhere. */
    ghost predicate Valid(shape: Shape)
      reads this
    {
      && (epoch.Some? ==> Typed(View(shape)))
      && IndexHonest()
      && (receipt.Some? ==> ValidReceipt(receipt.value))
    }

    /** A stored vector names an id no term holds. */
    ghost predicate Orphaned(shape: Shape)
      reads this
    {
      epoch.Some? && !Known(View(shape))
    }

    /** No precondition forbids a renumbering: in particular no copy of a term id
        sits where the rewrite would leave it behind. */
    predicate Passes(shape: Shape)
      reads this
    {
      && epoch.Some? && hasChunks && !shape.Arrays? && !arraysLeft
      && (shape.VChord? ==>
            && !(hasPosting && posting != map[])
            && index.ValidIndex? && index.meta.docCnt == |sparse| && !index.meta.recountOwed)
      && (shape.Posting? ==> hasPosting && !(exists c | c in sparse :: sparse[c] != []))
    }

    method TakeSurvey(shape: Shape) returns (facts: Survey)
      requires Valid(shape)
      ensures facts.refusals == [] <==> Passes(shape)
      ensures facts.refusals == [] ==>
        && SurveyOf(shape, View(shape), facts) && facts.sequenceNext == next
        && (facts.Dense() <==> SurveyDense(vocab.Values))
    {
      var refusals: seq<Refusal> := [];
      facts := Survey(0, None, None, 0, 0, 0, 0.0, [EpochTableMissing]);
      if epoch.None? { return; }
      InjectiveSize(vocab);
      facts := Survey(|vocab|,
        if vocab.Values == {} then None else Some(Min(vocab.Values)),
        if vocab.Values == {} then None else Some(Max(vocab.Values)),
        next, epoch.value, 0, 0.0, [ChunksMissing]);
      if !hasChunks { return; }
      if shape.Arrays? { facts := facts.(refusals := [ArraysShape]); return; }
      if arraysLeft { refusals := refusals + [SparseTermsLeft]; }
      if shape.VChord? {
        if hasPosting && posting != map[] { refusals := refusals + [PostingLeft]; }
        if index.NoIndex? { facts := facts.(refusals := refusals + [IndexMissing]); return; }
        if index.InvalidIndex? { facts := facts.(refusals := refusals + [IndexInvalid]); return; }
        facts := facts.(vectors := |sparse|, docTermCnt := index.meta.docTermCnt);
        if index.meta.docCnt != |sparse| || index.meta.recountOwed {
          refusals := refusals + [IndexCountsDeadRows];
        }
      } else {
        if !hasPosting { facts := facts.(refusals := refusals + [PostingMissing]); return; }
        if exists c | c in sparse :: sparse[c] != [] { refusals := refusals + [ChunkVectorsLeft]; }
        facts := facts.(vectors := Rows(posting.Keys, posting));
      }
      facts := facts.(refusals := refusals);
    }

    /** The database as the rewrite of `n` leaves it. */
    ghost predicate Rewritten(shape: Shape, n: Numbering, m: map<int, int>, nextId: int, epochNow: nat)
      reads this`vocab, this`next, this`epoch, this`sparse, this`posting, this`index
    {
      && !shape.Arrays? && n.vocab.Values <= m.Keys && Labelled(n.vectors, m)
      && epoch == Some(epochNow) && View(shape) == Relabelled(n, m, nextId)
      && (shape.VChord? ==> index == ValidIndex(Built(sparse)))
    }

    /** Replace every copy of the ids, the sequence and the epoch; an id of a vector
        that no term holds raises. */
    method Relabel(shape: Shape, m: map<int, int>, nextId: int) returns (r: Relabelling)
      requires Passes(shape) && Typed(View(shape))
      requires m.Keys == vocab.Values && Monotone(m)
      requires forall x | x in m :: 0 <= m[x]
      modifies this`vocab, this`next, this`epoch, this`sparse, this`posting, this`index
      ensures r.Refuse? <==> shape.VChord? && exists x | x in m :: m[x] >= ALIASING_ID
      ensures r.Raised? <==> !r.Refuse? && old(Orphaned(shape))
      ensures r.Refuse? || r.Raised? ==> unchanged(this)
      ensures r.Refuse? ==> r.refusal == IdsWouldAlias
      ensures r.Done? ==>
        && Rewritten(shape, old(View(shape)), m, nextId, r.epoch)
        && (shape.VChord? ==> posting == old(posting))
        && (shape.Posting? ==> index == old(index) && sparse == old(sparse))
    {
      if shape.VChord? && exists x | x in m :: m[x] < 0 || m[x] >= ALIASING_ID {
        return Refuse(IdsWouldAlias);
      }
      var rewrite := RewriteVectors(Active(shape), m);
      if !rewrite.Rewritten? { return Raised; }
      if shape.VChord? {
        sparse := rewrite.vectors;
        index := ValidIndex(Built(sparse));
      } else {
        posting := rewrite.vectors;
      }
      vocab := RelabelVocabulary(vocab, m);
      next := nextId;
      epoch := Some(epoch.value + 1);
      r := Done(epoch.value);
    }

    /** Every check made before the commit except the rankings. */
    ghost predicate Sound(shape: Shape, facts: Survey, before: Vocabulary, m: map<int, int>,
                          epochNow: nat, nextId: int, dense: bool)
      reads this
    {
      && SoundVocabulary(vocab, facts.terms, before, m, dense)
      && SoundCopies(shape, index, posting, Largest(vocab), facts.vectors, facts.docTermCnt)
      && next == nextId
      && epochNow == facts.epoch + 1
    }

    method Verify(shape: Shape, facts: Survey, before: Vocabulary, m: map<int, int>,
                  baseline: seq<Page>, tables: seq<map<ChunkId, real>>, topK: nat,
                  epochNow: nat, nextId: int, dense: bool) returns (problems: seq<Problem>)
      requires |baseline| == |tables| && (shape.VChord? ==> index.ValidIndex?)
      requires forall t | t in before :: before[t] in m
      ensures problems == [] ==>
        Sound(shape, facts, before, m, epochNow, nextId, dense) && RankingsHold(shape, baseline, tables, topK)
      ensures Sound(shape, facts, before, m, epochNow, nextId, dense) && ArePages(shape, baseline, tables, topK)
              ==> problems == []
    {
      problems := CheckVocabulary(vocab, facts.terms, before, m, dense);
      var copies := CheckCopies(shape, index, posting, Largest(vocab), facts.vectors, facts.docTermCnt);
      var after := RankAll(shape, tables, topK);
      var moved := CompareRankings(baseline, after);
      if ArePages(shape, baseline, tables, topK) {
        RankingsAccepted(shape, baseline, after, tables, topK);
      }
      if moved == [] { assert RankingsHold(shape, baseline, tables, topK); }
      problems := problems + copies + moved;
      if next != nextId { problems := problems + [SequenceOff]; }
      if epochNow != facts.epoch + 1 { problems := problems + [EpochOff]; }
    }

    /** The part apply and revert share: baseline, rewrite, verify, and roll back
        on any problem. */
    method Attempt(shape: Shape, step: Scorer, facts: Survey, ghost n: Numbering, m: map<int, int>, nextId: int,
                   dense: bool, record: Option<Receipt>, queries: seq<set<Term>>, topK: nat) returns (outcome: Outcome)
      requires Passes(shape) && n == View(shape) && Relabelable(n, m, nextId, dense)
      modifies this`vocab, this`next, this`epoch, this`sparse, this`posting, this`index, this`receipt
      ensures outcome.Refused? || outcome.Aborted? || outcome.Committed? || outcome.VerificationFailed?
      ensures outcome.Refused? <==> shape.VChord? && exists x | x in m :: m[x] >= ALIASING_ID
      ensures outcome.Aborted? <==> !outcome.Refused? && !Known(n)
      ensures outcome.VerificationFailed? ==>
        Labelled(n.vectors, m) && !Acceptable(shape, step, queries, n, m, nextId, facts, dense)
      ensures !outcome.Committed? ==> unchanged(this)
      ensures outcome.Committed? ==>
                && epoch.Some? && Labelled(n.vectors, m) && View(shape) == Relabelled(n, m, nextId)
                && outcome == Committed(epoch.value, nextId) && receipt == record
                && Sound(shape, facts, n.vocab, m, epoch.value, nextId, dense)
                && (shape.VChord? ==> index == ValidIndex(Built(sparse)) && posting == old(posting))
                && (shape.Posting? ==> index == old(index) && sparse == old(sparse))
    {
      hide Acceptable, ArePages, Typed, Monotone, Relabelable, Built;
      var before := Snap();
      var baseline := RankAll(shape, Tables(shape, step, queries, View(shape)), topK);
      RelabelableGives(n, m, nextId, dense);
      var relabelled := Relabel(shape, m, nextId);
      if relabelled.Refuse? { return Refused([relabelled.refusal]); }
      if relabelled.Raised? {
        RollBack(before);
        return Aborted;
      }
      receipt := record;
      outcome := Settle(shape, step, facts, before, n, m, nextId, dense, baseline, queries, topK, relabelled.epoch);
    }

    function Snap(): Stored
      reads this
    {
      Stored(vocab, next, epoch, sparse, posting, index, receipt)
    }

    method RollBack(to: Stored)
      modifies this`vocab, this`next, this`epoch, this`sparse, this`posting, this`index, this`receipt
      ensures Snap() == to
    {
      vocab, next, epoch, sparse, posting, index, receipt :=
        to.vocab, to.next, to.epoch, to.sparse, to.posting, to.index, to.receipt;
    }

    /** Verify what the rewrite produced, and commit it or put back what was there. */
    method Settle(shape: Shape, step: Scorer, facts: Survey, before: Stored, ghost n: Numbering, m: map<int, int>,
                  nextId: int, dense: bool, baseline: seq<Page>, queries: seq<set<Term>>, topK: nat, epochNow: nat)
      returns (outcome: Outcome)
      requires Rewritten(shape, n, m, nextId, epochNow) && before.vocab == n.vocab
      requires ArePages(shape, baseline, Tables(shape, step, queries, n), topK)
      modifies this`vocab, this`next, this`epoch, this`sparse, this`posting, this`index, this`receipt
      ensures outcome.Committed? || outcome.VerificationFailed?
      ensures outcome.VerificationFailed? ==>
        Snap() == before && !Acceptable(shape, step, queries, n, m, nextId, facts, dense)
      ensures outcome.Committed? ==>
        && unchanged(this) && outcome == Committed(epochNow, nextId)
        && Sound(shape, facts, n.vocab, m, epochNow, nextId, dense)
        && RankingsHold(shape, baseline, Tables(shape, step, queries, View(shape)), topK)
    {
      var tables := Tables(shape, step, queries, View(shape));
      MapDefined(n, m);
      var problems := Verify(shape, facts, before.vocab, m, baseline, tables, topK, epochNow, nextId, dense);
      if problems == [] { return Committed(epochNow, nextId); }
      if Acceptable(shape, step, queries, n, m, nextId, facts, dense) {
        AcceptableSound(shape, step, queries, n, m, nextId, facts, dense, epochNow);
      }
      RollBack(before);
      outcome := VerificationFailed(problems);
    }

    /** A run the verification has no reason to refuse is sound. */
    lemma AcceptableSound(shape: Shape, step: Scorer, queries: seq<set<Term>>, n: Numbering, m: map<int, int>,
                          nextId: int, facts: Survey, dense: bool, epochNow: nat)
      requires Rewritten(shape, n, m, nextId, epochNow) && Acceptable(shape, step, queries, n, m, nextId, facts, dense)
      ensures Sound(shape, facts, n.vocab, m, epochNow, nextId, dense)
      ensures Tables(shape, step, queries, View(shape)) == Tables(shape, step, queries, n)
    {
      hide SoundVocabulary, SoundCopies, Tables;
      var n' := Relabelled(n, m, nextId);
      assert vocab == n'.vocab && Active(shape) == n'.vectors;
      assert SoundCopies(shape, index, posting, Largest(n'.vocab), facts.vectors, facts.docTermCnt);
    }

    /** Renumber densely, verify, and commit; any failure rolls it all back.
        From every valid state the outcome is decided in advance: an id of a vector
        that no term holds aborts it, and a sequence standing anywhere but after
        dense ids is repaired. */
    method Apply(shape: Shape, step: Scorer, queries: seq<set<Term>>, topK: nat) returns (outcome: Outcome)
      requires Valid(shape)
      modifies this`vocab, this`next, this`epoch, this`sparse, this`posting, this`index, this`receipt
      ensures Valid(shape)
      ensures outcome.Refused? <==> !old(Passes(shape)) || (old(Applicable(shape)) && old(WouldAlias(shape)))
      ensures outcome.AlreadyDense? <==> old(Passes(shape) && SurveyDense(vocab.Values) && next == |vocab|)
      ensures outcome.SequenceRepaired? <==> old(Passes(shape) && SurveyDense(vocab.Values) && next != |vocab|)
      ensures outcome.Aborted? <==> old(Applicable(shape)) && !old(WouldAlias(shape)) && old(Orphaned(shape))
      ensures outcome.Committed? <==> old(Applicable(shape)) && !old(WouldAlias(shape)) && !old(Orphaned(shape))
      ensures outcome.Refused? || outcome.Aborted? || outcome.AlreadyDense? ==> unchanged(this)
      ensures outcome.SequenceRepaired? ==>
                && next == |vocab| && (forall t | t in vocab :: vocab[t] < next)
                && unchanged(this`vocab, this`epoch, this`sparse, this`posting, this`index, this`receipt)
      ensures outcome.Committed? ==>
                && old(ReadyToApply(shape))
                && epoch.Some? && View(shape) == old(Renumbered(View(shape))) && WellFormed(View(shape))
                && receipt.Some? && Records(receipt.value, old(View(shape)), View(shape), shape, schema)
                && outcome == Committed(epoch.value, next)
                && NoStrayIds() && OthersKept(shape, old(sparse), old(posting), old(index))
    {
      hide Records, ReceiptOf, ValidReceipt, OthersKept, NoStrayIds, Renumbered;
      var facts := TakeSurvey(shape);
      if facts.refusals != [] { return Refused(facts.refusals); }
      if facts.Dense() {
        outcome := RepairSequence(shape, facts.terms);
        return;
      }
      ReceiptValid(View(shape), shape, schema);
      if Known(View(shape)) {
        VectorsLabelled(View(shape), DenseMap(vocab.Values));
        ReceiptRecords(View(shape), shape, schema);
      }
      outcome := RenumberRecorded(shape, step, facts, ReceiptOf(View(shape), shape, schema), queries, topK);
    }

    method RenumberRecorded(shape: Shape, step: Scorer, facts: Survey, written: Receipt,
                            queries: seq<set<Term>>, topK: nat) returns (outcome: Outcome)
      requires Passes(shape) && Valid(shape) && SurveyOf(shape, View(shape), facts) && ValidReceipt(written)
      modifies this`vocab, this`next, this`epoch, this`sparse, this`posting, this`index, this`receipt
      ensures Valid(shape)
      ensures outcome.Refused? || outcome.Aborted? || outcome.Committed?
      ensures outcome.Refused? <==> old(WouldAlias(shape))
      ensures outcome.Aborted? <==> !old(WouldAlias(shape)) && old(Orphaned(shape))
      ensures !outcome.Committed? ==> unchanged(this)
      ensures outcome.Committed? ==>
                && epoch.Some? && outcome == Committed(epoch.value, next) && receipt == Some(written)
                && old(Labelled(Active(shape), DenseMap(vocab.Values)))
                && View(shape) == old(Renumbered(View(shape))) && WellFormed(View(shape))
                && OthersKept(shape, old(sparse), old(posting), old(index)) && NoStrayIds()
    {
      PassesApart(shape);
      outcome := AttemptDense(shape, step, facts, written, queries, topK);
      if outcome.Committed? {
        WellFormedIsKnown(shape);
        NoneStray(shape, old(sparse), old(posting), old(index));
      }
    }

    method AttemptDense(shape: Shape, step: Scorer, facts: Survey, written: Receipt,
                        queries: seq<set<Term>>, topK: nat) returns (outcome: Outcome)
      requires Passes(shape) && Typed(View(shape)) && SurveyOf(shape, View(shape), facts)
      modifies this`vocab, this`next, this`epoch, this`sparse, this`posting, this`index, this`receipt
      ensures outcome.Refused? || outcome.Aborted? || outcome.Committed?
      ensures outcome.Refused? <==> old(WouldAlias(shape))
      ensures outcome.Aborted? <==> !old(WouldAlias(shape)) && old(Orphaned(shape))
      ensures !outcome.Committed? ==> unchanged(this)
      ensures outcome.Committed? ==>
                && epoch.Some? && outcome == Committed(epoch.value, next) && receipt == Some(written)
                && old(Labelled(Active(shape), DenseMap(vocab.Values)))
                && View(shape) == old(Renumbered(View(shape))) && WellFormed(View(shape))
                && OthersKept(shape, old(sparse), old(posting), old(index))
    {
      ApplyRelabelable(View(shape));
      ghost var n, m := View(shape), DenseMap(vocab.Values);
      if Known(n) { RelabelableAcceptable(shape, step, queries, n, m, facts.terms, facts, true); }
      outcome := Attempt(shape, step, facts, View(shape), DenseMap(vocab.Values), facts.terms, true,
                         Some(written), queries, topK);
    }

    /** Every id stored anywhere, under whatever shape, is one of the vocabulary's. */
    ghost predicate NoStrayIds()
      reads this
    {
      && !arraysLeft
      && (forall c | c in sparse :: Ids(sparse[c]) <= vocab.Values)
      && (hasPosting ==> forall c | c in posting :: Ids(posting[c]) <= vocab.Values)
    }

    /** Nothing is stored outside the active shape. */
    predicate Apart(shape: Shape, sparse: map<ChunkId, Vector>, posting: map<ChunkId, Vector>)
      reads this`hasPosting, this`arraysLeft
    {
      && !arraysLeft && !shape.Arrays?
      && (shape.VChord? ==> !(hasPosting && posting != map[]))
      && (shape.Posting? ==> !(exists c | c in sparse :: sparse[c] != []))
    }

    lemma PassesApart(shape: Shape)
      requires Passes(shape)
      ensures Apart(shape, sparse, posting)
    {
    }

    lemma NoneStray(shape: Shape, oldSparse: map<ChunkId, Vector>, oldPosting: map<ChunkId, Vector>, oldIndex: Index)
      requires Apart(shape, oldSparse, oldPosting) && OthersKept(shape, oldSparse, oldPosting, oldIndex)
      requires epoch.Some? && Known(View(shape))
      ensures NoStrayIds()
    {
      forall c | c in sparse && sparse[c] == [] ensures Ids(sparse[c]) == {} {}
    }

    lemma WellFormedIsKnown(shape: Shape)
      requires epoch.Some? && WellFormed(View(shape))
      ensures Known(View(shape)) && Typed(View(shape))
    {
    }

    lemma ValidAgain(shape: Shape)
      requires epoch.Some? && Typed(View(shape)) && IndexHonest() && (receipt.Some? ==> ValidReceipt(receipt.value))
      ensures Valid(shape)
    {
    }

    /** The store a renumbering does not rewrite is as it was, and the index is rebuilt
        with the one it does. */
    predicate OthersKept(shape: Shape, oldSparse: map<ChunkId, Vector>, oldPosting: map<ChunkId, Vector>,
                         oldIndex: Index)
      reads this
    {
      && (shape.VChord? ==> posting == oldPosting && index == ValidIndex(Built(sparse)))
      && (shape.Posting? ==> sparse == oldSparse && index == oldIndex)
    }

    /** Past the survey, with ids that are not dense yet. */
    ghost predicate Applicable(shape: Shape)
      reads this
    {
      Passes(shape) && !SurveyDense(vocab.Values)
    }

    predicate WouldAlias(shape: Shape)
      reads this
    {
      shape.VChord? && |vocab| > ALIASING_ID
    }

    ghost predicate ReadyToApply(shape: Shape)
      reads this
    {
      epoch.Some? && vocab != map[] && Labelled(Active(shape), DenseMap(vocab.Values))
    }

    /** Ids already dense: only the sequence moves, from wherever it stood, and then
        it is past every id. */
    method RepairSequence(shape: Shape, terms: nat) returns (outcome: Outcome)
      requires Valid(shape) && epoch.Some? && terms == |vocab| && SurveyDense(vocab.Values)
      modifies this`next
      ensures Valid(shape) && next == terms && forall t | t in vocab :: vocab[t] < next
      ensures outcome == if old(next) == terms then AlreadyDense else SequenceRepaired(terms)
    {
      InjectiveSize(vocab);
      SurveyDenseIff(vocab.Values);
      forall t | t in vocab ensures vocab[t] < terms { assert vocab[t] in vocab.Values; }
      if next == terms { return AlreadyDense; }
      next := terms;
      outcome := SequenceRepaired(terms);
    }

    /** What revert asks of the record beyond the survey. */
    predicate RecordFits(shape: Shape)
      reads this
      requires epoch.Some?
    {
      receipt.Some? && receipt.value.shape == shape && receipt.value.schema == schema
      && Revertible(View(shape), receipt.value)
    }

    predicate RevertAliases(shape: Shape)
      reads this
      requires epoch.Some? && receipt.Some? && receipt.value.was.Keys == receipt.value.became.Keys
    {
      shape.VChord? && exists t | t in vocab :: RevertTarget(View(shape), receipt.value, t) >= ALIASING_ID
    }

    ghost predicate RevertDefined()
      reads this
    {
      && epoch.Some? && receipt.Some? && receipt.value.was.Keys == receipt.value.became.Keys
      && Injective(vocab)
    }

    ghost predicate ReadyToRevert(shape: Shape)
      reads this
    {
      RevertDefined() && Labelled(Active(shape), RevertMap(View(shape), receipt.value))
    }

    method RecordRefusals(shape: Shape, facts: Survey) returns (reasons: seq<Refusal>)
      requires epoch.Some? && receipt.Some? && facts.epoch == epoch.value
      ensures reasons == [] <==> RecordFits(shape)
    {
      reasons := [];
      if receipt.value.shape != shape || receipt.value.schema != schema {
        reasons := reasons + [OtherShapeRecorded];
      }
      if receipt.value.epochAfter != facts.epoch { reasons := reasons + [RenumberedSince]; }
      if exists t | t in receipt.value.became :: t !in vocab || vocab[t] != receipt.value.became[t] {
        reasons := reasons + [RecordedTermsMoved];
      }
    }

    /** Put back the recorded numbering: refused exactly when the survey or the
        record forbids it or an old id would alias, aborted when a vector names an id
        no term holds, and otherwise verified and committed, with the record dropped. */
    method Revert(shape: Shape, step: Scorer, queries: seq<set<Term>>, topK: nat) returns (outcome: Outcome)
      requires Valid(shape)
      modifies this`vocab, this`next, this`epoch, this`sparse, this`posting, this`index, this`receipt
      ensures Valid(shape)
      ensures outcome.Refused? || outcome.Aborted? || outcome.Committed?
      ensures outcome.Refused? <==>
        !old(Passes(shape) && RecordFits(shape)) || old(RevertDefined() && RevertAliases(shape))
      ensures outcome.Aborted? <==>
        old(Passes(shape) && RecordFits(shape) && RevertDefined() && !RevertAliases(shape) && Orphaned(shape))
      ensures outcome.Committed? <==>
        old(Passes(shape) && RecordFits(shape) && ReadyToRevert(shape) && !RevertAliases(shape))
      ensures !outcome.Committed? ==> unchanged(this)
      ensures outcome.Committed? ==>
                && epoch.Some? && View(shape) == old(Reverted(View(shape), receipt.value)) && receipt == None
                && outcome == Committed(epoch.value, next) && WellFormed(View(shape))
                && NoStrayIds() && OthersKept(shape, old(sparse), old(posting), old(index))
    {
      var facts := TakeSurvey(shape);
      if facts.refusals != [] { return Refused(facts.refusals); }
      if receipt.None? { return Refused([NothingRecorded]); }
      var reasons := RecordRefusals(shape, facts);
      if reasons != [] { return Refused(reasons); }
      hide *;
      outcome := RevertRecorded(shape, step, facts, receipt.value, queries, topK);
    }

    method RevertRecorded(shape: Shape, step: Scorer, facts: Survey, r: Receipt, queries: seq<set<Term>>, topK: nat)
      returns (outcome: Outcome)
      requires Passes(shape) && Valid(shape) && SurveyOf(shape, View(shape), facts)
      requires receipt == Some(r) && RecordFits(shape)
      modifies this`vocab, this`next, this`epoch, this`sparse, this`posting, this`index, this`receipt
      ensures Valid(shape)
      ensures outcome.Refused? || outcome.Aborted? || outcome.Committed?
      ensures old(RevertDefined()) && (outcome.Refused? <==> old(RevertAliases(shape)))
      ensures outcome.Aborted? <==> !old(RevertAliases(shape)) && old(Orphaned(shape))
      ensures !outcome.Committed? ==> unchanged(this)
      ensures old(ReadyToRevert(shape)) <==> !old(Orphaned(shape))
      ensures outcome.Committed? ==>
                && epoch.Some? && outcome == Committed(epoch.value, next) && receipt == None
                && View(shape) == old(Reverted(View(shape), r)) && WellFormed(View(shape))
                && OthersKept(shape, old(sparse), old(posting), old(index)) && NoStrayIds()
    {
      hide *;
      OpensWindow(shape, facts, r);
      outcome := AttemptRevert(shape, step, facts, r, queries, topK);
      if outcome.Committed? {
        WellFormedIsKnown(shape);
        NoneStray(shape, old(sparse), old(posting), old(index));
        ValidAgain(shape);
      }
    }

    /** The locks are held, the survey passed and the record fits. */
    ghost predicate RevertWindow(shape: Shape, facts: Survey, r: Receipt)
      reads this
    {
      && Passes(shape) && Typed(View(shape)) && SurveyOf(shape, View(shape), facts) && IndexHonest()
      && receipt == Some(r) && ValidReceipt(r) && RecordFits(shape) && RevertDefined()
    }

    lemma OpensWindow(shape: Shape, facts: Survey, r: Receipt)
      requires Passes(shape) && Valid(shape) && SurveyOf(shape, View(shape), facts)
      requires receipt == Some(r) && RecordFits(shape)
      ensures RevertWindow(shape, facts, r) && RevertDefined() && Apart(shape, sparse, posting)
      ensures ReadyToRevert(shape) <==> !Orphaned(shape)
    {
      RevertRelabelable(View(shape), r);
      PassesApart(shape);
    }

    method AttemptRevert(shape: Shape, step: Scorer, facts: Survey, r: Receipt, queries: seq<set<Term>>, topK: nat)
      returns (outcome: Outcome)
      requires RevertWindow(shape, facts, r)
      modifies this`vocab, this`next, this`epoch, this`sparse, this`posting, this`index, this`receipt
      ensures outcome.Refused? || outcome.Aborted? || outcome.Committed?
      ensures outcome.Refused? <==> old(RevertAliases(shape))
      ensures outcome.Aborted? <==> !old(RevertAliases(shape)) && old(Orphaned(shape))
      ensures !outcome.Committed? ==> unchanged(this)
      ensures outcome.Committed? ==>
                && epoch.Some? && outcome == Committed(epoch.value, next) && receipt == None
                && old(ReadyToRevert(shape)) && View(shape) == old(Reverted(View(shape), r))
                && WellFormed(View(shape)) && IndexHonest()
                && OthersKept(shape, old(sparse), old(posting), old(index))
    {
      hide Acceptable, Relabelable, Sound, ValidReceipt, RevertTarget, RevertMap, RecordFits, SurveyOf;
      RevertReady(shape, step, facts, r, queries);
      var n := View(shape);
      outcome := Attempt(shape, step, facts, n, RevertMap(n, r), RevertNext(n, r), false, None, queries, topK);
      if outcome.Committed? { BuiltIsHonest(); }
    }

    lemma BuiltIsHonest()
      ensures index == ValidIndex(Built(sparse)) ==> IndexHonest()
    {
    }

    /** The revert map can be carried out, and what will come of it. */
    lemma RevertReady(shape: Shape, step: Scorer, facts: Survey, r: Receipt, queries: seq<set<Term>>)
      requires RevertWindow(shape, facts, r)
      ensures RevertDefined()
      ensures var n, m, nextId := View(shape), RevertMap(View(shape), r), RevertNext(View(shape), r);
        && Relabelable(n, m, nextId, false) && (ReadyToRevert(shape) <==> Known(n))
        && (RevertAliases(shape) <==> shape.VChord? && exists x | x in m :: m[x] >= ALIASING_ID)
        && (Known(n) ==> n.vocab.Values <= m.Keys && Labelled(n.vectors, m)
                         && Acceptable(shape, step, queries, n, m, nextId, facts, false)
                         && Reverted(n, r) == Relabelled(n, m, nextId) && WellFormed(Reverted(n, r)))
    {
      hide Acceptable, SoundVocabulary, WellFormed;
      var n := View(shape);
      RevertRelabelable(n, r);
      RevertAliasing(n, r);
      hide RevertTarget, RevertMap, ValidReceipt, SurveyOf, Monotone;
      if Known(n) { RelabelableAcceptable(shape, step, queries, n, RevertMap(n, r), RevertNext(n, r), facts, false); }
    }

    /** Where the sequence goes on once a numbering is back. */
    function NextBack(n: Numbering): int {
      if n.next <= Largest(n.vocab) then Largest(n.vocab) + 1 else n.next
    }

    /** As apply leaves the database that held `n`. */
    ghost predicate AppliedTo(shape: Shape, n: Numbering)
      reads this
    {
      && Typed(n) && Known(n) && n.vocab != map[] && Labelled(n.vectors, DenseMap(n.vocab.Values))
      && epoch.Some? && View(shape) == Renumbered(n) && WellFormed(View(shape))
      && receipt.Some? && ValidReceipt(receipt.value)
      && Records(receipt.value, n, View(shape), shape, schema)
    }

    lemma AppliedFits(shape: Shape, n: Numbering)
      requires AppliedTo(shape, n)
      ensures RecordFits(shape) && receipt.value.was.Keys == receipt.value.became.Keys && Injective(vocab)
      ensures Labelled(Active(shape), RevertMap(View(shape), receipt.value))
    {
      ReceiptKeys(receipt.value);
      VectorsLabelled(View(shape), RevertMap(View(shape), receipt.value));
    }

    lemma AppliedAliases(shape: Shape, n: Numbering)
      requires AppliedTo(shape, n) && receipt.value.was.Keys == receipt.value.became.Keys
      ensures RevertAliases(shape) <==> shape.VChord? && exists t | t in n.vocab :: n.vocab[t] >= ALIASING_ID
    {
      forall t | t in n.vocab ensures t in vocab && RevertTarget(View(shape), receipt.value, t) == n.vocab[t] {}
      forall t | t in vocab ensures t in n.vocab {}
    }

    lemma AppliedBack(shape: Shape, n: Numbering)
      requires AppliedTo(shape, n) && receipt.value.was.Keys == receipt.value.became.Keys && Injective(vocab)
      requires Labelled(Active(shape), RevertMap(View(shape), receipt.value))
      ensures Reverted(View(shape), receipt.value) == Numbering(n.vocab, NextBack(n), n.epoch + 2, n.vectors)
    {
      var r, applied := receipt.value, View(shape);
      ThereAndBack(n, r);
      LargestRecorded(r, n, applied, shape, schema);
      hide RevertMap, ValidReceipt, WellFormed, Typed, Known, Monotone, Labelled;
      assert applied.vocab.Keys - r.became.Keys == {};
      assert RevertNext(applied, r) == NextBack(n);
    }

    /** What apply leaves is ready to be reverted, and to what. */
    lemma CanComeBack(shape: Shape, n: Numbering)
      requires AppliedTo(shape, n)
      ensures RecordFits(shape) && ReadyToRevert(shape)
      ensures RevertAliases(shape) <==> shape.VChord? && exists t | t in n.vocab :: n.vocab[t] >= ALIASING_ID
      ensures Reverted(View(shape), receipt.value) == Numbering(n.vocab, NextBack(n), n.epoch + 2, n.vectors)
    {
      AppliedFits(shape, n);
      AppliedAliases(shape, n);
      AppliedBack(shape, n);
      hide AppliedTo, RecordFits, RevertAliases, Reverted, RevertMap, Injective, Labelled;
    }

    /** After apply the database passes the survey it passed before. */
    lemma StillPasses(shape: Shape, oldSparse: map<ChunkId, Vector>, oldPosting: map<ChunkId, Vector>, oldIndex: Index)
      requires Apart(shape, oldSparse, oldPosting) && OthersKept(shape, oldSparse, oldPosting, oldIndex)
      requires epoch.Some? && hasChunks && (shape.Posting? ==> hasPosting)
      ensures Passes(shape)
    {
    }

    /** Apply and then revert, with nothing in between: when both commit, every id and
        every stored vector is what it was at first, and only the epoch and the
        sequence have moved on.  The revert is refused only when an old id would alias. */
    method ApplyThenRevert(shape: Shape, step: Scorer, queries: seq<set<Term>>, topK: nat)
      returns (applied: Outcome, reverted: Outcome)
      requires Valid(shape)
      modifies this`vocab, this`next, this`epoch, this`sparse, this`posting, this`index, this`receipt
      ensures Valid(shape)
      ensures applied.Committed? ==> reverted.Committed? || reverted.Refused?
      ensures applied.Committed? ==>
        (reverted.Refused? <==> shape.VChord? && exists t | t in old(vocab) :: old(vocab)[t] >= ALIASING_ID)
      ensures applied.Committed? && reverted.Committed? ==>
                && vocab == old(vocab) && Active(shape) == old(Active(shape)) && receipt == None
                && old(epoch).Some? && epoch == Some(old(epoch).value + 2)
                && next == (if old(next) <= Largest(vocab) then Largest(vocab) + 1 else old(next))
      ensures !applied.Committed? ==> reverted == applied
    {
      hide *;
      ghost var n := if epoch.Some? then View(shape) else Numbering(map[], 0, 0, map[]);
      ghost var s0, p0, i0 := sparse, posting, index;
      BeforeApply(shape, n);
      applied := Apply(shape, step, queries, topK);
      reverted := applied;
      if applied.Committed? {
        AfterApply(shape, n, s0, p0, i0);
        CanComeBack(shape, n);
        ReadyMeansDefined(shape);
        reverted := Revert(shape, step, queries, topK);
        BackTo(shape, n);
      }
    }

    /** The facts of the first state that the revert will need. */
    lemma BeforeApply(shape: Shape, n: Numbering)
      requires Valid(shape) && (epoch.Some? ==> n == View(shape))
      ensures epoch.Some? ==> n.vocab == vocab && n.vectors == Active(shape) && n.epoch == epoch.value && n.next == next
      ensures Passes(shape) ==> epoch.Some? && hasChunks && (shape.Posting? ==> hasPosting)
      ensures Passes(shape) ==> Apart(shape, sparse, posting)
      ensures epoch.Some? ==> Typed(View(shape))
      ensures Applicable(shape) ==> Passes(shape)
      ensures Orphaned(shape) <==> epoch.Some? && !Known(View(shape))
      ensures ReadyToApply(shape) ==> vocab != map[] && Labelled(Active(shape), DenseMap(vocab.Values))
    {
    }

    lemma AfterApply(shape: Shape, n: Numbering, s0: map<ChunkId, Vector>, p0: map<ChunkId, Vector>, i0: Index)
      requires Valid(shape) && Apart(shape, s0, p0) && OthersKept(shape, s0, p0, i0)
      requires epoch.Some? && hasChunks && (shape.Posting? ==> hasPosting)
      requires Typed(n) && Known(n) && n.vocab != map[] && Labelled(n.vectors, DenseMap(n.vocab.Values))
      requires View(shape) == Renumbered(n) && WellFormed(View(shape))
      requires receipt.Some? && Records(receipt.value, n, View(shape), shape, schema)
      ensures AppliedTo(shape, n) && Passes(shape) && !Orphaned(shape)
    {
      StillPasses(shape, s0, p0, i0);
    }

    lemma ReadyMeansDefined(shape: Shape)
      requires ReadyToRevert(shape)
      ensures RevertDefined()
    {
    }

    lemma BackTo(shape: Shape, n: Numbering)
      ensures epoch.Some? && View(shape) == Numbering(n.vocab, NextBack(n), n.epoch + 2, n.vectors) ==>
        && vocab == n.vocab && Active(shape) == n.vectors && epoch == Some(n.epoch + 2)
        && next == (if n.next <= Largest(vocab) then Largest(vocab) + 1 else n.next)
    {
    }
  }

  /** A relabelling the rewrite can carry out, over vectors of known ids: defined on
      exactly the ids of the vocabulary, monotone, into ids the sequence will be past. */
  ghost predicate Relabelable(n: Numbering, m: map<int, int>, nextId: int, dense: bool) {
    && Typed(n) && m.Keys == n.vocab.Values && Monotone(m) && 0 <= nextId
    && (forall t | t in n.vocab :: n.vocab[t] in m && 0 <= m[n.vocab[t]] < nextId)
    && SoundVocabulary(RelabelVocabulary(n.vocab, m), |n.vocab|, n.vocab, m, dense)
  }

  /** What the verification compares is the same after the relabelling. */
  ghost predicate Acceptable(shape: Shape, step: Scorer, queries: seq<set<Term>>, n: Numbering, m: map<int, int>,
                             nextId: int, facts: Survey, dense: bool)
    requires n.vocab.Values <= m.Keys && Labelled(n.vectors, m)
  {
    var n' := Relabelled(n, m, nextId);
    && facts.epoch == n.epoch
    && SoundVocabulary(n'.vocab, facts.terms, n.vocab, m, dense)
    && (forall index: Index, posting |
          (if shape.VChord? then index == ValidIndex(Built(n'.vectors)) else posting == n'.vectors) ::
          SoundCopies(shape, index, posting, Largest(n'.vocab), facts.vectors, facts.docTermCnt))
    && Tables(shape, step, queries, n') == Tables(shape, step, queries, n)
  }

  lemma MapDefined(n: Numbering, m: map<int, int>)
    requires n.vocab.Values <= m.Keys
    ensures forall t | t in n.vocab :: n.vocab[t] in m
  {
    forall t | t in n.vocab ensures n.vocab[t] in m { assert n.vocab[t] in n.vocab.Values; }
  }

  /** What the rewrite needs of a relabelling. */
  lemma RelabelableGives(n: Numbering, m: map<int, int>, nextId: int, dense: bool)
    requires Relabelable(n, m, nextId, dense)
    ensures Typed(n) && m.Keys == n.vocab.Values && Monotone(m) && forall x | x in m :: 0 <= m[x]
  {
    NonnegativeTargets(n.vocab, m);
  }

  lemma NonnegativeTargets(vocab: Vocabulary, m: map<int, int>)
    requires m.Keys == vocab.Values && forall t | t in vocab :: vocab[t] in m && 0 <= m[vocab[t]]
    ensures forall x | x in m :: 0 <= m[x]
  {
    forall x | x in m ensures 0 <= m[x] {
      var t :| t in vocab && vocab[t] == x;
    }
  }

  lemma RelabelledTables(shape: Shape, step: Scorer, queries: seq<set<Term>>, n: Numbering, m: map<int, int>,
                         nextId: int)
    requires Typed(n) && n.vocab.Values <= m.Keys && Labelled(n.vectors, m) && Monotone(m)
    ensures Tables(shape, step, queries, Relabelled(n, m, nextId)) == Tables(shape, step, queries, n)
  {
    RelabelledSame(n, m, nextId);
    TablesSame(shape, step, queries, n, Relabelled(n, m, nextId));
  }

  /** The facts are the survey of this numbering. */
  ghost predicate SurveyOf(shape: Shape, n: Numbering, facts: Survey) {
    && facts.terms == |n.vocab| && facts.epoch == n.epoch && facts.vectors == Counted(shape, n.vectors)
    && (shape.VChord? ==> facts.docTermCnt == TotalLength(n.vectors.Keys, n.vectors))
  }

  /** The verification accepts every correct run: whatever it compares, in exact
      arithmetic, is unchanged by a relabelling the rewrite can carry out. */
  lemma RelabelableAcceptable(shape: Shape, step: Scorer, queries: seq<set<Term>>, n: Numbering, m: map<int, int>,
                              nextId: int, facts: Survey, dense: bool)
    requires Relabelable(n, m, nextId, dense) && Known(n) && SurveyOf(shape, n, facts)
    ensures Acceptable(shape, step, queries, n, m, nextId, facts, dense)
    ensures WellFormed(Relabelled(n, m, nextId))
  {
    RelabelledWellFormed(n, m, nextId);
    RelabelledCopiesSound(shape, n, m, nextId, facts.docTermCnt);
    RelabelledTables(shape, step, queries, n, m, nextId);
  }

  lemma ReceiptValid(n: Numbering, shape: Shape, schema: string)
    requires Typed(n) && n.vocab != map[]
    ensures ValidReceipt(ReceiptOf(n, shape, schema))
  {
    forall t | t in n.vocab ensures n.vocab[t] in n.vocab.Values { }
  }

  lemma ApplyRelabelable(n: Numbering)
    requires Typed(n)
    ensures Relabelable(n, DenseMap(n.vocab.Values), |n.vocab|, true)
    ensures (exists x | x in DenseMap(n.vocab.Values) :: DenseMap(n.vocab.Values)[x] >= ALIASING_ID)
            <==> |n.vocab| > ALIASING_ID
  {
    var m := DenseMap(n.vocab.Values);
    DenseMapMonotone(n.vocab.Values);
    RenumberedVocabularySound(n);
    forall t | t in n.vocab ensures n.vocab[t] in m && 0 <= m[n.vocab[t]] < |n.vocab| { RenumberedTerm(n, t); }
    DenseMapReaches(n.vocab, ALIASING_ID);
  }

  /** Any monotone map of the ids into room below the sequence can be carried out. */
  lemma MonotoneRelabelable(n: Numbering, m: map<int, int>, nextId: int)
    requires Typed(n) && m.Keys == n.vocab.Values && Monotone(m) && 0 <= nextId
    requires forall t | t in n.vocab :: n.vocab[t] in m && 0 <= m[n.vocab[t]] < nextId
    ensures Relabelable(n, m, nextId, false)
    ensures Labelled(n.vectors, m) <==> Known(n)
  {
    RelabelledVocabularySound(n.vocab, m);
  }

  lemma RevertRelabelable(n: Numbering, r: Receipt)
    requires Typed(n) && ValidReceipt(r) && Revertible(n, r)
    ensures r.was.Keys == r.became.Keys
    ensures Relabelable(n, RevertMap(n, r), RevertNext(n, r), false)
    ensures Labelled(n.vectors, RevertMap(n, r)) <==> Known(n)
  {
    RevertMonotone(n, r);
    RevertTargets(n, r);
    MonotoneRelabelable(n, RevertMap(n, r), RevertNext(n, r));
  }

  lemma RevertTargets(n: Numbering, r: Receipt)
    requires Typed(n) && ValidReceipt(r) && r.was.Keys == r.became.Keys
    ensures 0 <= RevertNext(n, r)
    ensures forall t | t in n.vocab :: n.vocab[t] in RevertMap(n, r)
    ensures forall t | t in n.vocab :: 0 <= RevertMap(n, r)[n.vocab[t]] < RevertNext(n, r)
  {
    forall t | t in n.vocab ensures 0 <= RevertMap(n, r)[n.vocab[t]] < RevertNext(n, r) { RevertInRange(n, r, t); }
    NextPositive(n, r);
  }

  lemma NextPositive(n: Numbering, r: Receipt)
    requires ValidReceipt(r)
    ensures 0 <= RevertNext(n, r)
  {
    var t :| t in r.was && r.was[t] == r.largestOld;
  }

  /** Revert aliases exactly when an old id, or an id given after them, is too large. */
  lemma RevertAliasing(n: Numbering, r: Receipt)
    requires Injective(n.vocab) && r.was.Keys == r.became.Keys
    ensures (exists x | x in RevertMap(n, r) :: RevertMap(n, r)[x] >= ALIASING_ID)
            <==> (exists t | t in n.vocab :: RevertTarget(n, r, t) >= ALIASING_ID)
  {
    var m := RevertMap(n, r);
    if x :| x in m && m[x] >= ALIASING_ID {
      var t :| t in n.vocab && n.vocab[t] == x;
      assert m[n.vocab[t]] == RevertTarget(n, r, t);
    }
    if t :| t in n.vocab && RevertTarget(n, r, t) >= ALIASING_ID {
      assert n.vocab[t] in m && m[n.vocab[t]] >= ALIASING_ID;
    }
  }

  lemma DenseMapReaches(vocab: Vocabulary, bound: nat)
    requires Injective(vocab)
    ensures (exists x | x in DenseMap(vocab.Values) :: DenseMap(vocab.Values)[x] >= bound) <==> |vocab| > bound
  {
    var m := DenseMap(vocab.Values);
    InjectiveSize(vocab);
    RankBijection(vocab.Values);
    if |vocab| > bound {
      assert bound in m.Values;
      var x :| x in m && m[x] == bound;
    }
    if x :| x in m && m[x] >= bound {
      assert m[x] in m.Values;
    }
  }
}
