/** The vocabulary epoch: encoders, stores and renumberings, in any interleaving. */
module EpochFence {
  import opened ChunkIds
  import opened Options
  import opened Ranks
  import opened Vectors
  import opened Scores
  import opened Numberings

  // Encoding a batch and storing it are separate transactions.  A renumbering
  // committed in between gives the batch's ids to other terms; the fence lets a
  // store commit only ids read under the current epoch.

  /** One encoded chunk: what its text means, the ids that were read for it, and
      the epoch they were read under (none when it has no terms). */
  datatype Item = Item(chunk: ChunkId, bag: Bag, vector: Vector, epoch: Option<nat>)

  datatype System = System(
    separate: bool,                   // vector_store_dsn: vectors in another database
    shape: Shape,
    schema: string,
    db: Numbering,
    texts: map<ChunkId, Bag>,         // what each stored vector's text was encoded to
    receipt: Option<Receipt>,
    pending: map<nat, seq<Item>>      // batches encoded and not yet stored
  )

  datatype Step =
    | Register(term: Term)            // get_or_create_term_ids, for a new term
    | Burn                            // an id drawn and discarded
    | Encode(batch: nat, item: Item)
    | Store(batch: nat)
    | Discard(batch: nat)             // VocabularyEpochMoved, or a crash
    | Delete(chunk: ChunkId)
    | RepairSequence                  // apply, on ids already dense
    | Apply
    | Revert

  /** The contract of `encode_document_at_epoch`: the ids are the vocabulary's,
      at the epoch returned with them. */
  ghost predicate Encoded(item: Item, db: Numbering) {
    && Denotes(item.vector, db.vocab, item.bag)
    && (item.epoch == Some(db.epoch) || (item.epoch == None && item.bag == map[] && item.vector == []))
  }

  function Epochs(items: seq<Item>): set<nat> {
    set item | item in items && item.epoch.Some? :: item.epoch.value
  }

  /** `_hold_numbering`: nothing to hold, no epoch table beside the vectors, or
      exactly one epoch and it is the current one. */
  predicate FenceHolds(s: System, items: seq<Item>) {
    s.separate || Epochs(items) == {} || Epochs(items) == {s.db.epoch}
  }

  function StoreVectors(vectors: map<ChunkId, Vector>, items: seq<Item>): map<ChunkId, Vector> {
    if items == [] then vectors else
      var last := items[|items| - 1];
      StoreVectors(vectors, items[..|items| - 1])[last.chunk := last.vector]
  }

  function StoreTexts(texts: map<ChunkId, Bag>, items: seq<Item>): map<ChunkId, Bag> {
    if items == [] then texts else
      var last := items[|items| - 1];
      StoreTexts(texts, items[..|items| - 1])[last.chunk := last.bag]
  }

  function BatchOf(s: System, b: nat): seq<Item> {
    if b in s.pending then s.pending[b] else []
  }

  /** One committed transaction, or one encoding. */
  ghost predicate Next(s: System, step: Step, s': System) {
    match step
    case Register(t) =>
      t !in s.db.vocab &&
      s' == s.(db := s.db.(vocab := s.db.vocab[t := s.db.next], next := s.db.next + 1))
    case Burn => s' == s.(db := s.db.(next := s.db.next + 1))
    case Encode(b, item) =>
      Encoded(item, s.db) && s' == s.(pending := s.pending[b := BatchOf(s, b) + [item]])
    case Store(b) =>
      b in s.pending && FenceHolds(s, s.pending[b]) &&
      s' == s.(db := s.db.(vectors := StoreVectors(s.db.vectors, s.pending[b])),
               texts := StoreTexts(s.texts, s.pending[b]), pending := s.pending - {b})
    case Discard(b) => s' == s.(pending := s.pending - {b})
    case Delete(c) => s' == s.(db := s.db.(vectors := s.db.vectors - {c}), texts := s.texts - {c})
    case RepairSequence =>
      SurveyDense(s.db.vocab.Values) && s' == s.(db := s.db.(next := |s.db.vocab|))
    case Apply =>
      !s.separate && s.db.vocab != map[] && Labelled(s.db.vectors, DenseMap(s.db.vocab.Values)) &&
      s' == s.(db := Renumbered(s.db), receipt := Some(ReceiptOf(s.db, s.shape, s.schema)))
    case Revert =>
      !s.separate && s.receipt.Some? && Revertible(s.db, s.receipt.value) && Injective(s.db.vocab) &&
      s.receipt.value.was.Keys == s.receipt.value.became.Keys &&
      Labelled(s.db.vectors, RevertMap(s.db, s.receipt.value)) &&
      s' == s.(db := Reverted(s.db, s.receipt.value), receipt := None)
  }

  // ── The invariant ────────────────────────────────────────────────

  /** Every stored vector, decoded through the current vocabulary, is exactly
      what its text was encoded to. */
  ghost predicate Faithful(s: System) {
    && s.texts.Keys == s.db.vectors.Keys
    && (forall c | c in s.texts :: Denotes(s.db.vectors[c], s.db.vocab, s.texts[c]))
  }

  /** A pending item is as good as its epoch. */
  ghost predicate ItemOk(item: Item, s: System) {
    && (item.epoch.None? ==> item.bag == map[] && item.vector == [])
    && (item.epoch.Some? ==> item.epoch.value <= s.db.epoch)
    && (item.epoch == Some(s.db.epoch) ==> Denotes(item.vector, s.db.vocab, item.bag))
    && (s.separate && item.epoch.Some? ==> item.epoch.value == s.db.epoch)
  }

  ghost predicate PendingOk(s: System) {
    forall b, item | b in s.pending && item in s.pending[b] :: ItemOk(item, s)
  }

  ghost predicate ReceiptOk(s: System) {
    s.receipt.Some? ==> ValidReceipt(s.receipt.value) && Revertible(s.db, s.receipt.value)
  }

  ghost predicate Inv(s: System) {
    WellFormed(s.db) && Faithful(s) && PendingOk(s) && ReceiptOk(s)
  }

  ghost predicate Init(s: System) {
    WellFormed(s.db) && Faithful(s) && s.pending == map[] && s.receipt == None
  }

  lemma DenotesGrows(v: Vector, vocab: Vocabulary, bag: Bag, vocab': Vocabulary)
    requires Denotes(v, vocab, bag) && vocab.Keys <= vocab'.Keys
    requires forall t | t in vocab :: vocab'[t] == vocab[t]
    ensures Denotes(v, vocab', bag)
  {
    forall e | e in v ensures Explained(e, vocab', bag) {
      assert Explained(e, vocab, bag);
      var t :| t in bag && vocab[t] == e.id && bag[t] == e.weight;
      assert vocab'[t] == e.id;
    }
  }

  lemma RegisterKeeps(s: System, t: Term, s': System)
    requires Inv(s) && Next(s, Register(t), s')
    ensures Inv(s')
  {
    forall c | c in s.texts ensures Denotes(s'.db.vectors[c], s'.db.vocab, s'.texts[c]) {
      DenotesGrows(s.db.vectors[c], s.db.vocab, s.texts[c], s'.db.vocab);
    }
    forall b, item | b in s.pending && item in s.pending[b] ensures ItemOk(item, s') {
      assert ItemOk(item, s);
      if item.epoch == Some(s.db.epoch) {
        DenotesGrows(item.vector, s.db.vocab, item.bag, s'.db.vocab);
      }
    }
    forall x | x in s.db.vocab.Values ensures x in s'.db.vocab.Values {
      var u :| u in s.db.vocab && s.db.vocab[u] == x;
      assert s'.db.vocab[u] == x;
    }
  }

  /** A batch that passed the fence means what its texts mean. */
  lemma FencedItem(s: System, items: seq<Item>, item: Item)
    requires Inv(s) && FenceHolds(s, items) && item in items && ItemOk(item, s)
    ensures Denotes(item.vector, s.db.vocab, item.bag)
  {
    if item.epoch.Some? {
      assert item.epoch.value in Epochs(items);
    }
  }

  lemma {:induction false} StoreKeepsFaithful(s: System, items: seq<Item>)
    requires Faithful(s)
    requires forall item | item in items :: Denotes(item.vector, s.db.vocab, item.bag)
    ensures Faithful(s.(db := s.db.(vectors := StoreVectors(s.db.vectors, items)), texts := StoreTexts(s.texts, items)))
  {
    if items != [] {
      StoreKeepsFaithful(s, items[..|items| - 1]);
    }
  }

  lemma FaithfulKnown(s: System)
    requires Faithful(s)
    ensures forall c | c in s.db.vectors :: Increasing(s.db.vectors[c]) && Ids(s.db.vectors[c]) <= s.db.vocab.Values
  {
    forall c | c in s.db.vectors
      ensures Increasing(s.db.vectors[c]) && Ids(s.db.vectors[c]) <= s.db.vocab.Values
    {
      DenotesKnownIds(s.db.vectors[c], s.db.vocab, s.texts[c]);
    }
  }

  lemma StoreKeeps(s: System, b: nat, s': System)
    requires Inv(s) && Next(s, Store(b), s')
    ensures Inv(s')
  {
    forall item | item in s.pending[b] ensures Denotes(item.vector, s.db.vocab, item.bag) {
      assert ItemOk(item, s);
      FencedItem(s, s.pending[b], item);
    }
    StoreKeepsFaithful(s, s.pending[b]);
    FaithfulKnown(s');
    forall c, item | c in s'.pending && item in s'.pending[c] ensures ItemOk(item, s') {
      assert ItemOk(item, s);
    }
  }

  /** A new numbering keeps the meaning of what is stored; what is pending falls
      behind the fence. */
  lemma RenumberKeeps(s: System, s': System)
    requires Inv(s) && !s.separate && WellFormed(s'.db) && SameMeaning(s.db, s'.db)
    requires s' == s.(db := s'.db, receipt := s'.receipt) && s'.db.epoch == s.db.epoch + 1
    ensures Faithful(s') && PendingOk(s')
  {
    forall b, item | b in s'.pending && item in s'.pending[b] ensures ItemOk(item, s') {
      assert ItemOk(item, s);
    }
  }

  lemma ApplyKeeps(s: System, s': System)
    requires Inv(s) && Next(s, Apply, s')
    ensures Inv(s')
  {
    RenumberedWellFormed(s.db);
    RenumberPreservesMeaning(s.db);
    RenumberKeeps(s, s');
    ReceiptFits(s.db, s.shape, s.schema);
  }

  lemma ReceiptFits(db: Numbering, shape: Shape, schema: string)
    requires WellFormed(db) && db.vocab != map[] && Labelled(db.vectors, DenseMap(db.vocab.Values))
    ensures ValidReceipt(ReceiptOf(db, shape, schema))
    ensures Revertible(Renumbered(db), ReceiptOf(db, shape, schema))
  {
    forall t | t in db.vocab ensures db.vocab[t] in db.vocab.Values { }
  }

  lemma RevertKeeps(s: System, s': System)
    requires Inv(s) && Next(s, Revert, s')
    ensures Inv(s')
  {
    RevertWellFormed(s.db, s.receipt.value);
    RevertPreservesMeaning(s.db, s.receipt.value);
    RenumberKeeps(s, s');
  }

  lemma RepairKeeps(s: System, s': System)
    requires Inv(s) && Next(s, RepairSequence, s')
    ensures Inv(s')
  {
    InjectiveSize(s.db.vocab);
    SurveyDenseIff(s.db.vocab.Values);
    forall t | t in s.db.vocab ensures s.db.vocab[t] < |s.db.vocab| {
      assert s.db.vocab[t] in s.db.vocab.Values;
    }
    forall b, item | b in s'.pending && item in s'.pending[b] ensures ItemOk(item, s') {
      assert ItemOk(item, s);
    }
  }

  lemma EncodeKeeps(s: System, b: nat, item: Item, s': System)
    requires Inv(s) && Next(s, Encode(b, item), s')
    ensures Inv(s')
  {
    forall c, i | c in s'.pending && i in s'.pending[c] ensures ItemOk(i, s') {
      if c != b || i in BatchOf(s, b) {
        assert ItemOk(i, s);
      } else {
        assert i == item;
      }
    }
  }

  /** Every step keeps every stored vector faithful to its text. */
  lemma StepKeepsInv(s: System, step: Step, s': System)
    requires Inv(s) && Next(s, step, s')
    ensures Inv(s')
  {
    match step
    case Register(t) => RegisterKeeps(s, t, s');
    case Encode(b, item) => EncodeKeeps(s, b, item, s');
    case Store(b) => StoreKeeps(s, b, s');
    case RepairSequence => RepairKeeps(s, s');
    case Apply => ApplyKeeps(s, s');
    case Revert => RevertKeeps(s, s');
    case Burn =>
      forall b, item | b in s'.pending && item in s'.pending[b] ensures ItemOk(item, s') { assert ItemOk(item, s); }
    case Discard(d) =>
      forall b, item | b in s'.pending && item in s'.pending[b] ensures ItemOk(item, s') { assert ItemOk(item, s); }
    case Delete(c) =>
      forall b, item | b in s'.pending && item in s'.pending[b] ensures ItemOk(item, s') { assert ItemOk(item, s); }
  }

  // ── Runs ─────────────────────────────────────────────────────────

  ghost predicate Run(states: seq<System>, steps: seq<Step>) {
    && |states| == |steps| + 1
    && (forall i | 0 <= i < |steps| :: Next(states[i], steps[i], states[i + 1]))
  }

  lemma {:induction false} RunKeepsInv(states: seq<System>, steps: seq<Step>, i: nat)
    requires Run(states, steps) && Inv(states[0]) && i < |states|
    ensures Inv(states[i])
  {
    if i > 0 {
      RunKeepsInv(states, steps, i - 1);
      StepKeepsInv(states[i - 1], steps[i - 1], states[i]);
    }
  }

  /** The epoch fence: over every interleaving, every stored vector decoded
      through the vocabulary of that moment gives exactly the terms and counts
      its text was encoded to. */
  lemma FenceKeepsMeaning(states: seq<System>, steps: seq<Step>, i: nat, c: ChunkId)
    requires Run(states, steps) && Init(states[0]) && i < |states| && c in states[i].db.vectors
    ensures c in states[i].texts
    ensures forall bag :: Denotes(states[i].db.vectors[c], states[i].db.vocab, bag) <==> bag == states[i].texts[c]
  {
    RunKeepsInv(states, steps, i);
    var s := states[i];
    forall bag | Denotes(s.db.vectors[c], s.db.vocab, bag) ensures bag == s.texts[c] {
      DenotesOneBag(s.db.vectors[c], s.db.vocab, bag, s.texts[c]);
    }
  }

  /** A store that commits beside the vocabulary holds ids of one epoch, the current one. */
  lemma StoredBatchIsCurrent(s: System, b: nat, s': System, item: Item)
    requires Next(s, Store(b), s') && !s.separate && item in s.pending[b]
    ensures item.epoch == None || item.epoch == Some(s.db.epoch)
  {
    if item.epoch.Some? {
      assert item.epoch.value in Epochs(s.pending[b]);
    }
  }

  /** And any batch of such ids can be stored: beside the vocabulary, the fence stops
      exactly the batches that hold an id of another epoch. */
  lemma StoreIffCurrent(s: System, b: nat)
    requires b in s.pending
    ensures (exists s' :: Next(s, Store(b), s')) <==>
      s.separate || forall item | item in s.pending[b] :: item.epoch == None || item.epoch == Some(s.db.epoch)
  {
    var items := s.pending[b];
    if s.separate || forall item | item in items :: item.epoch == None || item.epoch == Some(s.db.epoch) {
      if e :| e in Epochs(items) && !s.separate {
        assert Epochs(items) == {s.db.epoch};
      }
      assert Next(s, Store(b), s.(db := s.db.(vectors := StoreVectors(s.db.vectors, items)),
                                  texts := StoreTexts(s.texts, items), pending := s.pending - {b}));
    } else {
      var item :| item in items && item.epoch.Some? && item.epoch.value != s.db.epoch;
      assert item.epoch.value in Epochs(items);
    }
  }

  /** A stored batch is all there: each chunk holds the last of its items, and no
      other chunk and no id has changed. */
  lemma StoreIsWhole(s: System, b: nat, s': System, i: nat, c: ChunkId)
    requires Next(s, Store(b), s') && i < |s.pending[b]|
    ensures var items := s.pending[b];
      && ((forall j | i < j < |items| :: items[j].chunk != items[i].chunk) ==>
            && items[i].chunk in s'.db.vectors && items[i].chunk in s'.texts
            && s'.db.vectors[items[i].chunk] == items[i].vector && s'.texts[items[i].chunk] == items[i].bag)
      && ((forall item | item in items :: item.chunk != c) ==>
            && (c in s'.db.vectors <==> c in s.db.vectors)
            && (c in s.db.vectors ==> s'.db.vectors[c] == s.db.vectors[c]))
    ensures s'.db.vocab == s.db.vocab && s'.db.next == s.db.next && s'.db.epoch == s.db.epoch
    ensures b !in s'.pending && s'.receipt == s.receipt
  {
    StoredLast(s, s.pending[b], i);
    if forall item | item in s.pending[b] :: item.chunk != c { StoredElse(s.db.vectors, s.pending[b], c); }
  }

  lemma {:induction false} StoredLast(s: System, items: seq<Item>, i: nat)
    requires i < |items|
    ensures (forall j | i < j < |items| :: items[j].chunk != items[i].chunk) ==>
      && items[i].chunk in StoreVectors(s.db.vectors, items) && items[i].chunk in StoreTexts(s.texts, items)
      && StoreVectors(s.db.vectors, items)[items[i].chunk] == items[i].vector
      && StoreTexts(s.texts, items)[items[i].chunk] == items[i].bag
  {
    if i < |items| - 1 { StoredLast(s, items[..|items| - 1], i); }
  }

  lemma {:induction false} StoredElse(vectors: map<ChunkId, Vector>, items: seq<Item>, c: ChunkId)
    requires forall item | item in items :: item.chunk != c
    ensures c in StoreVectors(vectors, items) <==> c in vectors
    ensures c in vectors ==> StoreVectors(vectors, items)[c] == vectors[c]
  {
    if items != [] { StoredElse(vectors, items[..|items| - 1], c); }
  }

  lemma StepGrowsEpoch(s: System, step: Step, s': System)
    requires Next(s, step, s')
    ensures s.db.epoch <= s'.db.epoch && s.separate == s'.separate
  {
  }

  lemma {:induction false} EpochGrows(states: seq<System>, steps: seq<Step>, i: nat, j: nat)
    requires Run(states, steps) && i <= j < |states|
    ensures states[i].db.epoch <= states[j].db.epoch && states[i].separate == states[j].separate
  {
    hide Next;
    if i < j {
      EpochGrows(states, steps, i, j - 1);
      StepGrowsEpoch(states[j - 1], steps[j - 1], states[j]);
    }
  }

  /** Once a renumbering has passed a batch, no later store of that batch commits:
      as long as it still holds the item it can only be discarded. */
  lemma PastBatchNeverStored(states: seq<System>, steps: seq<Step>, i: nat, j: nat, b: nat, item: Item)
    requires Run(states, steps) && i <= j < |steps| && !states[0].separate
    requires item.epoch.Some? && item.epoch.value < states[i].db.epoch
    requires b in states[j].pending && item in states[j].pending[b]
    ensures steps[j] != Store(b)
  {
    EpochGrows(states, steps, 0, j);
    EpochGrows(states, steps, i, j);
    assert Next(states[j], steps[j], states[j + 1]);
    if steps[j] == Store(b) {
      StoredBatchIsCurrent(states[j], b, states[j + 1], item);
    }
  }

  /** The fence is what makes this true: stored without it, a batch from before a
      renumbering would make its chunk mean another text. */
  lemma UnfencedStoreBreaks() returns (s: System, items: seq<Item>)
    ensures Inv(s) && s.pending == map[0 := items] && !FenceHolds(s, items)
    ensures !Faithful(s.(db := s.db.(vectors := StoreVectors(s.db.vectors, items)),
                         texts := StoreTexts(s.texts, items)))
  {
    // "a" held id 1 when the item was encoded; dense, id 1 belongs to "b"
    var item := Item(7, map["a" := 1.0], [Entry(1, 1.0)], Some(0));
    items := [item];
    var db := Numbering(map["a" := 0, "b" := 1], 2, 1, map[]);
    s := System(false, VChord, "public", db, map[], None, map[0 := items]);
    assert Epochs(items) == {0} by { assert item in items && item.epoch.value == 0; }
    var broken := s.(db := s.db.(vectors := StoreVectors(s.db.vectors, items)), texts := StoreTexts(s.texts, items));
    assert StoreVectors(s.db.vectors, items[..0]) == map[];
    assert StoreTexts(s.texts, items[..0]) == map[];
    assert broken.db.vectors[7] == [Entry(1, 1.0)] && broken.texts[7] == map["a" := 1.0];
    assert Entry(0, 1.0) !in [Entry(1, 1.0)];
    assert "a" in broken.texts[7] && Entry(db.vocab["a"], 1.0) == Entry(0, 1.0);
  }

  /** A registered term gets an id no term holds, above all of them, and keeps every
      other id; a burnt id is given to nobody; a deleted chunk is gone. */
  lemma OtherSteps(s: System, step: Step, s': System)
    requires Inv(s) && Next(s, step, s')
    ensures match step
      case Register(t) =>
        && t in s'.db.vocab && (forall u | u in s.db.vocab :: u in s'.db.vocab && s'.db.vocab[u] == s.db.vocab[u])
        && (forall u | u in s.db.vocab :: s.db.vocab[u] < s'.db.vocab[t]) && s'.db.vocab[t] == s.db.next
        && s'.db.next == s.db.next + 1
        && s'.db.vectors == s.db.vectors
      case Burn => s'.db.vocab == s.db.vocab && s'.db.next == s.db.next + 1 && s'.db.vectors == s.db.vectors
      case Encode(b, item) => b in s'.pending && item in s'.pending[b] && s'.db == s.db
      case Discard(b) => b !in s'.pending && s'.db == s.db
      case Delete(c) =>
        && c !in s'.db.vectors && s'.db.vocab == s.db.vocab
        && (forall d | d in s.db.vectors && d != c :: d in s'.db.vectors && s'.db.vectors[d] == s.db.vectors[d])
      case RepairSequence => s'.db.vocab == s.db.vocab && s'.db.next == |s.db.vocab| && s'.db.vectors == s.db.vectors
      case _ => s'.db.epoch >= s.db.epoch
  {
  }

  /** Beside the vocabulary, apply can always be made, and revert whenever there is a
      record that fits; neither is possible on vectors kept in another database. */
  lemma RenumberingsPossible(s: System)
    requires Inv(s)
    ensures (exists s' :: Next(s, Apply, s')) <==> !s.separate && s.db.vocab != map[]
    ensures (exists s' :: Next(s, Revert, s')) <==> !s.separate && s.receipt.Some?
  {
    if !s.separate && s.db.vocab != map[] {
      VectorsLabelled(s.db, DenseMap(s.db.vocab.Values));
      assert Next(s, Apply, s.(db := Renumbered(s.db), receipt := Some(ReceiptOf(s.db, s.shape, s.schema))));
    }
    if !s.separate && s.receipt.Some? {
      ReceiptKeys(s.receipt.value);
      VectorsLabelled(s.db, RevertMap(s.db, s.receipt.value));
      assert Next(s, Revert, s.(db := Reverted(s.db, s.receipt.value), receipt := None));
    }
  }

  // ── Revert undoes apply, over runs ───────────────────────────────

  predicate Ordinary(step: Step) {
    !step.Apply? && !step.Revert?
  }

  lemma {:induction false} OrdinaryRunKeepsRecord(states: seq<System>, steps: seq<Step>, i: nat)
    requires Run(states, steps) && Inv(states[0]) && i < |states|
    requires forall j | 0 <= j < i :: Ordinary(steps[j])
    ensures states[i].receipt == states[0].receipt && states[i].db.epoch == states[0].db.epoch
    ensures states[i].shape == states[0].shape && states[i].schema == states[0].schema && Inv(states[i])
  {
    RunKeepsInv(states, steps, i);
    if i > 0 {
      OrdinaryRunKeepsRecord(states, steps, i - 1);
      assert Next(states[i - 1], steps[i - 1], states[i]);
    }
  }

  lemma RevertReturns(s: System, s': System, before: Numbering, applied: Numbering)
    requires Inv(s) && Next(s, Revert, s') && before.vocab != map[]
    requires s.receipt.Some? && Records(s.receipt.value, before, applied, s.shape, s.schema)
    ensures Restored(before, s.db, s'.db) && SameMeaning(s.db, s'.db) && Inv(s')
  {
    RecordedComesBack(before, applied, s.db, s.receipt.value, s.shape, s.schema);
    RevertPreservesMeaning(s.db, s.receipt.value);
    RevertKeeps(s, s');
  }

  lemma Suffix(states: seq<System>, steps: seq<Step>)
    requires Run(states, steps) && steps != []
    ensures Run(states[1..], steps[1..])
  {
    forall i | 0 <= i < |steps| - 1 ensures Next(states[1..][i], steps[1..][i], states[1..][i + 1]) {
      assert Next(states[i + 1], steps[i + 1], states[i + 2]);
    }
  }

  /** After apply, any registrations, burnt ids, fenced stores, deletions and
      sequence repairs, a revert gives every term of the old vocabulary its exact
      old id and every newer term an id above all of those, keeps the order of
      all terms and every meaning, and leaves the sequence past every id and not
      below its old position. */
  lemma RevertUndoesApply(states: seq<System>, steps: seq<Step>, k: nat)
    requires Run(states, steps) && Inv(states[0]) && 1 <= k < |steps|
    requires steps[0] == Apply && steps[k] == Revert
    requires forall j | 1 <= j < k :: Ordinary(steps[j])
    ensures states[0].db.vocab != map[]
    ensures forall t | t in states[0].db.vocab ::
              t in states[k + 1].db.vocab && states[k + 1].db.vocab[t] == states[0].db.vocab[t]
    ensures forall t, u | t in states[k + 1].db.vocab && t !in states[0].db.vocab && u in states[0].db.vocab ::
              states[0].db.vocab[u] < states[k + 1].db.vocab[t]
    ensures Restored(states[0].db, states[k].db, states[k + 1].db)
    ensures states[k + 1].db.next >= states[0].db.next && Inv(states[k + 1])
    ensures SameMeaning(states[k].db, states[k + 1].db)
  {
    assert Next(states[0], steps[0], states[1]);
    StepKeepsInv(states[0], steps[0], states[1]);
    Suffix(states, steps);
    OrdinaryRunKeepsRecord(states[1..], steps[1..], k - 1);
    assert Next(states[k], steps[k], states[k + 1]);
    ReceiptRecords(states[0].db, states[0].shape, states[0].schema);
    RevertReturns(states[k], states[k + 1], states[0].db, states[1].db);
    OldTop(states[0].db, states[k].db, states[k + 1].db);
  }

  lemma OldTop(before: Numbering, now: Numbering, after: Numbering)
    requires before.vocab != map[] && Restored(before, now, after)
    ensures forall t, u | t in after.vocab && t !in before.vocab && u in before.vocab ::
              before.vocab[u] < after.vocab[t]
  {
  }

  /** Revert is never refused by its own checks after ordinary steps. */
  lemma RevertStillFits(states: seq<System>, steps: seq<Step>, i: nat)
    requires Run(states, steps) && Inv(states[0]) && i < |states| && states[0].receipt.Some?
    requires forall j | 0 <= j < i :: Ordinary(steps[j])
    ensures states[i].receipt == states[0].receipt && Revertible(states[i].db, states[0].receipt.value)
  {
    OrdinaryRunKeepsRecord(states, steps, i);
  }
}
