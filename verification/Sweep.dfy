/** `scripts/backfill_bm25_vector.py`: a keyset-paged sweep that encodes rows
    while other writers insert, rewrite and delete them. */
module Sweep {
  import opened ChunkIds
  import opened Options
  import opened Ranks
  import opened Vectors
  import opened Checkpoint

  const BATCH: nat := 500
  const DEADLOCK_RETRIES: nat := 5
  /** Chunk ids are random UUIDs: their version bits keep them above the nil one,
      from which a sweep starts. */
  const KEYSPACE: int := 0x1_0000_0000_0000_0000_0000_0000_0000_0000

  /** A chunk row: its text, `indexed_at`, and the text its stored encoding was
      made from (None is a NULL `sparse_bm25`). */
  datatype Chunk = Chunk(text: string, stamp: int, encoding: Option<string>)
  type Chunks = map<ChunkId, Chunk>

  /** What a page read of one row. */
  datatype Read = Read(key: ChunkId, text: string, stamp: int)

  /** A writer transaction's effect on one row.  Old-shape writers leave the
      encoding alone; new-shape writers store it together with the text. */
  datatype Effect = Upsert(text: string, encodes: bool) | Remove

  predicate Matches(c: Chunk) {
    c.encoding == Some(c.text)
  }

  predicate Owed(c: Chunk, since: Option<int>) {
    c.encoding.None? || (since.Some? && c.stamp > since.value)
  }

  // ── What every actor keeps ───────────────────────────────────────

  /** From one moment to a later one: a row still carrying a stamp seen before
      holds the same text, and its encoding changed, if at all, to that text's. */
  ghost predicate Later(rows: Chunks, used: set<int>, rows': Chunks, used': set<int>) {
    && used <= used'
    && (forall k | k in rows' ::
          || rows'[k].stamp !in used
          || (k in rows && Carried(rows[k], rows'[k])))
  }

  predicate Carried(c: Chunk, c': Chunk) {
    c'.stamp == c.stamp && c'.text == c.text && (c'.encoding == c.encoding || Matches(c'))
  }

  lemma LaterTransitive(r0: Chunks, u0: set<int>, r1: Chunks, u1: set<int>, r2: Chunks, u2: set<int>)
    requires Later(r0, u0, r1, u1) && Later(r1, u1, r2, u2)
    ensures Later(r0, u0, r2, u2)
  {
    forall k | k in r2 && r2[k].stamp in u0 ensures k in r0 && Carried(r0[k], r2[k]) {
      assert k in r1 && Carried(r1[k], r2[k]);
    }
  }

  /** Encoded from its own text, or changed since these stamps were the only ones. */
  predicate Done(c: Chunk, before: set<int>) {
    Matches(c) || c.stamp !in before
  }

  /** Every row at or below the cursor is done. */
  ghost predicate Swept(rows: Chunks, before: set<int>, upto: ChunkId) {
    forall k | k in rows && k <= upto :: Done(rows[k], before)
  }

  ghost predicate SweptAll(rows: Chunks, before: set<int>) {
    forall k | k in rows :: Done(rows[k], before)
  }

  /** The assumption a sweep starts from: a row that does not match its text is
      in the window. */
  ghost predicate StaleIsOwed(rows: Chunks, before: set<int>, since: Option<int>) {
    forall k | k in rows :: Done(rows[k], before) || Owed(rows[k], since)
  }

  lemma SweptLater(rows: Chunks, used: set<int>, rows': Chunks, used': set<int>, before: set<int>, upto: ChunkId)
    requires Later(rows, used, rows', used') && before <= used && Swept(rows, before, upto)
    ensures Swept(rows', before, upto)
  {
  }

  lemma SweptAllLater(rows: Chunks, used: set<int>, rows': Chunks, used': set<int>, before: set<int>)
    requires Later(rows, used, rows', used') && before <= used && SweptAll(rows, before)
    ensures SweptAll(rows', before)
  {
  }

  lemma StaleIsOwedLater(rows: Chunks, used: set<int>, rows': Chunks, used': set<int>, before: set<int>,
                         since: Option<int>)
    requires Later(rows, used, rows', used') && before <= used && StaleIsOwed(rows, before, since)
    ensures StaleIsOwed(rows', before, since)
  {
  }

  // ── The tables, and everyone else ────────────────────────────────

  /** What can stop a sweep from outside, counted: statements that fail or are stopped
      and replies that are lost, and steps of other attempts on the progress row. */
  class Surroundings {
    var faults: nat
    var rivals: nat

    constructor ()
    {
      faults, rivals := 0, 0;
    }

    method Strikes() returns (hit: bool)
      modifies this`faults
      ensures faults == old(faults) + if hit then 1 else 0
    {
      hit := *;
      faults := faults + if hit then 1 else 0;
    }

    method Carries() returns (fate: Fate)
      modifies this`faults
      ensures faults == old(faults) + if fate.Delivered? then 0 else 1
    {
      fate := *;
      faults := faults + if fate.Delivered? then 0 else 1;
    }

    method Meddles()
      modifies this`rivals
      ensures rivals == old(rivals) + 1
    {
      rivals := rivals + 1;
    }
  }

  class ChunkTable {
    const around: Surroundings
    var rows: Chunks
    var clock: int              // the next transaction start
    var open: set<int>          // starts of writer transactions not yet ended
    var used: set<int>          // starts of transactions that have written rows

    constructor ()
      ensures rows == map[] && open == {} && used == {} && Valid() && fresh(around)
    {
      around := new Surroundings();
      rows := map[];
      clock := 0;
      open := {};
      used := {};
    }

    /** `indexed_at = NOW()` is the start of the transaction that wrote the row. */
    ghost predicate Valid()
      reads this
    {
      && (forall k | k in rows :: ZERO < k < KEYSPACE && rows[k].stamp in used)
      && (forall t | t in used || t in open :: t < clock)
      && used !! open
    }

    /** A writer transaction starts: its NOW() is fixed here. */
    method Begin()
      requires Valid()
      modifies this`clock, this`open
      ensures Valid() && clock == old(clock) + 1 && open == old(open) + {old(clock)}
    {
      open := open + {clock};
      clock := clock + 1;
    }

    /** It ends, possibly long after: its rows appear with the old start stamp. */
    method Commit(start: int, effects: map<ChunkId, Effect>)
      requires Valid() && start in open && (forall k | k in effects :: ZERO < k < KEYSPACE)
      modifies this`rows, this`open, this`used
      ensures Valid() && open == old(open) - {start} && used == old(used) + {start}
      ensures rows == Written(old(rows), start, effects)
      ensures Later(old(rows), old(used), rows, used)
    {
      rows := Written(rows, start, effects);
      open := open - {start};
      used := used + {start};
    }
  }

  function Written(rows: Chunks, start: int, effects: map<ChunkId, Effect>): Chunks {
    map k | k in rows.Keys + effects.Keys && (k in effects ==> effects[k].Upsert?) ::
      if k in effects
      then Chunk(effects[k].text, start,
                 if effects[k].encodes then Some(effects[k].text)
                 else if k in rows then rows[k].encoding else None)
      else rows[k]
  }

  /** A writer that stores encodings leaves no row of its own stale; an older one keeps
      whatever encoding the row had, right or wrong.  Neither touches another row. */
  lemma WriterLeaves(rows: Chunks, start: int, effects: map<ChunkId, Effect>, k: ChunkId)
    ensures var rows' := Written(rows, start, effects);
      && (k !in effects ==> (k in rows' <==> k in rows) && (k in rows ==> rows'[k] == rows[k]))
      && (k in effects && effects[k].Remove? ==> k !in rows')
      && (k in effects && effects[k].Upsert? ==>
            && k in rows' && rows'[k].text == effects[k].text && rows'[k].stamp == start
            && (effects[k].encodes ==> Matches(rows'[k]))
            && (!effects[k].encodes && k in rows ==> rows'[k].encoding == rows[k].encoding)
            && (!effects[k].encodes && k !in rows ==> Owed(rows'[k], None)))
  {
    assert k in rows.Keys + effects.Keys <==> k in rows || k in effects;
  }

  /** What is watched from one moment on: the sweep and the window it was created
      with, the stamps in use then, an instant the open transactions all started
      after, and whether any writer runs at all; what a handle last saw of the progress
      row, and whether that row had already ended. */
  datatype Watch = Watch(sweep: Option<nat>, since: int, before: set<int>, protect: Option<int>, drained: bool,
                         mark: Option<Mark>, ended: bool)

  /** A handle's memory of its row, and how often rivals had meddled by then. */
  datatype Mark = Mark(owner: Handle, seen: nat, written: nat, rivals: nat)

  /** The row is as it was remembered, or has moved on. */
  predicate Marks(table: map<nat, Row>, sweep: nat, mark: Mark) {
    && sweep in table
    && (table[sweep].sequence > mark.owner.sequence
        || (table[sweep].sequence == mark.owner.sequence
            && table[sweep].seen == mark.seen && table[sweep].written == mark.written))
  }

  /** Stamps that appear belong to transactions inside the protected window. */
  ghost predicate Guarded(db: ChunkTable, w: Watch)
    reads db
  {
    && w.before <= db.used
    && (w.drained ==> db.used == w.before)
    && (w.protect.Some? ==>
          && w.protect.value < db.clock
          && (forall t | t in db.open :: w.protect.value < t)
          && (forall t | t in db.used && t !in w.before :: w.protect.value < t))
  }

  /** The durable cursor claims no row that is not done; end of keyspace claims
      all; the sweep keeps the window it was created with; and its row only moves on,
      until it ends. */
  ghost predicate DurablePrefix(rows: Chunks, table: map<nat, Row>, w: Watch) {
    && (w.sweep.Some? && w.sweep.value in table ==>
          && table[w.sweep.value].contract.since == w.since
          && Swept(rows, w.before, table[w.sweep.value].cursor)
          && (table[w.sweep.value].exhausted ==> SweptAll(rows, w.before)))
    && (w.sweep.Some? && w.mark.Some? ==> Marks(table, w.sweep.value, w.mark.value))
    && (w.sweep.Some? && w.ended ==> w.sweep.value in table && table[w.sweep.value].exhausted)
  }

  /** Unless a rival has meddled, the row is still the handle's. */
  ghost predicate Undisturbed(db: ChunkTable, table: map<nat, Row>, w: Watch)
    reads db.around`rivals
  {
    w.sweep.Some? && w.mark.Some? ==>
      && w.mark.value.rivals <= db.around.rivals
      && (db.around.rivals == w.mark.value.rivals ==>
            w.sweep.value in table && Current(table[w.sweep.value], w.mark.value.owner))
  }

  ghost predicate World(db: ChunkTable, table: CheckpointTable, w: Watch)
    reads db, db.around`rivals, table
  {
    && db.Valid() && table.Valid() && Guarded(db, w) && DurablePrefix(db.rows, table.rows, w)
    && Undisturbed(db, table.rows, w)
  }

  /** The world, watched for more or for less. */
  lemma WithMark(db: ChunkTable, table: CheckpointTable, w: Watch, mark: Option<Mark>)
    requires World(db, table, w)
    requires w.sweep.Some? && mark.Some? ==> Marks(table.rows, w.sweep.value, mark.value)
    requires Undisturbed(db, table.rows, w.(mark := mark))
    ensures World(db, table, w.(mark := mark))
  {
  }

  /** Any number of steps of anyone else: writer transactions starting, ending and
      being abandoned; rival attempts encoding rows, claiming the progress row,
      and acknowledging prefixes they have swept. */
  method Others(db: ChunkTable, table: CheckpointTable, w: Watch)
    requires World(db, table, w)
    modifies db, db.around`rivals, table`rows
    ensures World(db, table, w)
    ensures old(db.around.rivals) <= db.around.rivals
    ensures old(db.around.rivals) == db.around.rivals ==> table.rows == old(table.rows)
    ensures Later(old(db.rows), old(db.used), db.rows, db.used)
  {
    var steps: nat :| 0 <= steps;
    for i := 0 to steps
      invariant World(db, table, w) && old(db.around.rivals) <= db.around.rivals
      invariant old(db.around.rivals) == db.around.rivals ==> table.rows == old(table.rows)
      invariant Later(old(db.rows), old(db.used), db.rows, db.used)
    {
      if * {
        WriterStep(db, table, w);
      } else {
        RivalStep(db, table, w);
      }
    }
  }

  method WriterStep(db: ChunkTable, table: CheckpointTable, w: Watch)
    requires World(db, table, w)
    modifies db
    ensures World(db, table, w)
    ensures Later(old(db.rows), old(db.used), db.rows, db.used)
    ensures old(db.clock) <= db.clock
  {
    if w.drained { return; }
    if * {
      db.Begin();
    } else {
      var start: int := *;
      var effects: map<ChunkId, Effect> := *;
      if start in db.open && forall k | k in effects :: ZERO < k < KEYSPACE {
        if * {
          db.Commit(start, effects);
        } else {
          db.open := db.open - {start};
        }
      }
    }
  }

  method RivalStep(db: ChunkTable, table: CheckpointTable, w: Watch)
    requires World(db, table, w)
    modifies db`rows, db.around`rivals, table`rows
    ensures World(db, table, w)
    ensures old(db.around.rivals) <= db.around.rivals
    ensures old(db.around.rivals) == db.around.rivals ==> table.rows == old(table.rows)
    ensures Later(old(db.rows), old(db.used), db.rows, db.used)
  {
    var k: ChunkId := *;
    if k in db.rows {
      db.rows := db.rows[k := db.rows[k].(encoding := Some(db.rows[k].text))];
    }
    if w.sweep.Some? && w.sweep.value in table.rows {
      RivalReceipt(db, table, w, w.sweep.value);
    }
  }

  /** A rival claims the sweep, acknowledges a prefix it has swept, or ends it. */
  method RivalReceipt(db: ChunkTable, table: CheckpointTable, w: Watch, sweep: nat)
    requires World(db, table, w) && w.sweep == Some(sweep) && sweep in table.rows
    modifies table`rows, db.around`rivals
    ensures World(db, table, w)
    ensures old(db.around.rivals) <= db.around.rivals
    ensures old(db.around.rivals) == db.around.rivals ==> table.rows == old(table.rows)
  {
    var row := table.rows[sweep];
    if row.exhausted { return; }
    var attempt: nat := *;
    if attempt != row.attempt { row := Claimed(row, attempt); }
    var to: ChunkId := *;
    var seen: nat :| 0 <= seen;
    var written: nat :| 0 <= written;
    if to > row.cursor && written <= seen && forall k | k in db.rows && k <= to :: Done(db.rows[k], w.before) {
      row := Advanced(row, to, seen, written);
    } else if forall k | k in db.rows :: Done(db.rows[k], w.before) {
      row := Exhausted(row);
    }
    db.around.Meddles();
    table.rows := table.rows[sweep := row];
  }

  // ── Reading a page ───────────────────────────────────────────────

  function Window(rows: Chunks, cursor: ChunkId, since: Option<int>): set<ChunkId> {
    set k | k in rows && k > cursor && Owed(rows[k], since)
  }

  function ReadsOf(rows: Chunks, keys: seq<ChunkId>): (r: seq<Read>)
    requires forall i | 0 <= i < |keys| :: keys[i] in rows
    ensures |r| == |keys|
    ensures forall i | 0 <= i < |keys| :: r[i] == Read(keys[i], rows[keys[i]].text, rows[keys[i]].stamp)
  {
    if keys == [] then [] else
      [Read(keys[0], rows[keys[0]].text, rows[keys[0]].stamp)] + ReadsOf(rows, keys[1..])
  }

  /** `WHERE chunk_id > cursor AND owed ORDER BY chunk_id LIMIT 500`. */
  function PageOf(rows: Chunks, cursor: ChunkId, since: Option<int>): seq<Read> {
    var keys := Sorted(Window(rows, cursor, since));
    assert forall i | 0 <= i < |keys| :: keys[i] in keys && keys[i] in Window(rows, cursor, since);
    ReadsOf(rows, keys[..PageSize(|keys|)])
  }

  function PageSize(n: nat): (m: nat)
    ensures m <= n && m <= BATCH && (m == 0 ==> n == 0) && (m < BATCH ==> m == n)
  {
    if n <= BATCH then n else BATCH
  }

  ghost predicate KeysAscend(page: seq<Read>) {
    forall i, j | 0 <= i < j < |page| :: page[i].key < page[j].key
  }

  /** A page is what the rows hold, in key order, and leaves out no owed row up
      to its last key (none at all when it is not full). */
  ghost predicate PageRead(page: seq<Read>, rows: Chunks, cursor: ChunkId, since: Option<int>) {
    && KeysAscend(page) && |page| <= BATCH
    && (forall i | 0 <= i < |page| ::
          && page[i].key in rows && page[i].key > cursor
          && (rows[page[i].key].encoding.None? || (since.Some? && rows[page[i].key].stamp > since.value))
          && page[i].text == rows[page[i].key].text && page[i].stamp == rows[page[i].key].stamp)
    && (forall k | k in Window(rows, cursor, since) && (page == [] || k <= page[|page| - 1].key) ::
          exists i :: 0 <= i < |page| && page[i].key == k)
  }

  lemma PageOfRead(rows: Chunks, cursor: ChunkId, since: Option<int>)
    ensures PageRead(PageOf(rows, cursor, since), rows, cursor, since)
  {
    var w := Window(rows, cursor, since);
    SortedAscends(w);
    var keys := Sorted(w);
    forall i | 0 <= i < |keys| ensures keys[i] in rows { assert keys[i] in keys; }
    FirstOfSorted(rows, cursor, since, keys, PageSize(|keys|));
  }

  lemma FirstOfSorted(rows: Chunks, cursor: ChunkId, since: Option<int>, keys: seq<ChunkId>, n: nat)
    requires n <= |keys| && n <= BATCH && (n == 0 ==> keys == [])
    requires forall i, j | 0 <= i < j < |keys| :: keys[i] < keys[j]
    requires forall k :: k in keys <==> k in Window(rows, cursor, since)
    requires forall i | 0 <= i < |keys| :: keys[i] in rows
    ensures PageRead(ReadsOf(rows, keys[..n]), rows, cursor, since)
  {
    hide ReadsOf;
    var page := ReadsOf(rows, keys[..n]);
    assert forall i | 0 <= i < n :: page[i].key == keys[i] == keys[..n][i];
    assert KeysAscend(page);
    forall i | 0 <= i < n ensures keys[i] > cursor && Owed(rows[keys[i]], since) {
      assert keys[i] in keys;
      assert keys[i] in Window(rows, cursor, since);
    }
    hide Window;
    forall k | k in Window(rows, cursor, since) && (page == [] || k <= page[|page| - 1].key)
      ensures exists i :: 0 <= i < |page| && page[i].key == k
    {
      var i := FoundFirst(keys, n, k);
      assert page[i].key == k;
    }
  }

  /** A key no greater than the n-th of an ascending list is among its first n. */
  lemma FoundFirst(keys: seq<ChunkId>, n: nat, k: ChunkId) returns (i: nat)
    requires n <= |keys| && (n == 0 ==> keys == []) && k in keys
    requires forall i, j | 0 <= i < j < |keys| :: keys[i] < keys[j]
    requires n > 0 ==> k <= keys[n - 1]
    ensures i < n && keys[i] == k
  {
    i :| 0 <= i < |keys| && keys[i] == k;
  }

  // ── Parts and waves ──────────────────────────────────────────────

  function CeilDiv(n: nat, d: nat): (q: nat)
    requires d > 0
    ensures n <= q * d && (n > 0 ==> (q - 1) * d < n && q > 0)
  {
    (n + d - 1) / d
  }

  /** Fixed-size slices, in order; the last may be shorter. */
  function Slices<T>(s: seq<T>, size: nat): (r: seq<seq<T>>)
    requires size > 0
    ensures forall p | p in r :: 0 < |p| <= size
    decreases |s|
  {
    if s == [] then [] else if |s| <= size then [s] else [s[..size]] + Slices(s[size..], size)
  }

  function Concat<T>(parts: seq<seq<T>>): seq<T> {
    if parts == [] then [] else parts[0] + Concat(parts[1..])
  }

  lemma ConcatCons<T>(p: seq<T>, parts: seq<seq<T>>)
    ensures Concat([p] + parts) == p + Concat(parts)
  {
    assert ([p] + parts)[1..] == parts;
  }

  /** Slicing loses nothing and reorders nothing. */
  lemma {:induction false} SlicesConcat<T>(s: seq<T>, size: nat)
    requires size > 0
    ensures Concat(Slices(s, size)) == s
    decreases |s|
  {
    if |s| > size {
      SlicesConcat(s[size..], size);
      ConcatCons(s[..size], Slices(s[size..], size));
    } else if s != [] {
      ConcatCons(s, []);
      assert [s] + [] == [s];
    }
  }

  /** The number of slices is the length over the size, rounded up. */
  lemma {:induction false} SlicesCount<T>(s: seq<T>, size: nat)
    requires size > 0
    ensures |Slices(s, size)| * size < |s| + size
    decreases |s|
  {
    if |s| > size {
      SlicesCount(s[size..], size);
      var n := |Slices(s[size..], size)|;
      assert |Slices(s, size)| == n + 1;
      assert (n + 1) * size == n * size + size;
    }
  }

  /** How a page is cut into statements. */
  function Parts(page: seq<Read>, writers: nat, writeBatch: nat): seq<seq<Read>>
    requires writers > 0 && writeBatch > 0 && page != []
  {
    var balanced := CeilDiv(|page|, writers);
    Slices(page, if writeBatch < balanced then writeBatch else balanced)
  }

  /** A write batch no smaller than the balanced split leaves one wave. */
  lemma OneWave(page: seq<Read>, writers: nat, writeBatch: nat)
    requires writers > 0 && page != [] && writeBatch >= CeilDiv(|page|, writers)
    ensures |Parts(page, writers, writeBatch)| <= writers
  {
    var size := CeilDiv(|page|, writers);
    SlicesCount(page, size);
    MulCancel(|Parts(page, writers, writeBatch)|, writers + 1, size);
  }

  lemma MulCancel(a: nat, b: nat, c: nat)
    requires a * c < b * c
    ensures a < b
  {
    if a >= b { MulMono(b, a, c); }
  }

  lemma MulMono(a: int, b: int, c: nat)
    requires a <= b
    ensures a * c <= b * c
  {
  }

  // ── Writing one statement ────────────────────────────────────────

  /** A read identifies its text: while the row keeps that stamp, it keeps that text. */
  ghost predicate Faithful(part: seq<Read>, rows: Chunks, used: set<int>) {
    forall r | r in part ::
      r.stamp in used && (r.key in rows && rows[r.key].stamp == r.stamp ==> rows[r.key].text == r.text)
  }

  /** Nothing read is left both unchanged and unencoded. */
  ghost predicate Settled(part: seq<Read>, rows: Chunks) {
    forall r | r in part :: r.key in rows && rows[r.key].stamp == r.stamp ==> Matches(rows[r.key])
  }

  lemma FaithfulLater(part: seq<Read>, rows: Chunks, used: set<int>, rows': Chunks, used': set<int>)
    requires Faithful(part, rows, used) && Later(rows, used, rows', used')
    ensures Faithful(part, rows', used')
    ensures Settled(part, rows) ==> Settled(part, rows')
  {
    forall r | r in part && r.key in rows' && rows'[r.key].stamp == r.stamp
      ensures rows'[r.key].text == r.text && (Settled(part, rows) ==> Matches(rows'[r.key]))
    {
      assert r.key in rows && Carried(rows[r.key], rows'[r.key]);
    }
  }

  predicate Hits(r: Read, rows: Chunks) {
    r.key in rows && rows[r.key].stamp == r.stamp
  }

  function Find(part: seq<Read>, k: ChunkId): Option<Read> {
    if part == [] then None else if part[0].key == k then Some(part[0]) else Find(part[1..], k)
  }

  lemma {:induction false} FindKey(part: seq<Read>, k: ChunkId)
    ensures match Find(part, k)
            case None => forall r | r in part :: r.key != k
            case Some(r) => r in part && r.key == k
  {
    if part != [] && part[0].key != k {
      FindKey(part[1..], k);
      assert part == [part[0]] + part[1..];
    }
  }

  /** `UPDATE ... WHERE c.chunk_id = m.cid AND c.indexed_at = m.ts`. */
  function Updated(rows: Chunks, part: seq<Read>): Chunks {
    map k | k in rows ::
      var r := Find(part, k);
      if r.Some? && r.value.stamp == rows[k].stamp then rows[k].(encoding := Some(r.value.text)) else rows[k]
  }

  function Count(part: seq<Read>, rows: Chunks): (n: nat)
    ensures n <= |part|
  {
    if part == [] then 0 else (if Hits(part[0], rows) then 1 else 0) + Count(part[1..], rows)
  }

  /** The count of an update is the number of reads whose row still held its
      stamp, and holds it still. */
  lemma {:induction false} CountKept(part: seq<Read>, rows: Chunks, rows': Chunks)
    requires forall r | r in part :: Hits(r, rows) <==> Hits(r, rows')
    ensures Count(part, rows') == Count(part, rows)
  {
    if part != [] {
      forall r | r in part[1..] ensures Hits(r, rows) <==> Hits(r, rows') { assert r in part; }
      CountKept(part[1..], rows, rows');
    }
  }

  function HitKeys(part: seq<Read>, rows: Chunks): set<ChunkId> {
    set r | r in part && Hits(r, rows) :: r.key
  }

  lemma HitKeysSplit(part: seq<Read>, rows: Chunks)
    requires part != [] && KeysAscend(part)
    ensures part[0].key !in HitKeys(part[1..], rows)
    ensures HitKeys(part, rows) ==
      if Hits(part[0], rows) then HitKeys(part[1..], rows) + {part[0].key} else HitKeys(part[1..], rows)
  {
    assert part == [part[0]] + part[1..];
    forall r | r in part[1..] ensures part[0].key < r.key {
      var i :| 0 <= i < |part[1..]| && part[1..][i] == r;
      assert part[0].key < part[i + 1].key;
    }
    hide Hits;
  }

  /** And it is the number of rows that were hit. */
  lemma {:induction false} CountHits(part: seq<Read>, rows: Chunks)
    requires KeysAscend(part)
    ensures Count(part, rows) == |HitKeys(part, rows)|
  {
    if part != [] {
      HitKeysSplit(part, rows);
      CountHits(part[1..], rows);
      hide HitKeys, Hits;
    }
  }

  /** The conditional update writes no encoding but that of the text the row
      holds, and leaves no row it read unchanged and unencoded. */
  lemma UpdateIsCurrent(rows: Chunks, used: set<int>, part: seq<Read>)
    requires Faithful(part, rows, used) && KeysAscend(part)
    ensures Later(rows, used, Updated(rows, part), used)
    ensures Settled(part, Updated(rows, part))
    ensures Updated(rows, part).Keys == rows.Keys
    ensures forall k | k in rows && Updated(rows, part)[k] != rows[k] ::
              Updated(rows, part)[k] == rows[k].(encoding := Some(rows[k].text))
  {
    var rows' := Updated(rows, part);
    forall k | k in rows
      ensures Carried(rows[k], rows'[k]) && rows'[k].stamp == rows[k].stamp && rows'[k].text == rows[k].text
      ensures rows'[k] != rows[k] ==> rows'[k].encoding == Some(rows[k].text)
    {
      FindKey(part, k);
    }
    forall r | r in part && r.key in rows' && rows'[r.key].stamp == r.stamp ensures Matches(rows'[r.key]) {
      FindKey(part, r.key);
      var found := Find(part, r.key).value;
      SameKeySameRead(part, r, found);
    }
  }

  lemma SameKeySameRead(part: seq<Read>, a: Read, b: Read)
    requires KeysAscend(part) && a in part && b in part && a.key == b.key
    ensures a == b
  {
    var i :| 0 <= i < |part| && part[i] == a;
    var j :| 0 <= j < |part| && part[j] == b;
    assert i < j ==> part[i].key < part[j].key;
    assert j < i ==> part[j].key < part[i].key;
  }

  /** The stamp is all the update has to go by: every row it hits ends up encoded
      from its own text exactly when each stamp it matched still stood for the
      text that was read under it. */
  lemma StampIsIdentity(rows: Chunks, part: seq<Read>)
    requires KeysAscend(part)
    ensures (forall r | r in part && Hits(r, rows) :: Matches(Updated(rows, part)[r.key]))
       <==> (forall r | r in part && Hits(r, rows) :: rows[r.key].text == r.text)
  {
    forall r | r in part && Hits(r, rows)
      ensures Updated(rows, part)[r.key] == rows[r.key].(encoding := Some(r.text))
    {
      FindKey(part, r.key);
      SameKeySameRead(part, r, Find(part, r.key).value);
    }
  }

  /** `EpochMoved`: the fence refused the batch. */
  datatype WriteResult = Wrote(count: nat) | Deadlock | EpochMoved | WriteFailed

  /** Encode a batch, then write it in one transaction: committed whole or not
      at all.  The rows may move at any await before it. */
  method ApplyOnce(db: ChunkTable, table: CheckpointTable, w: Watch, part: seq<Read>)
    returns (r: WriteResult)
    requires World(db, table, w) && Faithful(part, db.rows, db.used) && KeysAscend(part)
    modifies db, db.around, table`rows
    ensures World(db, table, w) && Faithful(part, db.rows, db.used)
    ensures Later(old(db.rows), old(db.used), db.rows, db.used)
    ensures r.Wrote? ==> Settled(part, db.rows) && r.count == Count(part, db.rows) <= |part|
    ensures old(db.around.faults) <= db.around.faults && (!r.Wrote? ==> old(db.around.faults) < db.around.faults)
    ensures old(db.around.rivals) <= db.around.rivals
  {
    ghost var rows0, used0 := db.rows, db.used;
    Others(db, table, w);                 // encoding
    FaithfulLater(part, rows0, used0, db.rows, db.used);
    var hit := db.around.Strikes();
    if hit {
      r := *;
      if r.Wrote? { r := WriteFailed; }
      return;
    }
    ghost var rows1 := db.rows;
    UpdateIsCurrent(db.rows, db.used, part);
    r := Wrote(Count(part, db.rows));
    db.rows := Updated(db.rows, part);
    CountKept(part, rows1, db.rows);
    FaithfulLater(part, rows1, db.used, db.rows, db.used);
    LaterTransitive(rows0, used0, rows1, db.used, db.rows, db.used);
  }

  /** A statement of a wave: to be tried once more, committed, or failed for good. */
  datatype Statement = Trying(tries: nat) | Landed(count: nat) | GaveUp

  /** One try of a statement.  A deadlock or a moved epoch is tried again, with the
      rows as they were read, up to the last of its tries. */
  method ApplyPart(db: ChunkTable, table: CheckpointTable, w: Watch, part: seq<Read>, tries: nat)
    returns (s: Statement, ghost cause: WriteResult)
    requires World(db, table, w) && Faithful(part, db.rows, db.used) && KeysAscend(part)
    requires tries < DEADLOCK_RETRIES
    modifies db, db.around, table`rows
    ensures World(db, table, w) && Faithful(part, db.rows, db.used)
    ensures Later(old(db.rows), old(db.used), db.rows, db.used)
    ensures s.Landed? ==> Settled(part, db.rows) && s.count == Count(part, db.rows) <= |part|
    ensures s.Trying? ==> s.tries == tries + 1 < DEADLOCK_RETRIES
    ensures s.Landed? <==> cause.Wrote?
    ensures old(db.around.faults) <= db.around.faults && (!s.Landed? ==> old(db.around.faults) < db.around.faults)
    ensures old(db.around.rivals) <= db.around.rivals
    ensures s.Trying? <==> (cause.Deadlock? || cause.EpochMoved?) && tries + 1 < DEADLOCK_RETRIES
  {
    ghost var rows0, used0 := db.rows, db.used;
    if tries > 0 {
      Others(db, table, w);               // the back-off
      FaithfulLater(part, rows0, used0, db.rows, db.used);
    }
    ghost var rows1, used1 := db.rows, db.used;
    var r := ApplyOnce(db, table, w, part);
    LaterTransitive(rows0, used0, rows1, used1, db.rows, db.used);
    cause := r;
    if r.Wrote? { return Landed(r.count), cause; }
    s := if r.WriteFailed? || tries + 1 == DEADLOCK_RETRIES then GaveUp else Trying(tries + 1);
  }

  // ── The pass ─────────────────────────────────────────────────────

  lemma ConcatAssociates<T>(a: seq<T>, b: seq<T>, c: seq<T>)
    ensures a + b + c == a + (b + c)
  {
  }

  lemma {:induction false} ConcatSplit<T>(a: seq<seq<T>>, b: seq<seq<T>>)
    ensures Concat(a + b) == Concat(a) + Concat(b)
  {
    if a == [] {
      assert a + b == b;
    } else {
      ConcatSplit(a[1..], b);
      assert a + b == [a[0]] + (a[1..] + b);
      ConcatCons(a[0], a[1..] + b);
      ConcatAssociates(a[0], Concat(a[1..]), Concat(b));
    }
  }

  lemma {:induction false} ConcatMember<T>(parts: seq<seq<T>>, p: seq<T>, x: T)
    requires p in parts && x in p
    ensures x in Concat(parts)
  {
    if p != parts[0] {
      ConcatMember(parts[1..], p, x);
    }
  }

  lemma {:induction false} SettledConcat(parts: seq<seq<Read>>, rows: Chunks)
    requires forall p | p in parts :: Settled(p, rows)
    ensures Settled(Concat(parts), rows)
  {
    if parts != [] {
      SettledConcat(parts[1..], rows);
      assert Settled(parts[0], rows);
    }
  }

  lemma {:induction false} SlicesAscend(page: seq<Read>, size: nat)
    requires size > 0 && KeysAscend(page)
    ensures forall p | p in Slices(page, size) :: KeysAscend(p)
    decreases |page|
  {
    if |page| > size {
      SlicesAscend(page[size..], size);
    }
  }

  /** What a wave that has committed lets a cursor claim: everything up to its
      last key is done, whatever happened since the page was read. */
  lemma CommittedPrefixIsSwept(page: seq<Read>, n: nat, rows0: Chunks, used0: set<int>, rows: Chunks, used: set<int>,
                               cursor: ChunkId, before: set<int>, since: Option<int>)
    requires PageRead(page, rows0, cursor, since) && StaleIsOwed(rows0, before, since) && before <= used0
    requires Later(rows0, used0, rows, used) && Swept(rows, before, cursor)
    requires 0 < n <= |page| && Settled(page[..n], rows)
    ensures Swept(rows, before, page[n - 1].key)
  {
    forall k | k in rows && cursor < k <= page[n - 1].key && rows[k].stamp in before ensures Matches(rows[k]) {
      assert k in rows0 && Carried(rows0[k], rows[k]);
      if !Matches(rows0[k]) {
        assert k in Window(rows0, cursor, since);
        assert page[n - 1].key <= page[|page| - 1].key;
        var i :| 0 <= i < |page| && page[i].key == k;
        assert i < n;
        assert page[i] in page[..n];
      }
    }
  }

  /** An empty page: nothing is owed above the cursor, so nothing is stale there. */
  lemma EmptyPageIsSwept(rows: Chunks, cursor: ChunkId, before: set<int>, since: Option<int>)
    requires PageRead([], rows, cursor, since) && StaleIsOwed(rows, before, since) && Swept(rows, before, cursor)
    ensures SweptAll(rows, before)
  {
    forall k | k in rows && k > cursor ensures Done(rows[k], before) {
      assert k !in Window(rows, cursor, since);
    }
  }

  /** The rows at one moment. */
  datatype Moment = Moment(rows: Chunks, used: set<int>)

  ghost predicate Between(a: Moment, m: Moment, b: Moment) {
    Later(a.rows, a.used, m.rows, m.used) && Later(m.rows, m.used, b.rows, b.used)
  }

  ghost predicate AllFaithful(wave: seq<seq<Read>>, rows: Chunks, used: set<int>) {
    forall p | p in wave :: Faithful(p, rows, used) && KeysAscend(p)
  }

  /** Each statement of a wave committed at a moment of its own. */
  ghost predicate AllLanded(wave: seq<seq<Read>>, commits: seq<Moment>, a: Moment, b: Moment) {
    |commits| == |wave|
    && forall i | 0 <= i < |wave| :: Between(a, commits[i], b) && Settled(wave[i], commits[i].rows)
  }

  /** The rows hit, each counted at its own statement's commit. */
  ghost function Total(wave: seq<seq<Read>>, commits: seq<Moment>): nat
    requires |commits| == |wave|
  {
    if wave == [] then 0 else Count(wave[0], commits[0].rows) + Total(wave[1..], commits[1..])
  }

  lemma {:induction false} TotalAtMost(wave: seq<seq<Read>>, commits: seq<Moment>)
    requires |commits| == |wave|
    ensures Total(wave, commits) <= |Concat(wave)|
  {
    if wave != [] { TotalAtMost(wave[1..], commits[1..]); }
  }

  /** Tries left to a wave. */
  function TriesLeft(tasks: seq<Statement>): nat {
    if tasks == [] then 0 else
      (if tasks[0].Trying? && tasks[0].tries < DEADLOCK_RETRIES then DEADLOCK_RETRIES - tasks[0].tries else 0)
      + TriesLeft(tasks[1..])
  }

  lemma {:induction false} FewerTries(tasks: seq<Statement>, i: nat, s: Statement)
    requires i < |tasks| && tasks[i].Trying? && tasks[i].tries < DEADLOCK_RETRIES
    requires s.Trying? ==> s.tries == tasks[i].tries + 1
    ensures TriesLeft(tasks[i := s]) < TriesLeft(tasks)
  {
    if i > 0 {
      FewerTries(tasks[1..], i - 1, s);
      assert tasks[i := s][1..] == tasks[1..][i - 1 := s];
    }
  }

  function Sum(tasks: seq<Statement>): nat
    requires forall t | t in tasks :: t.Landed?
  {
    if tasks == [] then 0 else tasks[0].count + Sum(tasks[1..])
  }

  lemma {:induction false} SumIsTotal(tasks: seq<Statement>, wave: seq<seq<Read>>, commits: seq<Moment>)
    requires |tasks| == |wave| == |commits| && forall t | t in tasks :: t.Landed?
    requires forall i | 0 <= i < |wave| :: tasks[i].count == Count(wave[i], commits[i].rows)
    ensures Sum(tasks) == Total(wave, commits)
  {
    if wave != [] { SumIsTotal(tasks[1..], wave[1..], commits[1..]); }
  }

  /** How the statements of a wave stand: what has committed did so at its moment. */
  ghost predicate Standing(wave: seq<seq<Read>>, tasks: seq<Statement>, commits: seq<Moment>, a: Moment, b: Moment) {
    && |tasks| == |wave| == |commits| && Between(a, b, b) && AllFaithful(wave, b.rows, b.used)
    && forall i | 0 <= i < |wave| ::
         && (tasks[i].Trying? ==> tasks[i].tries < DEADLOCK_RETRIES)
         && (tasks[i].Landed? ==>
               && Between(a, commits[i], b) && Settled(wave[i], commits[i].rows)
               && Settled(wave[i], b.rows) && tasks[i].count == Count(wave[i], commits[i].rows))
  }

  lemma StandingGives(wave: seq<seq<Read>>, tasks: seq<Statement>, commits: seq<Moment>, a: Moment, b: Moment, i: nat)
    requires Standing(wave, tasks, commits, a, b) && i < |wave| && tasks[i].Trying?
    ensures Faithful(wave[i], b.rows, b.used) && KeysAscend(wave[i]) && tasks[i].tries < DEADLOCK_RETRIES
  {
    assert wave[i] in wave;
  }

  /** Time passes, and one statement moves on. */
  lemma StandingStep(wave: seq<seq<Read>>, tasks: seq<Statement>, commits: seq<Moment>, a: Moment, b: Moment,
                     i: nat, s: Statement, c: Moment)
    requires Standing(wave, tasks, commits, a, b) && i < |wave| && Later(b.rows, b.used, c.rows, c.used)
    requires s.Landed? ==> Settled(wave[i], c.rows) && s.count == Count(wave[i], c.rows)
    requires s.Trying? ==> s.tries < DEADLOCK_RETRIES
    ensures Standing(wave, tasks[i := s], commits[i := c], a, c)
  {
    LaterTransitive(a.rows, a.used, b.rows, b.used, c.rows, c.used);
    forall p | p in wave
      ensures Faithful(p, c.rows, c.used) && KeysAscend(p) && (Settled(p, b.rows) ==> Settled(p, c.rows))
    {
      FaithfulLater(p, b.rows, b.used, c.rows, c.used);
    }
    forall j | 0 <= j < |wave| && j != i && tasks[j].Landed?
      ensures Between(a, commits[j], c)
    {
      LaterTransitive(commits[j].rows, commits[j].used, b.rows, b.used, c.rows, c.used);
    }
  }

  /** One wave: at most `writers` statements at once, their tries interleaved in any
      order, with anything else in between.  When one fails, or the wave itself is
      cancelled, its siblings are cancelled, and each may still have committed; the
      wave ends when all of them have.  What it counts is the rows each statement
      hit at its own commit. */
  method RunWave(db: ChunkTable, table: CheckpointTable, w: Watch, writers: nat, wave: seq<seq<Read>>)
    returns (ok: bool, written: nat, ghost commits: seq<Moment>)
    requires World(db, table, w) && |wave| <= writers && AllFaithful(wave, db.rows, db.used)
    modifies db, db.around, table`rows
    ensures World(db, table, w)
    ensures Later(old(db.rows), old(db.used), db.rows, db.used)
    ensures ok ==> Settled(Concat(wave), db.rows)
    ensures old(db.around.faults) <= db.around.faults && (!ok ==> old(db.around.faults) < db.around.faults)
    ensures old(db.around.rivals) <= db.around.rivals
    ensures ok ==>
      && AllLanded(wave, commits, Moment(old(db.rows), old(db.used)), Moment(db.rows, db.used))
      && written == Total(wave, commits) <= |Concat(wave)|
  {
    ghost var start := Moment(db.rows, db.used);
    var tasks := seq(|wave|, _ => Trying(0));
    commits := seq(|wave|, _ => start);
    ok := true;
    while exists i | 0 <= i < |tasks| :: tasks[i].Trying?
      invariant World(db, table, w) && Standing(wave, tasks, commits, start, Moment(db.rows, db.used))
      invariant ok ==> forall t | t in tasks :: !t.GaveUp?
      invariant old(db.around.faults) <= db.around.faults && (!ok ==> old(db.around.faults) < db.around.faults)
      invariant old(db.around.rivals) <= db.around.rivals
      decreases TriesLeft(tasks)
    {
      hide World, Standing, Settled;
      var i: nat :| i < |tasks| && tasks[i].Trying?;
      ghost var was := Moment(db.rows, db.used);
      StandingGives(wave, tasks, commits, start, was, i);
      var cancelled := db.around.Strikes();
      if cancelled { ok := false; }       // the wave itself
      var s := GaveUp;
      var started := ok;
      if !ok { started := *; }
      if started {
        ghost var cause;
        s, cause := ApplyPart(db, table, w, wave[i], tasks[i].tries);
      }
      StandingStep(wave, tasks, commits, start, was, i, s, Moment(db.rows, db.used));
      FewerTries(tasks, i, s);
      tasks, commits := tasks[i := s], commits[i := Moment(db.rows, db.used)];
      if s.GaveUp? { ok := false; }
    }
    written := 0;
    if ok {
      forall p | p in wave ensures Settled(p, db.rows) {
        var i :| 0 <= i < |wave| && wave[i] == p;
        assert tasks[i] in tasks;
      }
      SettledConcat(wave, db.rows);
      written := Sum(tasks);
      SumIsTotal(tasks, wave, commits);
      TotalAtMost(wave, commits);
    }
  }

  datatype PassOutcome = EndOfKeyspace(seen: nat, written: nat) | Stopped(reason: Reply) | WaveFailed

  /** A sweep stops because a statement failed or its checkpoint did; its own
      waves are never refused as out of order. */
  predicate Interrupted(outcome: PassOutcome) {
    outcome.WaveFailed? || (outcome.Stopped? && !outcome.reason.InvalidWave?)
  }

  ghost predicate HandleOk(checkpoint: SweepCheckpoint?, table: CheckpointTable, w: Watch)
    reads checkpoint
  {
    checkpoint != null ==> checkpoint.table == table && w.sweep == Some(checkpoint.sweep)
  }

  function HandleSet(checkpoint: SweepCheckpoint?): set<object> {
    if checkpoint == null then {} else {checkpoint}
  }

  function MarkOf(checkpoint: SweepCheckpoint, rivals: nat): Mark
    reads checkpoint
  {
    Mark(checkpoint.Remembered(), checkpoint.seen, checkpoint.written, rivals)
  }

  /** Nobody else has changed the row, or it is no longer this handle's to change; and
      unless rivals have meddled since, it is. */
  ghost predicate InStep(checkpoint: SweepCheckpoint?, table: CheckpointTable, db: ChunkTable, rivals: nat)
    reads checkpoint, table, db.around`rivals
  {
    checkpoint != null ==>
      && Marks(table.rows, checkpoint.sweep, MarkOf(checkpoint, rivals))
      && rivals <= db.around.rivals
      && (db.around.rivals == rivals ==> Current(table.rows[checkpoint.sweep], checkpoint.Remembered()))
  }

  /** The watch that remembers what the handle does. */
  function Remembering(w: Watch, checkpoint: SweepCheckpoint?, rivals: nat): Watch
    reads checkpoint
  {
    if checkpoint == null then w else w.(mark := Some(MarkOf(checkpoint, rivals)))
  }

  lemma Remember(db: ChunkTable, table: CheckpointTable, w: Watch, checkpoint: SweepCheckpoint?, rivals: nat)
    requires World(db, table, w) && InStep(checkpoint, table, db, rivals) && HandleOk(checkpoint, table, w)
    ensures World(db, table, Remembering(w, checkpoint, rivals))
  {
  }

  lemma Recall(db: ChunkTable, table: CheckpointTable, w: Watch, checkpoint: SweepCheckpoint?, rivals: nat)
    requires World(db, table, Remembering(w, checkpoint, rivals)) && HandleOk(checkpoint, table, w) && w.mark.None?
    ensures World(db, table, w) && InStep(checkpoint, table, db, rivals)
  {
  }

  /** Something from outside has come in the way since. */
  predicate Struck(db: ChunkTable, faults: nat, rivals: nat, checkpoint: SweepCheckpoint?)
    reads db.around
  {
    db.around.faults > faults || (checkpoint != null && db.around.rivals > rivals)
  }

  /** Acknowledge a committed wave.  The reply may be lost either side of the commit. */
  method Acknowledge(db: ChunkTable, table: CheckpointTable, w: Watch,
                     checkpoint: SweepCheckpoint, rivals: nat, to: ChunkId, waveSeen: nat, waveWritten: nat)
    returns (reply: Reply)
    requires World(db, table, w) && HandleOk(checkpoint, table, w)
    requires Swept(db.rows, w.before, to) && checkpoint.cursor < to && 0 < waveSeen && waveWritten <= waveSeen
    requires w.mark.None? && InStep(checkpoint, table, db, rivals)
    modifies table`rows, checkpoint, db.around`faults
    ensures World(db, table, w)
    ensures !reply.InvalidWave? && old(db.around.faults) <= db.around.faults
    ensures !reply.Acknowledged? ==> Struck(db, old(db.around.faults), rivals, checkpoint)
    ensures reply.Acknowledged? ==>
              checkpoint.cursor == to && checkpoint.Owns() && InStep(checkpoint, table, db, rivals)
    ensures reply.Acknowledged? ==> checkpoint.sequence == old(checkpoint.sequence) + 1
    ensures reply.Acknowledged? ==>
      checkpoint.seen == old(checkpoint.seen) + waveSeen && checkpoint.written == old(checkpoint.written) + waveWritten
  {
    var fate := db.around.Carries();
    reply := checkpoint.Advance(to, waveSeen, waveWritten, fate);
  }

  /** The sweep's row has ended, with these totals. */
  predicate EndedWith(table: map<nat, Row>, sweep: nat, seen: nat, written: nat) {
    sweep in table && table[sweep].exhausted && table[sweep].seen == seen && table[sweep].written == written
  }

  method AcknowledgeEnd(db: ChunkTable, table: CheckpointTable, w: Watch, checkpoint: SweepCheckpoint,
                        rivals: nat) returns (reply: Reply)
    requires World(db, table, w) && HandleOk(checkpoint, table, w) && SweptAll(db.rows, w.before)
    requires w.mark.None? && InStep(checkpoint, table, db, rivals)
    modifies table`rows, checkpoint, db.around`faults
    ensures World(db, table, w)
    ensures !reply.InvalidWave? && old(db.around.faults) <= db.around.faults
    ensures !reply.Acknowledged? ==> Struck(db, old(db.around.faults), rivals, checkpoint)
    ensures reply.Acknowledged? ==>
      EndedWith(table.rows, checkpoint.sweep, old(checkpoint.seen), old(checkpoint.written))
  {
    var fate := db.around.Carries();
    reply := checkpoint.MarkExhausted(fate);
  }

  /** What the rows were when a page was read, and under what terms. */
  datatype Snapshot = Snapshot(rows: Chunks, used: set<int>, cursor: ChunkId, since: Option<int>, before: set<int>)

  ghost predicate ReadAt(page: seq<Read>, at: Snapshot) {
    && PageRead(page, at.rows, at.cursor, at.since)
    && StaleIsOwed(at.rows, at.before, at.since) && at.before <= at.used
    && (forall k | k in at.rows :: at.rows[k].stamp in at.used)
    && Swept(at.rows, at.before, at.cursor)
  }

  /** The first `n` reads of a page are committed: settled, and so swept up to the
      last of them. */
  ghost predicate Committed(page: seq<Read>, n: nat, at: Snapshot, rows: Chunks, used: set<int>)
    requires n <= |page|
  {
    && Later(at.rows, at.used, rows, used)
    && Settled(page[..n], rows)
    && Swept(rows, at.before, if n == 0 then at.cursor else page[n - 1].key)
  }

  ghost predicate StandsAt(checkpoint: SweepCheckpoint?, page: seq<Read>, n: nat, cursor: ChunkId)
    requires n <= |page|
    reads checkpoint
  {
    checkpoint != null ==> if n == 0 then checkpoint.cursor <= cursor else checkpoint.cursor == page[n - 1].key
  }

  lemma SettledGrows(page: seq<Read>, n: nat, m: nat, rows1: Chunks, used1: set<int>, rows: Chunks, used: set<int>)
    requires n <= m <= |page| && Later(rows1, used1, rows, used)
    requires Settled(page[..n], rows1) && Settled(page[n..m], rows) && Faithful(page[..n], rows1, used1)
    ensures Settled(page[..m], rows)
  {
    FaithfulLater(page[..n], rows1, used1, rows, used);
    assert page[..m] == page[..n] + page[n..m];
  }

  lemma CommittedGrows(page: seq<Read>, n: nat, m: nat, at: Snapshot, rows1: Chunks, used1: set<int>,
                       rows: Chunks, used: set<int>)
    requires ReadAt(page, at) && n < m <= |page| && Committed(page, n, at, rows1, used1)
    requires Later(rows1, used1, rows, used) && Settled(page[n..m], rows)
    ensures Committed(page, m, at, rows, used)
  {
    LaterTransitive(at.rows, at.used, rows1, used1, rows, used);
    assert Faithful(page[..n], at.rows, at.used);
    FaithfulLater(page[..n], at.rows, at.used, rows1, used1);
    SettledGrows(page, n, m, rows1, used1, rows, used);
    SweptLater(at.rows, at.used, rows, used, at.before, at.cursor);
    CommittedPrefixIsSwept(page, m, at.rows, at.used, rows, used, at.cursor, at.before, at.since);
  }

  /** One wave and its acknowledgement: all of its statements commit before the
      cursor may move past any of its rows. */
  method WaveStep(db: ChunkTable, table: CheckpointTable, w: Watch, writers: nat, checkpoint: SweepCheckpoint?,
                  rivals: nat, page: seq<Read>, n: nat, m: nat, wave: seq<seq<Read>>, ghost at: Snapshot)
    returns (failed: Option<PassOutcome>, written: nat)
    requires World(db, table, w) && HandleOk(checkpoint, table, w) && |wave| <= writers
    requires w.mark.None? && InStep(checkpoint, table, db, rivals)
    requires ReadAt(page, at) && at.before == w.before
    requires n < m <= |page| && Concat(wave) == page[n..m] && AllFaithful(wave, db.rows, db.used)
    requires Committed(page, n, at, db.rows, db.used) && StandsAt(checkpoint, page, n, at.cursor)
    modifies db, db.around, table`rows, HandleSet(checkpoint)
    ensures World(db, table, w)
    ensures Later(at.rows, at.used, db.rows, db.used)
    ensures failed.None? ==>
      Committed(page, m, at, db.rows, db.used) && StandsAt(checkpoint, page, m, at.cursor) && written <= m - n
      && InStep(checkpoint, table, db, rivals)
      && (checkpoint != null ==> checkpoint.sequence == old(checkpoint.sequence) + 1)
      && (checkpoint != null ==>
            && checkpoint.seen == old(checkpoint.seen) + (m - n)
            && checkpoint.written == old(checkpoint.written) + written)
    ensures old(db.around.faults) <= db.around.faults && old(db.around.rivals) <= db.around.rivals
    ensures failed.Some? ==> Interrupted(failed.value) && Struck(db, old(db.around.faults), rivals, checkpoint)
  {
    ghost var rows1, used1 := db.rows, db.used;
    Remember(db, table, w, checkpoint, rivals);
    var ok;
    ghost var commits;
    ok, written, commits := RunWave(db, table, Remembering(w, checkpoint, rivals), writers, wave);
    Recall(db, table, w, checkpoint, rivals);
    LaterTransitive(at.rows, at.used, rows1, used1, db.rows, db.used);
    if !ok { return Some(WaveFailed), written; }
    CommittedGrows(page, n, m, at, rows1, used1, db.rows, db.used);
    failed := None;
    if checkpoint != null {
      assert n > 0 ==> page[n - 1].key < page[m - 1].key;
      assert at.cursor < page[m - 1].key;
      var reply := Acknowledge(db, table, w, checkpoint, rivals, page[m - 1].key, m - n, written);
      if !reply.Acknowledged? { failed := Some(Stopped(reply)); }
    }
  }

  lemma WaveIsNext(page: seq<Read>, parts: seq<seq<Read>>, i: nat, top: nat, n: nat)
    requires i < top <= |parts| && n <= |page| && Concat(parts) == page && Concat(parts[..i]) == page[..n]
    requires forall p | p in parts :: 0 < |p|
    ensures n + |Concat(parts[i..top])| <= |page| && 0 < |Concat(parts[i..top])|
    ensures Concat(parts[i..top]) == page[n..n + |Concat(parts[i..top])|]
    ensures Concat(parts[..top]) == page[..n + |Concat(parts[i..top])|]
  {
    ConcatSplit(parts[..i], parts[i..top]);
    assert parts[..i] + parts[i..top] == parts[..top];
    ConcatSplit(parts[..top], parts[top..]);
    assert parts[..top] + parts[top..] == parts;
    var m := n + |Concat(parts[i..top])|;
    assert Concat(parts[..top]) == page[..n] + Concat(parts[i..top]);
    assert page[..m] == Concat(parts[..top]);
    assert page[n..m] == page[..m][n..];
    assert parts[i] in parts;
    assert parts[i..top][0] == parts[i];
  }

  lemma WaveIsFaithful(page: seq<Read>, parts: seq<seq<Read>>, i: nat, top: nat, at: Snapshot,
                       rows: Chunks, used: set<int>)
    requires ReadAt(page, at) && Concat(parts) == page && i <= top <= |parts|
    requires (forall p | p in parts :: KeysAscend(p)) && Later(at.rows, at.used, rows, used)
    ensures AllFaithful(parts[i..top], rows, used)
  {
    forall p | p in parts[i..top] ensures Faithful(p, rows, used) && KeysAscend(p) {
      assert p in parts;
      forall r | r in p ensures r in page { ConcatMember(parts, p, r); }
      assert Faithful(p, at.rows, at.used);
      FaithfulLater(p, at.rows, at.used, rows, used);
    }
  }

  /** Consecutive parts that make up a page. */
  ghost predicate Cut(page: seq<Read>, parts: seq<seq<Read>>) {
    Concat(parts) == page && forall p | p in parts :: 0 < |p| && KeysAscend(p)
  }

  /** So many waves have taken the first `i` of the parts, each as many as it may. */
  predicate Filled(i: nat, waves: nat, writers: nat, parts: nat) {
    if waves == 0 then i == 0
    else (waves - 1) * writers < i && i == (if waves * writers < parts then waves * writers else parts)
  }

  lemma FilledMore(i: nat, waves: nat, writers: nat, parts: nat)
    requires writers > 0 && i < parts && Filled(i, waves, writers, parts)
    ensures Filled(if i + writers <= parts then i + writers else parts, waves + 1, writers, parts)
  {
    assert (waves + 1) * writers == waves * writers + writers;
  }

  lemma FilledAll(waves: nat, writers: nat, parts: nat)
    requires writers > 0 && Filled(parts, waves, writers, parts)
    ensures waves == CeilDiv(parts, writers)
  {
    var q := CeilDiv(parts, writers);
    if waves > 0 {
      MulCancel(waves - 1, q, writers);
      if parts > 0 { MulCancel(q - 1, waves, writers); }
    }
  }

  /** The waves of one page, at most `writers` statements each, in key order. */
  method RunParts(db: ChunkTable, table: CheckpointTable, w: Watch, writers: nat, checkpoint: SweepCheckpoint?,
                  rivals: nat, page: seq<Read>, parts: seq<seq<Read>>, ghost at: Snapshot)
    returns (failed: Option<PassOutcome>, pageWritten: nat)
    requires writers > 0 && Cut(page, parts)
    requires World(db, table, w) && HandleOk(checkpoint, table, w)
    requires ReadAt(page, at) && at.before == w.before
    requires Committed(page, 0, at, db.rows, db.used) && StandsAt(checkpoint, page, 0, at.cursor)
    requires w.mark.None? && InStep(checkpoint, table, db, rivals)
    modifies db, db.around, table`rows, HandleSet(checkpoint)
    ensures World(db, table, w)
    ensures Later(at.rows, at.used, db.rows, db.used)
    ensures failed.None? ==>
      Committed(page, |page|, at, db.rows, db.used) && StandsAt(checkpoint, page, |page|, at.cursor)
      && pageWritten <= |page| && InStep(checkpoint, table, db, rivals)
      && (checkpoint != null ==>
            && checkpoint.sequence == old(checkpoint.sequence) + CeilDiv(|parts|, writers)
            && checkpoint.seen == old(checkpoint.seen) + |page|
            && checkpoint.written == old(checkpoint.written) + pageWritten)
    ensures old(db.around.faults) <= db.around.faults && old(db.around.rivals) <= db.around.rivals
    ensures failed.Some? ==> Interrupted(failed.value) && Struck(db, old(db.around.faults), rivals, checkpoint)
  {
    hide World, ReadAt, Swept, Settled, Later, AllFaithful, KeysAscend, InStep;
    var i, n := 0, 0;
    ghost var waves := 0;
    failed, pageWritten := None, 0;
    while i < |parts|
      invariant 0 <= i <= |parts| && 0 <= n <= |page| && pageWritten <= n && failed.None?
      invariant Concat(parts[..i]) == page[..n]
      invariant Filled(i, waves, writers, |parts|)
      invariant checkpoint != null ==> checkpoint.sequence == old(checkpoint.sequence) + waves
      invariant World(db, table, w) && HandleOk(checkpoint, table, w)
      invariant Committed(page, n, at, db.rows, db.used) && StandsAt(checkpoint, page, n, at.cursor)
      invariant InStep(checkpoint, table, db, rivals)
      invariant old(db.around.faults) <= db.around.faults && old(db.around.rivals) <= db.around.rivals
      invariant checkpoint != null ==>
        checkpoint.seen == old(checkpoint.seen) + n && checkpoint.written == old(checkpoint.written) + pageWritten
    {
      var top := if i + writers <= |parts| then i + writers else |parts|;
      var wave := parts[i..top];
      WaveIsNext(page, parts, i, top, n);
      WaveIsFaithful(page, parts, i, top, at, db.rows, db.used);
      var m := n + |Concat(wave)|;
      var written;
      failed, written := WaveStep(db, table, w, writers, checkpoint, rivals, page, n, m, wave, at);
      if failed.Some? { return; }
      pageWritten := pageWritten + written;
      FilledMore(i, waves, writers, |parts|);
      i, n, waves := top, m, waves + 1;
    }
    FilledAll(waves, writers, |parts|);
    assert parts[..i] == parts;
    assert page[..n] == page && n == |page|;
  }

  lemma PartsCut(page: seq<Read>, writers: nat, writeBatch: nat)
    requires writers > 0 && writeBatch > 0 && page != [] && KeysAscend(page)
    ensures Cut(page, Parts(page, writers, writeBatch))
    ensures forall p | p in Parts(page, writers, writeBatch) ::
      |p| <= writeBatch && (|p| - 1) * writers < |page|
  {
    var balanced := CeilDiv(|page|, writers);
    var size := if writeBatch < balanced then writeBatch else balanced;
    SlicesConcat(page, size);
    SlicesAscend(page, size);
    forall p | p in Parts(page, writers, writeBatch) ensures (|p| - 1) * writers < |page| {
      MulMono(|p| - 1, balanced - 1, writers);
    }
  }

  /** The next page, read after anything else may have happened. */
  method Fetch(db: ChunkTable, table: CheckpointTable, w: Watch, cursor: ChunkId, since: Option<int>)
    returns (page: seq<Read>)
    requires World(db, table, w) && StaleIsOwed(db.rows, w.before, since) && Swept(db.rows, w.before, cursor)
    modifies db, db.around`rivals, table`rows
    ensures World(db, table, w) && Later(old(db.rows), old(db.used), db.rows, db.used)
    ensures ReadAt(page, Snapshot(db.rows, db.used, cursor, since, w.before))
    ensures old(db.around.rivals) <= db.around.rivals
  {
    ghost var rows0, used0 := db.rows, db.used;
    Others(db, table, w);
    StaleIsOwedLater(rows0, used0, db.rows, db.used, w.before, since);
    SweptLater(rows0, used0, db.rows, db.used, w.before, cursor);
    page := PageOf(db.rows, cursor, since);
    PageOfRead(db.rows, cursor, since);
  }

  /** One page, written and acknowledged: what the cursor moves to is swept. */
  method RunPage(db: ChunkTable, table: CheckpointTable, w: Watch, since: Option<int>, writers: nat, writeBatch: nat,
                 checkpoint: SweepCheckpoint?, rivals: nat, cursor: ChunkId, page: seq<Read>)
    returns (failed: Option<PassOutcome>, written: nat)
    requires writers > 0 && writeBatch > 0 && page != []
    requires World(db, table, w) && HandleOk(checkpoint, table, w)
    requires StaleIsOwed(db.rows, w.before, since) && Swept(db.rows, w.before, cursor)
    requires PageRead(page, db.rows, cursor, since) && (checkpoint != null ==> checkpoint.cursor == cursor)
    requires w.mark.None? && InStep(checkpoint, table, db, rivals)
    modifies db, db.around, table`rows, HandleSet(checkpoint)
    ensures World(db, table, w) && Later(old(db.rows), old(db.used), db.rows, db.used)
    ensures failed.None? ==>
      && StaleIsOwed(db.rows, w.before, since) && Swept(db.rows, w.before, page[|page| - 1].key)
      && (checkpoint != null ==> checkpoint.cursor == page[|page| - 1].key) && written <= |page|
      && InStep(checkpoint, table, db, rivals)
      && (checkpoint != null ==>
            checkpoint.seen == old(checkpoint.seen) + |page| && checkpoint.written == old(checkpoint.written) + written)
    ensures old(db.around.faults) <= db.around.faults && old(db.around.rivals) <= db.around.rivals
    ensures failed.Some? ==> Interrupted(failed.value) && Struck(db, old(db.around.faults), rivals, checkpoint)
  {
    ghost var at := Snapshot(db.rows, db.used, cursor, since, w.before);
    PartsCut(page, writers, writeBatch);
    failed, written := RunParts(db, table, w, writers, checkpoint, rivals, page, Parts(page, writers, writeBatch), at);
    StaleIsOwedLater(at.rows, at.used, db.rows, db.used, w.before, since);
  }

  /** One forward sweep over the primary key.  Rows written stay in the window;
      the cursor alone ends the loop. */
  method Pass(db: ChunkTable, table: CheckpointTable, w: Watch, since: Option<int>,
              writers: nat, writeBatch: nat, checkpoint: SweepCheckpoint?) returns (outcome: PassOutcome)
    requires writers > 0 && writeBatch > 0
    requires World(db, table, w) && HandleOk(checkpoint, table, w)
    requires w.mark.None? && InStep(checkpoint, table, db, db.around.rivals)
    requires StaleIsOwed(db.rows, w.before, since)
    requires Swept(db.rows, w.before, if checkpoint == null then ZERO else checkpoint.cursor)
    modifies db, db.around, table`rows, HandleSet(checkpoint)
    ensures World(db, table, w)
    ensures Later(old(db.rows), old(db.used), db.rows, db.used)
    ensures outcome.EndOfKeyspace? ==> SweptAll(db.rows, w.before)
    ensures outcome.EndOfKeyspace? && checkpoint != null ==>
      EndedWith(table.rows, checkpoint.sweep,
                old(checkpoint.seen) + outcome.seen, old(checkpoint.written) + outcome.written)
    ensures old(db.around.faults) <= db.around.faults && old(db.around.rivals) <= db.around.rivals
    ensures !outcome.EndOfKeyspace? ==>
      Interrupted(outcome) && Struck(db, old(db.around.faults), old(db.around.rivals), checkpoint)
  {
    var rivals := db.around.rivals;
    var cursor := if checkpoint == null then ZERO else checkpoint.cursor;
    var seen: nat, total: nat := 0, 0;
    ghost var rows0, used0 := db.rows, db.used;
    hide World, Swept, SweptAll, StaleIsOwed, Interrupted, InStep, EndedWith;
    while true
      invariant World(db, table, w) && HandleOk(checkpoint, table, w) && InStep(checkpoint, table, db, rivals)
      invariant old(db.around.faults) <= db.around.faults && old(db.around.rivals) <= db.around.rivals
      invariant Later(rows0, used0, db.rows, db.used)
      invariant StaleIsOwed(db.rows, w.before, since) && Swept(db.rows, w.before, cursor)
      invariant checkpoint != null ==> checkpoint.cursor == cursor
      invariant checkpoint != null ==>
        checkpoint.seen == old(checkpoint.seen) + seen && checkpoint.written == old(checkpoint.written) + total
      decreases KEYSPACE - cursor
    {
      ghost var rows1, used1 := db.rows, db.used;
      Remember(db, table, w, checkpoint, rivals);
      var page := Fetch(db, table, Remembering(w, checkpoint, rivals), cursor, since);
      Recall(db, table, w, checkpoint, rivals);
      LaterTransitive(rows0, used0, rows1, used1, db.rows, db.used);
      if page == [] {
        EmptyPageIsSwept(db.rows, cursor, w.before, since);
        outcome := EndOfKeyspace(seen, total);
        if checkpoint != null {
          var reply := AcknowledgeEnd(db, table, w, checkpoint, rivals);
          if !reply.Acknowledged? { outcome := Stopped(reply); }
        }
        return;
      }
      ghost var rows2, used2 := db.rows, db.used;
      var failed, written := RunPage(db, table, w, since, writers, writeBatch, checkpoint, rivals, cursor, page);
      LaterTransitive(rows0, used0, rows2, used2, db.rows, db.used);
      if failed.Some? { return failed.value; }
      cursor := page[|page| - 1].key;
      seen, total := seen + |page|, total + written;
    }
  }

  // ── Whole sweeps ─────────────────────────────────────────────────

  /** Every row that does not match its text is inside the protected window. */
  ghost predicate Fresh(rows: Chunks, protect: int) {
    forall k | k in rows :: Matches(rows[k]) || protect < rows[k].stamp
  }

  lemma SweptIsFresh(db: ChunkTable, w: Watch)
    requires db.Valid() && Guarded(db, w) && w.protect.Some? && SweptAll(db.rows, w.before)
    ensures Fresh(db.rows, w.protect.value)
  {
  }

  /** One invocation: a new attempt id, and the windows it was given. */
  datatype Try = Try(attempt: nat, windows: Contract, resume: bool)

  /** One attempt, under its own attempt id: open the sweep or claim it, then
      pass over what is left.  It may die anywhere.  Only the attempt that creates
      the sweep has to bring its window; one that resumes it under any other is
      refused by the contract. */
  method Attempt(db: ChunkTable, table: CheckpointTable, w: Watch, sweep: nat, t: Try, writers: nat, writeBatch: nat)
    returns (done: bool)
    requires writers > 0 && writeBatch > 0
    requires World(db, table, w) && w.sweep == Some(sweep) && (!t.resume ==> t.windows.since == w.since)
    requires w.mark.None?
    requires StaleIsOwed(db.rows, w.before, Some(w.since))
    modifies db, db.around, table`rows
    ensures World(db, table, w)
    ensures Later(old(db.rows), old(db.used), db.rows, db.used)
    ensures done ==> SweptAll(db.rows, w.before) && sweep in table.rows && table.rows[sweep].exhausted
    ensures old(db.around.faults) <= db.around.faults && old(db.around.rivals) <= db.around.rivals
    ensures !done ==>
      || db.around.faults > old(db.around.faults) || db.around.rivals > old(db.around.rivals)
      || !Admits(old(table.rows), table.chunksOid, sweep, t.attempt, t.windows, t.resume)
  {
    var fate := db.around.Carries();
    var opening := OpenCheckpoint(table, sweep, t.attempt, t.windows, t.resume, fate);
    assert DurablePrefix(db.rows, table.rows, w);
    if opening.Rejected? { return false; }
    assert t.windows.since == w.since;
    var outcome := Pass(db, table, w, Some(t.windows.since), writers, writeBatch, opening.handle);
    done := outcome.EndOfKeyspace?;
  }

  /** A sweep over any number of attempts, each dying anywhere: claims that were
      refused, waves half committed, receipts whose reply was lost.  The
      protected instant is earlier than this moment and than the start of every
      writer still uncommitted; every stale row is owed under the window the sweep
      is created with.  Whatever is inserted, rewritten, deleted or committed late,
      once an attempt (or a rival) reaches the end of the keyspace no stale row is
      older than the instant, and no writer still open is either. */
  method RunSweep(db: ChunkTable, table: CheckpointTable, sweep: nat, since: int, protect: int, tries: seq<Try>,
                  writers: nat, writeBatch: nat) returns (done: bool)
    requires writers > 0 && writeBatch > 0
    requires forall t | t in tries && !t.resume :: t.windows.since == since
    requires db.Valid() && table.Valid() && sweep !in table.rows
    requires protect < db.clock && forall t | t in db.open :: protect < t
    requires forall k | k in db.rows :: Matches(db.rows[k]) || Owed(db.rows[k], Some(since))
    modifies db, db.around, table`rows
    ensures db.Valid() && table.Valid()
    ensures Later(old(db.rows), old(db.used), db.rows, db.used)
    ensures sweep in table.rows ==> Swept(db.rows, old(db.used), table.rows[sweep].cursor)
    ensures protect < db.clock && forall t | t in db.open :: protect < t
    ensures done ==> sweep in table.rows && table.rows[sweep].exhausted
    ensures old(db.around.faults) <= db.around.faults && old(db.around.rivals) <= db.around.rivals
    ensures tries != [] && !tries[0].resume && table.chunksOid.Some? ==>
      done || db.around.faults > old(db.around.faults) || db.around.rivals > old(db.around.rivals)
    ensures done || (sweep in table.rows && table.rows[sweep].exhausted) ==> Fresh(db.rows, protect)
  {
    var w := Watch(Some(sweep), since, db.used, Some(protect), false, None, false);
    ghost var rows0, used0 := db.rows, db.used;
    ghost var first := w;
    done := false;
    for i := 0 to |tries|
      invariant World(db, table, w) && w == first.(ended := done)
      invariant Later(rows0, used0, db.rows, db.used)
      invariant done ==> SweptAll(db.rows, w.before)
      invariant old(db.around.faults) <= db.around.faults && old(db.around.rivals) <= db.around.rivals
      invariant i == 0 && db.around.rivals == old(db.around.rivals) ==> table.rows == old(table.rows)
      invariant i > 0 && !tries[0].resume && table.chunksOid.Some? ==>
        done || db.around.faults > old(db.around.faults) || db.around.rivals > old(db.around.rivals)
    {
      ghost var rows1, used1 := db.rows, db.used;
      Others(db, table, w);
      LaterTransitive(rows0, used0, rows1, used1, db.rows, db.used);
      StaleIsOwedLater(rows0, used0, db.rows, db.used, w.before, Some(since));
      if !done {
        ghost var rows2, used2 := db.rows, db.used;
        done := Attempt(db, table, w, sweep, tries[i], writers, writeBatch);
        LaterTransitive(rows0, used0, rows2, used2, db.rows, db.used);
        w := w.(ended := done);
      } else {
        SweptAllLater(rows1, used1, db.rows, db.used, w.before);
      }
    }
    if done || (sweep in table.rows && table.rows[sweep].exhausted) { SweptIsFresh(db, w); }
  }

  /** The catch-up: a pass from the protected instant with the writers drained.
      Nothing stale is left. */
  method CatchUp(db: ChunkTable, table: CheckpointTable, protect: int, writers: nat, writeBatch: nat)
    returns (outcome: PassOutcome)
    requires writers > 0 && writeBatch > 0
    requires db.Valid() && table.Valid() && Fresh(db.rows, protect)
    modifies db, db.around, table`rows
    ensures db.Valid() && table.Valid()
    ensures Later(old(db.rows), old(db.used), db.rows, db.used)
    ensures outcome.EndOfKeyspace? ==> forall k | k in db.rows :: Matches(db.rows[k])
    ensures outcome.EndOfKeyspace? || db.around.faults > old(db.around.faults)
  {
    var w := Watch(None, protect, db.used, None, true, None, false);
    outcome := Pass(db, table, w, Some(protect), writers, writeBatch, null);
  }

  lemma FreshLater(rows0: Chunks, used0: set<int>, rows: Chunks, used: set<int>, protect: int)
    requires Fresh(rows0, protect) && Later(rows0, used0, rows, used)
    requires (forall k | k in rows :: rows[k].stamp in used) && forall t | t in used && t !in used0 :: protect < t
    ensures Fresh(rows, protect)
  {
    forall k | k in rows ensures Matches(rows[k]) || protect < rows[k].stamp {
      if rows[k].stamp in used0 { assert k in rows0 && Carried(rows0[k], rows[k]); }
    }
  }

  /** Between the two: writers go on starting and committing, and at last every
      one still open has committed or been abandoned. */
  method Drain(db: ChunkTable, table: CheckpointTable, protect: int)
    requires db.Valid() && table.Valid() && Fresh(db.rows, protect)
    requires protect < db.clock && forall t | t in db.open :: protect < t
    modifies db, db.around`rivals, table`rows
    ensures db.Valid() && table.Valid() && db.open == {} && Fresh(db.rows, protect)
  {
    var w := Watch(None, protect, db.used, Some(protect), false, None, false);
    ghost var rows0, used0 := db.rows, db.used;
    Others(db, table, w);
    while db.open != {}
      invariant World(db, table, w) && Later(rows0, used0, db.rows, db.used)
      decreases |db.open|
    {
      ghost var rows1, used1 := db.rows, db.used;
      var start := Min(db.open);
      if * {
        var effects: map<ChunkId, Effect> := *;
        if !(forall k | k in effects :: ZERO < k < KEYSPACE) { effects := map[]; }
        db.Commit(start, effects);
      } else {
        db.open := db.open - {start};
      }
      LaterTransitive(rows0, used0, rows1, used1, db.rows, db.used);
    }
    FreshLater(rows0, used0, db.rows, db.used, protect);
  }

  /** The whole move: a sweep over any number of attempts, whatever commits late
      until the writers have drained, and a catch-up from the protected instant.
      When both passes reach their end, no row is stale. */
  method SweepThenCatchUp(db: ChunkTable, table: CheckpointTable, sweep: nat, since: int, protect: int,
                          tries: seq<Try>, writers: nat, writeBatch: nat) returns (converged: bool)
    requires writers > 0 && writeBatch > 0
    requires forall t | t in tries && !t.resume :: t.windows.since == since
    requires db.Valid() && table.Valid() && sweep !in table.rows
    requires protect < db.clock && forall t | t in db.open :: protect < t
    requires forall k | k in db.rows :: Matches(db.rows[k]) || Owed(db.rows[k], Some(since))
    modifies db, db.around, table`rows
    ensures db.Valid() && table.Valid()
    ensures converged ==> forall k | k in db.rows :: Matches(db.rows[k])
    ensures tries != [] && !tries[0].resume && table.chunksOid.Some? ==>
      converged || db.around.faults > old(db.around.faults) || db.around.rivals > old(db.around.rivals)
  {
    var done := RunSweep(db, table, sweep, since, protect, tries, writers, writeBatch);
    if !done { return false; }
    Drain(db, table, protect);
    var outcome := CatchUp(db, table, protect, writers, writeBatch);
    converged := outcome.EndOfKeyspace?;
  }

  /** Whatever one of these open transactions still commits. */
  ghost predicate LateCommitsKeepFresh(rows: Chunks, open: set<int>, protect: int) {
    forall start, effects | start in open :: Fresh(Written(rows, start, effects), protect)
  }

  /** How the protected instant must be chosen: late commits leave no stale row
      older than it exactly when it is earlier than the start of every transaction
      still open. */
  lemma ProtectedInstantIsExact(rows: Chunks, open: set<int>, protect: int)
    requires Fresh(rows, protect)
    ensures LateCommitsKeepFresh(rows, open, protect) <==> forall t | t in open :: protect < t
  {
    if start :| start in open && start <= protect {
      LateCommitIsStale(rows, start, 1, protect);
    }
  }

  /** A transaction no younger than the instant can rewrite any encoded row so that
      it is stale and the catch-up does not look at it. */
  lemma LateCommitIsStale(rows: Chunks, start: int, k: ChunkId, protect: int)
    requires start <= protect
    ensures exists effects :: !Fresh(Written(rows, start, effects), protect)
    ensures k in rows && rows[k].encoding.Some? ==>
      exists effects :: k in Written(rows, start, effects)
        && !Matches(Written(rows, start, effects)[k]) && !Owed(Written(rows, start, effects)[k], Some(protect))
  {
    var text := if k in rows && rows[k].encoding.Some? then rows[k].encoding.value + " " else "";
    var effects := map[k := Upsert(text, false)];
    var after := Written(rows, start, effects);
    assert k in after && after[k].text == text && after[k].stamp == start;
    assert |text| > 0 ==> after[k].encoding.value != text;
    assert !Matches(after[k]);
    assert !Fresh(after, protect);
  }
}
