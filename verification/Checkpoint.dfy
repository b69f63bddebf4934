/** `scripts/bm25_sweep_checkpoint.py`: database-owned progress of one sweep,
    changed only by compare-and-swap. */
module Checkpoint {
  import opened ChunkIds
  import opened Options

  /** The nil UUID, where a sweep begins. */
  const ZERO: ChunkId := 0

  /** What a resume must repeat exactly. */
  datatype Contract = Contract(
    since: int, protectSince: int, revision: string, encoding: string, schema: string, chunksOid: nat)

  /** The stored row. */
  datatype Row = Row(
    attempt: nat, contract: Contract,
    cursor: ChunkId, sequence: nat, seen: nat, written: nat, exhausted: bool)

  /** What an attempt remembers of the row. */
  datatype Handle = Handle(attempt: nat, cursor: ChunkId, sequence: nat)

  /** How a statement may end for the client that sent it. */
  datatype Fate = Delivered | LostBeforeCommit | LostAfterCommit

  datatype Reply = Acknowledged | InvalidWave | OwnershipChanged | ConnectionLost

  datatype Opening = Opened(handle: SweepCheckpoint) | Rejected(reason: Rejection)
  datatype Rejection =
    | ChunksMissing | Missing | ContractChanged | AlreadyExhausted | SameAttempt | AlreadyExists | LostConnection

  // ── The compare-and-swap, on values ──────────────────────────────

  predicate Current(row: Row, h: Handle) {
    row.attempt == h.attempt && row.sequence == h.sequence && row.cursor == h.cursor && !row.exhausted
  }

  predicate WaveOk(h: Handle, cursor: ChunkId, seen: int, written: int) {
    cursor > h.cursor && seen > 0 && 0 <= written <= seen
  }

  function Advanced(row: Row, cursor: ChunkId, seen: nat, written: nat): Row {
    row.(cursor := cursor, seen := row.seen + seen, written := row.written + written, sequence := row.sequence + 1)
  }

  function Exhausted(row: Row): Row {
    row.(exhausted := true, sequence := row.sequence + 1)
  }

  function Claimed(row: Row, attempt: nat): Row {
    row.(attempt := attempt, sequence := row.sequence + 1)
  }

  /** Everything that ever changes a row: a handle's wave, its end of keyspace,
      or a new attempt's claim. */
  datatype Change =
    | Wave(owner: Handle, to: ChunkId, seen: nat, written: nat)
    | End(owner: Handle)
    | Claim(attempt: nat)

  predicate Allowed(row: Row, c: Change) {
    match c
    case Wave(h, to, seen, written) => WaveOk(h, to, seen, written) && Current(row, h)
    case End(h) => Current(row, h)
    case Claim(attempt) => !row.exhausted && attempt != row.attempt
  }

  function Changed(row: Row, c: Change): Row {
    match c
    case Wave(_, to, seen, written) => Advanced(row, to, seen, written)
    case End(_) => Exhausted(row)
    case Claim(attempt) => Claimed(row, attempt)
  }

  /** The life of a row: each change allowed by the row it met. */
  ghost predicate Life(rows: seq<Row>, changes: seq<Change>) {
    && |rows| == |changes| + 1
    && (forall i | 0 <= i < |changes| :: Allowed(rows[i], changes[i]) && rows[i + 1] == Changed(rows[i], changes[i]))
  }

  /** Along every life the sequence counts the changes, the cursor never moves
      back, the contract never changes, and written never overtakes seen. */
  lemma {:induction false} LifeIsMonotone(rows: seq<Row>, changes: seq<Change>, i: nat, j: nat)
    requires Life(rows, changes) && i <= j < |rows| && rows[i].written <= rows[i].seen
    ensures rows[j].sequence == rows[i].sequence + (j - i)
    ensures rows[i].cursor <= rows[j].cursor && rows[j].contract == rows[i].contract
    ensures rows[i].seen <= rows[j].seen && rows[i].written <= rows[j].written <= rows[j].seen
  {
    if i < j {
      LifeIsMonotone(rows, changes, i, j - 1);
      assert Allowed(rows[j - 1], changes[j - 1]) && rows[j] == Changed(rows[j - 1], changes[j - 1]);
    }
  }

  function WaveSeen(c: Change): nat {
    if c.Wave? then c.seen else 0
  }

  function WaveWritten(c: Change): nat {
    if c.Wave? then c.written else 0
  }

  /** The rows all these waves read, and all they wrote. */
  function TotalSeen(changes: seq<Change>): nat {
    if changes == [] then 0 else WaveSeen(changes[0]) + TotalSeen(changes[1..])
  }

  function TotalWritten(changes: seq<Change>): nat {
    if changes == [] then 0 else WaveWritten(changes[0]) + TotalWritten(changes[1..])
  }

  lemma {:induction false} TotalsExtend(changes: seq<Change>, c: Change)
    ensures TotalSeen(changes + [c]) == TotalSeen(changes) + WaveSeen(c)
    ensures TotalWritten(changes + [c]) == TotalWritten(changes) + WaveWritten(c)
  {
    if changes == [] {
      assert changes + [c] == [c];
    } else {
      assert (changes + [c])[1..] == changes[1..] + [c];
      TotalsExtend(changes[1..], c);
    }
  }

  /** A row's counters are the sums of the waves acknowledged into it. */
  lemma {:induction false} LifeAddsUp(rows: seq<Row>, changes: seq<Change>, i: nat, j: nat)
    requires Life(rows, changes) && i <= j < |rows|
    ensures rows[j].seen == rows[i].seen + TotalSeen(changes[i..j])
    ensures rows[j].written == rows[i].written + TotalWritten(changes[i..j])
  {
    if i < j {
      LifeAddsUp(rows, changes, i, j - 1);
      assert rows[j] == Changed(rows[j - 1], changes[j - 1]);
      assert changes[i..j] == changes[i..j - 1] + [changes[j - 1]];
      TotalsExtend(changes[i..j - 1], changes[j - 1]);
    }
  }

  /** Since change `n` the row stands where the last wave, and belongs to whom the
      last claim, put it: no later change of that kind has come. */
  lemma {:induction false} LifeKeepsLast(rows: seq<Row>, changes: seq<Change>, n: nat, j: nat)
    requires Life(rows, changes) && n < j < |rows|
    ensures changes[n].Wave? && (forall m | n < m < j :: !changes[m].Wave?) ==> rows[j].cursor == changes[n].to
    ensures changes[n].Claim? && (forall m | n < m < j :: !changes[m].Claim?) ==> rows[j].attempt == changes[n].attempt
    ensures rows[j].exhausted <==> rows[n].exhausted || exists m | n <= m < j :: changes[m].End?
  {
    assert Allowed(rows[j - 1], changes[j - 1]) && rows[j] == Changed(rows[j - 1], changes[j - 1]);
    if n < j - 1 { LifeKeepsLast(rows, changes, n, j - 1); }
  }

  /** The row always changes hands: no attempt claims it twice running. */
  lemma ClaimsDiffer(rows: seq<Row>, changes: seq<Change>, n: nat, j: nat)
    requires Life(rows, changes) && n < j < |changes| && changes[n].Claim? && changes[j].Claim?
    requires forall m | n < m < j :: !changes[m].Claim?
    ensures changes[n].attempt != changes[j].attempt
  {
    LifeKeepsLast(rows, changes, n, j);
    assert Allowed(rows[j], changes[j]);
  }

  /** Only the attempt that claimed the row last can move it on or end it. */
  lemma OwnerOnly(rows: seq<Row>, changes: seq<Change>, n: nat, j: nat)
    requires Life(rows, changes) && n < j < |changes|
    requires changes[n].Claim? && forall m | n < m < j :: !changes[m].Claim?
    ensures changes[j].Wave? || changes[j].End? ==> changes[j].owner.attempt == changes[n].attempt
    ensures changes[j].Wave? ==> changes[j].owner.cursor == rows[j].cursor < changes[j].to
  {
    LifeKeepsLast(rows, changes, n, j);
    assert Allowed(rows[j], changes[j]);
  }

  /** Once exhausted a row never changes again: no wave, no claim, no second end. */
  lemma ExhaustedIsFinal(rows: seq<Row>, changes: seq<Change>, i: nat)
    requires Life(rows, changes) && i < |rows| && rows[i].exhausted
    ensures i == |changes|
  {
    forall j | 0 <= j < |changes| ensures !rows[j].exhausted { assert Allowed(rows[j], changes[j]); }
  }

  function By(c: Change): Option<Handle> {
    match c
    case Wave(h, _, _, _) => Some(h)
    case End(h) => Some(h)
    case Claim(_) => None
  }

  /** A handle that has fallen behind the row is dead: whatever attempt ids are
      reused later, it never changes the row again. */
  lemma StaleHandleIsFenced(rows: seq<Row>, changes: seq<Change>, h: Handle, i: nat, j: nat)
    requires Life(rows, changes) && i <= j < |changes| && rows[i].written <= rows[i].seen
    requires h.sequence < rows[i].sequence
    ensures By(changes[j]) != Some(h)
  {
    LifeIsMonotone(rows, changes, i, j);
    assert Allowed(rows[j], changes[j]);
  }

  // ── The table and the handle ─────────────────────────────────────

  /** bm25_backfill_checkpoint, beside the chunks. */
  class CheckpointTable {
    var rows: map<nat, Row>
    var chunksOid: Option<nat>      // None: the schema has no chunks table

    constructor (oid: Option<nat>)
      ensures rows == map[] && chunksOid == oid
    {
      rows := map[];
      chunksOid := oid;
    }

    /** The CHECK constraint. */
    ghost predicate Valid()
      reads this
    {
      forall s | s in rows :: rows[s].written <= rows[s].seen
    }
  }

  class SweepCheckpoint {
    const table: CheckpointTable
    const sweep: nat
    const attempt: nat
    var cursor: ChunkId
    var sequence: nat
    var seen: nat
    var written: nat

    constructor (table: CheckpointTable, sweep: nat, row: Row)
      ensures this.table == table && this.sweep == sweep && this.attempt == row.attempt
      ensures cursor == row.cursor && sequence == row.sequence && seen == row.seen && written == row.written
    {
      this.table := table;
      this.sweep := sweep;
      this.attempt := row.attempt;
      cursor := row.cursor;
      sequence := row.sequence;
      seen := row.seen;
      written := row.written;
    }

    function Remembered(): Handle
      reads this
    {
      Handle(attempt, cursor, sequence)
    }

    predicate Owns()
      reads this, table
    {
      sweep in table.rows && Current(table.rows[sweep], Remembered())
    }

    /** Acknowledge one writer wave.  Only an owner's wave changes the row, and
        only a delivered reply moves the handle. */
    method Advance(to: ChunkId, waveSeen: int, waveWritten: int, fate: Fate) returns (reply: Reply)
      requires table.Valid()
      modifies this, table`rows
      ensures table.Valid()
      ensures reply.InvalidWave? <==> !WaveOk(old(Remembered()), to, waveSeen, waveWritten)
      ensures reply.Acknowledged? <==>
                WaveOk(old(Remembered()), to, waveSeen, waveWritten) && old(Owns()) && fate.Delivered?
      ensures table.rows ==
        if WaveOk(old(Remembered()), to, waveSeen, waveWritten) && old(Owns()) && !fate.LostBeforeCommit?
        then old(table.rows[sweep := Advanced(table.rows[sweep], to, waveSeen, waveWritten)])
        else old(table.rows)
      ensures if reply.Acknowledged?
              then Owns() && cursor == to && seen == table.rows[sweep].seen && written == table.rows[sweep].written
              else unchanged(this)
    {
      if to <= cursor || waveSeen <= 0 || !(0 <= waveWritten <= waveSeen) { return InvalidWave; }
      if fate.LostBeforeCommit? { return ConnectionLost; }
      if !Owns() { return if fate.Delivered? then OwnershipChanged else ConnectionLost; }
      var row := Advanced(table.rows[sweep], to, waveSeen, waveWritten);
      table.rows := table.rows[sweep := row];
      if fate.LostAfterCommit? { return ConnectionLost; }
      cursor, sequence, seen, written := to, row.sequence, row.seen, row.written;
      reply := Acknowledged;
    }

    /** End of keyspace, nothing more. */
    method MarkExhausted(fate: Fate) returns (reply: Reply)
      requires table.Valid()
      modifies this`sequence, table`rows
      ensures table.Valid() && !reply.InvalidWave?
      ensures reply.Acknowledged? <==> old(Owns()) && fate.Delivered?
      ensures table.rows ==
        if old(Owns()) && !fate.LostBeforeCommit?
        then old(table.rows[sweep := Exhausted(table.rows[sweep])]) else old(table.rows)
      ensures reply.Acknowledged? ==> sweep in table.rows && sequence == table.rows[sweep].sequence
      ensures !reply.Acknowledged? ==> unchanged(this)
    {
      if fate.LostBeforeCommit? { return ConnectionLost; }
      if !Owns() { return if fate.Delivered? then OwnershipChanged else ConnectionLost; }
      var row := Exhausted(table.rows[sweep]);
      table.rows := table.rows[sweep := row];
      if fate.LostAfterCommit? { return ConnectionLost; }
      sequence := row.sequence;
      reply := Acknowledged;
    }
  }

  /** What an opening needs: the chunks relation, and either no row of this sweep,
      or one of exactly this contract, not exhausted, last claimed by another attempt. */
  predicate Admits(rows: map<nat, Row>, oid: Option<nat>, sweep: nat, attempt: nat, windows: Contract, resume: bool) {
    oid.Some? &&
    if resume
    then sweep in rows && rows[sweep].contract == windows.(chunksOid := oid.value)
         && !rows[sweep].exhausted && rows[sweep].attempt != attempt
    else sweep !in rows
  }

  /** Create a sweep, or claim an existing one under a new attempt id. */
  method OpenCheckpoint(table: CheckpointTable, sweep: nat, attempt: nat, windows: Contract, resume: bool, fate: Fate)
    returns (opening: Opening)
    requires table.Valid()
    modifies table`rows
    ensures table.Valid()
    ensures opening.Opened? <==>
      fate.Delivered? && Admits(old(table.rows), table.chunksOid, sweep, attempt, windows, resume)
    ensures opening.Opened? ==>
      && fresh(opening.handle) && opening.handle.table == table && opening.handle.sweep == sweep
      && opening.handle.attempt == attempt && opening.handle.Owns()
      && opening.handle.seen == table.rows[sweep].seen && opening.handle.written == table.rows[sweep].written
    ensures opening.Rejected? && fate.Delivered? ==> opening.reason != LostConnection
    ensures table.rows ==
      if fate.LostBeforeCommit? || !Admits(old(table.rows), table.chunksOid, sweep, attempt, windows, resume)
      then old(table.rows)
      else old(table.rows)[sweep :=
        if resume then Claimed(old(table.rows)[sweep], attempt)
        else Row(attempt, windows.(chunksOid := table.chunksOid.value), ZERO, 0, 0, 0, false)]
  {
    if fate.LostBeforeCommit? { return Rejected(LostConnection); }
    if table.chunksOid.None? { return Rejected(ChunksMissing); }
    var contract := windows.(chunksOid := table.chunksOid.value);
    var row: Row;
    if resume {
      if sweep !in table.rows { return Rejected(Missing); }
      row := table.rows[sweep];
      if row.contract != contract { return Rejected(ContractChanged); }
      if row.exhausted { return Rejected(AlreadyExhausted); }
      if row.attempt == attempt { return Rejected(SameAttempt); }
      row := Claimed(row, attempt);
    } else {
      if sweep in table.rows { return Rejected(AlreadyExists); }
      row := Row(attempt, contract, ZERO, 0, 0, 0, false);
    }
    table.rows := table.rows[sweep := row];
    if fate.LostAfterCommit? { return Rejected(LostConnection); }
    var handle := new SweepCheckpoint(table, sweep, row);
    opening := Opened(handle);
  }
}
